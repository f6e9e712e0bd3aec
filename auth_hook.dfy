/**
 * The `useAuth` hook of src/hooks/useAuth.ts: the view's copy of the session
 * (`user`, `isLoading`), loaded from the store on mount, written through the
 * store by `login` / `logout`, and kept in step with other tabs through the
 * browser's `storage` event.
 */
module AuthHook {
  import opened Wrappers
  import opened Session

  /** The key the storage listener reacts to, spelled out again in the hook. */
  const ListenedKey: string := "careerlaunch_user"

  /** A `storage` event as another tab's write delivers it: `key` is `None` after
      `localStorage.clear()`, `newValue` is `None` after a removal. */
  datatype StorageEvent = StorageEvent(key: Option<string>, newValue: Option<string>)

  /** What `handleStorageChange` does with one event. */
  datatype Reaction =
    | Ignore                      // another key: nothing happens
    | SetUserTo(user: Option<User>)
    | ParseThrows                 // `JSON.parse` throws inside the listener; `user` is not set

  /** The listener's decision for one event. The key it compares with is the
      store's own session key, so it sees every write the store makes. */
  function React(e: StorageEvent): (r: Reaction)
    ensures e.key != Some(SessionKey) ==> r == Ignore
    ensures e.key == Some(SessionKey) && (e.newValue == None || e.newValue == Some("")) ==> r == SetUserTo(None)
    ensures e.key == Some(SessionKey) && e.newValue.Some? && e.newValue.value != "" ==>
              r == (match Decode(e.newValue.value)
                    case Some(u) => SetUserTo(Some(u))
                    case None => ParseThrows)
  {
    if e.key != Some(ListenedKey) then Ignore
    else
      match e.newValue
      case None => SetUserTo(None)
      case Some(text) =>
        if text == "" then SetUserTo(None)
        else
          match Decode(text)
          case None => ParseThrows
          case Some(u) => SetUserTo(Some(u))
  }

  /** `user` after the listener has handled `e`. */
  function AfterEvent(user: Option<User>, e: StorageEvent): Option<User> {
    match React(e)
    case SetUserTo(v) => v
    case _ => user
  }

  /** The session hook's state. */
  class AuthHook {
    const store: SessionStore
    var user: Option<User>
    var isLoading: bool
    /** Whether the `storage` listener is registered (between mount and unmount). */
    var listening: bool

    /** The view agrees with the store. */
    predicate Synced()
      reads this, store
    {
      user == StoredUser(store.storage)
    }

    /** The initial `useState` values, before the mount effect runs. */
    constructor (store: SessionStore)
      ensures this.store == store
      ensures user == None && isLoading && !listening
    {
      this.store := store;
      user := None;
      isLoading := true;
      listening := false;
    }

    /** The mount effect: load the stored user, end loading, register the listener. */
    method Mount()
      modifies this
      ensures user == StoredUser(store.storage) && Synced()
      ensures !isLoading && listening
    {
      var current := store.GetCurrentUser();
      user := current;
      isLoading := false;
      listening := true;
    }

    /** The effect's clean-up: the listener is removed; nothing else changes. */
    method Unmount()
      modifies this
      ensures !listening
      ensures user == old(user) && isLoading == old(isLoading)
    {
      listening := false;
    }

    /** `handleStorageChange(e)`, when the browser delivers a `storage` event.
        `thrown` reports the unguarded parse failing. */
    method HandleStorageChange(e: StorageEvent) returns (thrown: bool)
      modifies this
      ensures thrown <==> listening && React(e) == ParseThrows
      ensures user == if listening then AfterEvent(old(user), e) else old(user)
      ensures isLoading == old(isLoading) && listening == old(listening)
    {
      thrown := false;
      if listening {
        if e.key == Some(ListenedKey) {
          if e.newValue.None? || e.newValue == Some("") {
            user := None;
          } else {
            var parsed := Decode(e.newValue.value);
            if parsed.None? {
              thrown := true;
            } else {
              user := parsed;
            }
          }
        }
      }
    }

    /** `login(userData)`: write through the store, then adopt the user. */
    method Login(u: User)
      modifies this, store
      ensures store.storage == old(store.storage)[SessionKey := Encode(u)]
      ensures user == Some(u) && Synced()
      ensures isLoading == old(isLoading) && listening == old(listening)
    {
      store.SetUser(u);
      user := Some(u);
    }

    /** `logout()`: clear the store, then forget the user. */
    method Logout()
      modifies this, store
      ensures store.storage == old(store.storage) - {SessionKey}
      ensures user == None && Synced()
      ensures isLoading == old(isLoading) && listening == old(listening)
    {
      store.Logout();
      user := None;
    }

    /** `isAuthenticated: !!user`. */
    function IsAuthenticated(): (b: bool)
      reads this
      ensures b <==> user != None
    {
      user.Some?
    }
  }

  // ---------------------------------------------------------------------------
  // Another tab writing the shared storage

  /** A session write made by another tab through its own store. */
  datatype TabWrite = SetUserWrite(u: User) | LogoutWrite

  /** The shared storage after another tab's write. */
  function Perform(storage: map<string, string>, w: TabWrite): map<string, string> {
    match w
    case SetUserWrite(u) => storage[SessionKey := Encode(u)]
    case LogoutWrite => storage - {SessionKey}
  }

  /** The `storage` events a write delivers to this tab: one when the stored value
      changes, none when it does not. */
  function EventsOf(storage: map<string, string>, w: TabWrite): seq<StorageEvent> {
    match w
    case SetUserWrite(u) =>
      if SessionKey in storage && storage[SessionKey] == Encode(u) then []
      else [StorageEvent(Some(SessionKey), Some(Encode(u)))]
    case LogoutWrite =>
      if SessionKey in storage then [StorageEvent(Some(SessionKey), None)] else []
  }

  function FinalStorage(storage: map<string, string>, ws: seq<TabWrite>): map<string, string>
    decreases |ws|
  {
    if ws == [] then storage else FinalStorage(Perform(storage, ws[0]), ws[1..])
  }

  function EventsOfAll(storage: map<string, string>, ws: seq<TabWrite>): seq<StorageEvent>
    decreases |ws|
  {
    if ws == [] then [] else EventsOf(storage, ws[0]) + EventsOfAll(Perform(storage, ws[0]), ws[1..])
  }

  /** `user` after the listener has handled `events` in order. */
  function Replay(user: Option<User>, events: seq<StorageEvent>): Option<User>
    decreases |events|
  {
    if events == [] then user else Replay(AfterEvent(user, events[0]), events[1..])
  }

  lemma {:induction false} ReplayAppend(user: Option<User>, a: seq<StorageEvent>, b: seq<StorageEvent>)
    ensures Replay(user, a + b) == Replay(Replay(user, a), b)
    decreases |a|
  {
    if a != [] {
      assert (a + b)[0] == a[0] && (a + b)[1..] == a[1..] + b;
      ReplayAppend(AfterEvent(user, a[0]), a[1..], b);
    } else {
      assert a + b == b;
    }
  }

  /** The event a write of `u` delivers sets the view to `u`. */
  lemma WriteEventSetsUser(user: Option<User>, u: User)
    ensures Replay(user, [StorageEvent(Some(SessionKey), Some(Encode(u)))]) == Some(u)
  {
    var e := StorageEvent(Some(SessionKey), Some(Encode(u)));
    DecodeEncode(u);
    assert React(e) == SetUserTo(Some(u));
    assert [e][1..] == [];
  }

  /** One write by another tab keeps a synced view synced. */
  lemma OneWriteKeepsSync(storage: map<string, string>, w: TabWrite, user: Option<User>)
    requires user == StoredUser(storage)
    ensures Replay(user, EventsOf(storage, w)) == StoredUser(Perform(storage, w))
  {
    match w {
      case SetUserWrite(u) =>
        SetThenGet(storage, u);
        if SessionKey in storage && storage[SessionKey] == Encode(u) {
          assert Perform(storage, w) == storage;
        } else {
          WriteEventSetsUser(user, u);
        }
      case LogoutWrite =>
        if SessionKey !in storage {
          assert Perform(storage, w) == storage;
        } else {
          var e := StorageEvent(Some(SessionKey), None);
          assert [e][1..] == [];
        }
    }
  }

  /** Cross-tab synchronisation: a view that agreed with the storage at mount
      agrees with it after any sequence of writes by other tabs, once it has
      handled the events those writes delivered. */
  lemma {:induction false} CrossTabSync(storage: map<string, string>, ws: seq<TabWrite>, user: Option<User>)
    requires user == StoredUser(storage)
    ensures Replay(user, EventsOfAll(storage, ws)) == StoredUser(FinalStorage(storage, ws))
    decreases |ws|
  {
    if ws != [] {
      var next := Perform(storage, ws[0]);
      ReplayAppend(user, EventsOf(storage, ws[0]), EventsOfAll(next, ws[1..]));
      OneWriteKeepsSync(storage, ws[0], user);
      CrossTabSync(next, ws[1..], StoredUser(next));
    }
  }
}
