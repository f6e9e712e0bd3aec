/**
 * The login page (src/pages/Login.tsx): the login form's schema, the demo
 * e-mail login and the Google login, both of which go through the session hook.
 *
 * The e-mail check of the schema library is the parameter `isEmail`; the clock
 * read by `Date.now()` is the parameter `now`; the outcome of the Google
 * sign-in promise is the parameter `outcome`.
 */
module Login {
  import opened Wrappers
  import opened Session
  import opened AuthHook

  datatype LoginForm = LoginForm(email: string, password: string)

  datatype Field = EmailField | Password

  /** `loginSchema`: the fields whose rule the value breaks. */
  function Errors(f: LoginForm, isEmail: string -> bool): (errs: set<Field>)
    ensures EmailField in errs <==> !isEmail(f.email)
    ensures Password in errs <==> |f.password| < 6
  {
    (if !isEmail(f.email) then {EmailField} else {})
    + (if |f.password| < 6 then {Password} else {})
  }

  /** The schema accepts the form: the address passes the e-mail check and the
      password has at least six characters. */
  function FormValid(f: LoginForm, isEmail: string -> bool): (valid: bool)
    ensures valid <==> isEmail(f.email) && |f.password| >= 6
  {
    Errors(f, isEmail) == {}
  }

  /** `n.toString()` for a non-negative integer: its decimal numeral. */
  function DecimalString(n: nat): (r: string)
    ensures |r| >= 1
    ensures forall i :: 0 <= i < |r| ==> '0' <= r[i] <= '9'
    decreases n
  {
    if n < 10 then [(48 + n) as char] else DecimalString(n / 10) + [(48 + n % 10) as char]
  }

  /** The session record of an e-mail login at time `now`. */
  function EmailUser(email: string, now: nat): (u: User)
    ensures u.email == email && u.loginMethod == Some(Session.Email)
    ensures u.firstName == None && u.lastName == None
    ensures u.id != "" && forall i :: 0 <= i < |u.id| ==> '0' <= u.id[i] <= '9'
  {
    User(DecimalString(now), email, None, None, Some(Session.Email))
  }

  datatype Toast = LoginSuccessful | GoogleUnavailable | GoogleLoginSuccessful | GoogleSignInFailed

  /** The page's state. */
  class LoginPage {
    const auth: AuthHook
    var isLoading: bool
    var isGoogleLoading: bool
    var googleAvailable: bool
    /** The location the page has navigated to. */
    var location: Option<string>
    var toast: Option<Toast>

    constructor (auth: AuthHook)
      ensures this.auth == auth
      ensures !isLoading && !isGoogleLoading && !googleAvailable && location == None && toast == None
    {
      this.auth := auth;
      isLoading := false;
      isGoogleLoading := false;
      googleAvailable := false;
      location := None;
      toast := None;
    }

    /** The mount timer records whether Google sign-in is available. */
    method DetectGoogle(available: bool)
      modifies this
      ensures googleAvailable == available
      ensures isLoading == old(isLoading) && isGoogleLoading == old(isGoogleLoading)
      ensures location == old(location) && toast == old(toast)
    {
      googleAvailable := available;
    }

    /** `form.handleSubmit(onSubmit)` up to the simulated delay: `onSubmit` runs
        only for a valid form and starts by setting `isLoading`. */
    method Submit(f: LoginForm, isEmail: string -> bool) returns (started: bool)
      modifies this
      ensures started <==> FormValid(f, isEmail)
      ensures isLoading == (started || old(isLoading))
      ensures isGoogleLoading == old(isGoogleLoading) && googleAvailable == old(googleAvailable)
      ensures location == old(location) && toast == old(toast)
    {
      started := Errors(f, isEmail) == {};
      if started {
        isLoading := true;
      }
    }

    /** The rest of `onSubmit`: log the user in through the hook, toast, clear
        `isLoading`, then go to "/". */
    method FinishSubmit(f: LoginForm, now: nat)
      modifies this, auth, auth.store
      ensures auth.user == Some(EmailUser(f.email, now))
      ensures auth.store.storage == old(auth.store.storage)[SessionKey := Encode(EmailUser(f.email, now))]
      ensures StoredUser(auth.store.storage) == auth.user
      ensures !isLoading && location == Some("/") && toast == Some(LoginSuccessful)
      ensures isGoogleLoading == old(isGoogleLoading) && googleAvailable == old(googleAvailable)
      ensures auth.isLoading == old(auth.isLoading) && auth.listening == old(auth.listening)
    {
      var user := EmailUser(f.email, now);
      auth.Login(user);
      assert auth.Synced();
      toast := Some(LoginSuccessful);
      isLoading := false;
      location := Some("/");
    }

    /** `handleGoogleLogin` up to the awaited sign-in: when Google is unavailable
        it only shows a toast and returns; otherwise it sets `isGoogleLoading`. */
    method BeginGoogleLogin() returns (started: bool)
      modifies this
      ensures started <==> old(googleAvailable)
      ensures !started ==> toast == Some(GoogleUnavailable) && isGoogleLoading == old(isGoogleLoading)
      ensures started ==> isGoogleLoading && toast == old(toast)
      ensures isLoading == old(isLoading) && location == old(location) && googleAvailable == old(googleAvailable)
    {
      if !googleAvailable {
        toast := Some(GoogleUnavailable);
        return false;
      }
      isGoogleLoading := true;
      started := true;
    }

    /** The rest of `handleGoogleLogin`, given what the sign-in promise settled
        with: on a user, `login` with exactly that user and go to "/"; on a
        rejection, a toast and nothing else. `isGoogleLoading` ends false. */
    method FinishGoogleLogin(outcome: Option<User>)
      modifies this, auth, auth.store
      ensures !isGoogleLoading
      ensures outcome.Some? ==> auth.user == outcome && StoredUser(auth.store.storage) == outcome
      ensures outcome.Some? ==> auth.store.storage == old(auth.store.storage)[SessionKey := Encode(outcome.value)]
      ensures outcome.Some? ==> location == Some("/") && toast == Some(GoogleLoginSuccessful)
      ensures outcome.None? ==> auth.user == old(auth.user) && auth.store.storage == old(auth.store.storage)
      ensures outcome.None? ==> location == old(location) && toast == Some(GoogleSignInFailed)
      ensures isLoading == old(isLoading) && googleAvailable == old(googleAvailable)
      ensures auth.isLoading == old(auth.isLoading) && auth.listening == old(auth.listening)
    {
      if outcome.Some? {
        auth.Login(outcome.value);
        assert auth.Synced();
        toast := Some(GoogleLoginSuccessful);
        location := Some("/");
      } else {
        toast := Some(GoogleSignInFailed);
      }
      isGoogleLoading := false;
    }
  }
}
