/**
 * The session store of src/lib/auth.ts: one user record, serialised, under one
 * fixed key of the browser's key-value storage.
 *
 * `JSON.stringify` / `JSON.parse` are modelled by `Encode` / `Decode`, a
 * JSON codec for the user record only. `Encode` writes the properties in
 * declaration order and omits absent ones (as `JSON.stringify` omits
 * `undefined` properties); it escapes string contents as the QuoteJSONString
 * operation of ECMA-262 does. `Decode` reads strings by the string grammar of
 * section 7 of RFC 8259 (every escape, no raw control character), and reads
 * the object only in the property layout `Encode` writes.
 */
module Session {
  import opened Wrappers
  import opened Strings

  datatype LoginMethod = Email | Google

  /** The stored user record; the optional properties are `Option`s. */
  datatype User = User(
    id: string,
    email: string,
    firstName: Option<string>,
    lastName: Option<string>,
    loginMethod: Option<LoginMethod>)

  /** The one storage key the session lives under. */
  const SessionKey: string := "careerlaunch_user"

  // ---------------------------------------------------------------------------
  // Serialisation

  /** The characters a JSON string cannot hold as they are: the quote, the
      backslash and the control characters below U+0020. */
  predicate NeedsEscape(c: char) {
    c == '"' || c == '\\' || c < ' '
  }

  /** One character as `JSON.stringify` writes it inside a string: the short
      escapes where JSON has one, `\u00hh` for the other control characters. */
  function EscapeChar(c: char): (r: string)
    ensures !NeedsEscape(c) <==> r == [c]
    ensures NeedsEscape(c) ==> |r| >= 2 && r[0] == '\\'
  {
    if c == '"' then ['\\', '"']
    else if c == '\\' then ['\\', '\\']
    else if c == 8 as char then ['\\', 'b']
    else if c == '\t' then ['\\', 't']
    else if c == '\n' then ['\\', 'n']
    else if c == 12 as char then ['\\', 'f']
    else if c == '\r' then ['\\', 'r']
    else if c < ' ' then ['\\', 'u', '0', '0', HexDigit(c as int / 16), HexDigit(c as int % 16)]
    else [c]
  }

  /** The contents of a string literal as `JSON.stringify` writes them. */
  function Escape(s: string): string
    decreases |s|
  {
    if s == [] then [] else EscapeChar(s[0]) + Escape(s[1..])
  }

  function Quoted(s: string): string {
    "\"" + Escape(s) + "\""
  }

  function OptionalField(key: string, v: Option<string>): string {
    match v
    case None => ""
    case Some(s) => key + Quoted(s)
  }

  const IdKey: string := "{\"id\":"
  const EmailKey: string := ",\"email\":"
  const FirstNameKey: string := ",\"firstName\":"
  const LastNameKey: string := ",\"lastName\":"
  const MethodKey: string := ",\"loginMethod\":"

  function MethodName(m: LoginMethod): string {
    match m
    case Email => "\"email\""
    case Google => "\"google\""
  }

  function MethodField(m: Option<LoginMethod>): string {
    match m
    case None => ""
    case Some(lm) => MethodKey + MethodName(lm)
  }

  /** The optional properties and the closing brace. */
  function OptionalsText(u: User): string {
    OptionalField(FirstNameKey, u.firstName) + (OptionalField(LastNameKey, u.lastName) + (MethodField(u.loginMethod) + "}"))
  }

  /** `JSON.stringify(user)`. */
  function Encode(u: User): (r: string)
    ensures |r| > 0 && r[|r| - 1] == '}'
    ensures IdKey <= r
  {
    IdKey + (Quoted(u.id) + (EmailKey + (Quoted(u.email) + OptionalsText(u))))
  }

  /** Consumes the literal `lit` at the front of `s`. */
  function Expect(lit: string, s: string): (r: Option<string>)
    ensures r.Some? <==> lit <= s
    ensures r.Some? ==> s == lit + r.value
  {
    if lit <= s then Some(s[|lit|..]) else None
  }

  /** The UTF-16 code unit written by the four hexadecimal digits in front of `s`. */
  function ReadCodeUnit(s: string): (r: Option<int>)
    ensures r.Some? ==> 0 <= r.value < 0x1_0000
  {
    if |s| < 4 then None
    else
      var d0 :- HexDigitValue(s[0]);
      var d1 :- HexDigitValue(s[1]);
      var d2 :- HexDigitValue(s[2]);
      var d3 :- HexDigitValue(s[3]);
      Some(((d0 * 16 + d1) * 16 + d2) * 16 + d3)
  }

  predicate IsHighSurrogate(u: int) { 0xD800 <= u <= 0xDBFF }
  predicate IsLowSurrogate(u: int) { 0xDC00 <= u <= 0xDFFF }

  /** A `\uXXXX` escape at the front of `s`: the character and the escape's length.
      A surrogate pair written as two escapes is one character; an unpaired
      surrogate is `None`, as the strings of this model cannot hold it. */
  function ReadUnicodeEscape(s: string): (r: Option<(char, nat)>)
    requires |s| >= 2
    ensures r.Some? ==> 2 <= r.value.1 <= |s|
  {
    var hi :- ReadCodeUnit(s[2..]);
    if !IsHighSurrogate(hi) && !IsLowSurrogate(hi) then Some((hi as char, 6))
    else if IsHighSurrogate(hi) && |s| >= 12 && s[6] == '\\' && s[7] == 'u' then
      var lo :- ReadCodeUnit(s[8..]);
      if IsLowSurrogate(lo) then Some(((0x1_0000 + (hi - 0xD800) * 0x400 + (lo - 0xDC00)) as char, 12))
      else None
    else None
  }

  /** A backslash escape at the front of `s`: the character it stands for and
      the escape's length; `None` for anything JSON does not define. */
  function ReadEscape(s: string): (r: Option<(char, nat)>)
    ensures r.Some? ==> 2 <= r.value.1 <= |s|
  {
    if |s| < 2 || s[0] != '\\' then None
    else if s[1] == '"' || s[1] == '\\' || s[1] == '/' then Some((s[1], 2))
    else if s[1] == 'b' then Some((8 as char, 2))
    else if s[1] == 'f' then Some((12 as char, 2))
    else if s[1] == 'n' then Some(('\n', 2))
    else if s[1] == 'r' then Some(('\r', 2))
    else if s[1] == 't' then Some(('\t', 2))
    else if s[1] == 'u' then ReadUnicodeEscape(s)
    else None
  }

  /** Reads a string's contents up to the closing quote; returns the text and
      what follows the quote. A raw control character or an undefined escape
      fails, as it makes `JSON.parse` throw. */
  function ReadBody(s: string): Option<(string, string)>
    decreases |s|
  {
    if s == [] then None
    else if s[0] == '"' then Some(([], s[1..]))
    else if s[0] == '\\' then
      var (c, n) :- ReadEscape(s);
      var (text, rest) :- ReadBody(s[n..]);
      Some(([c] + text, rest))
    else if s[0] < ' ' then None
    else
      var (text, rest) :- ReadBody(s[1..]);
      Some(([s[0]] + text, rest))
  }

  function ReadQuoted(s: string): Option<(string, string)> {
    var body :- Expect("\"", s);
    ReadBody(body)
  }

  function ReadOptionalField(key: string, s: string): Option<(Option<string>, string)> {
    if key <= s then
      var (v, rest) :- ReadQuoted(s[|key|..]);
      Some((Some(v), rest))
    else Some((None, s))
  }

  function ReadMethodField(s: string): (Option<LoginMethod>, string) {
    if MethodKey + MethodName(Email) <= s then (Some(Email), s[|MethodKey + MethodName(Email)|..])
    else if MethodKey + MethodName(Google) <= s then (Some(Google), s[|MethodKey + MethodName(Google)|..])
    else (None, s)
  }

  /** The optional properties and the closing brace, after the e-mail. */
  function DecodeOptionals(s: string): Option<(Option<string>, Option<string>, Option<LoginMethod>)> {
    var (firstName, s1) :- ReadOptionalField(FirstNameKey, s);
    var (lastName, s2) :- ReadOptionalField(LastNameKey, s1);
    var (loginMethod, s3) := ReadMethodField(s2);
    if s3 == "}" then Some((firstName, lastName, loginMethod)) else None
  }

  /** `JSON.parse(text)` read back as a user record; `None` where the parse throws. */
  function Decode(text: string): (r: Option<User>)
    ensures text == "" ==> r == None
  {
    var s1 :- Expect(IdKey, text);
    var (id, s2) :- ReadQuoted(s1);
    var s3 :- Expect(EmailKey, s2);
    var (email, s4) :- ReadQuoted(s3);
    var (firstName, lastName, loginMethod) :- DecodeOptionals(s4);
    Some(User(id, email, firstName, lastName, loginMethod))
  }

  lemma ExpectLiteral(lit: string, rest: string)
    ensures Expect(lit, lit + rest) == Some(rest)
  {
    assert lit <= lit + rest;
    assert (lit + rest)[|lit|..] == rest;
  }

  /** A literal is not a prefix of a string whose front differs from it at some position. */
  lemma NotPrefixAt(lit: string, front: string, back: string, i: nat)
    requires i < |lit| && i < |front| && lit[i] != front[i]
    ensures !(lit <= front + back)
  {
    assert (front + back)[i] == front[i];
  }

  /** An escape `EscapeChar` writes is read back as the character it stands for. */
  lemma ReadEscapeChar(c: char, t: string)
    requires NeedsEscape(c)
    ensures ReadEscape(EscapeChar(c) + t) == Some((c, |EscapeChar(c)|))
  {
    var e := EscapeChar(c);
    var s := e + t;
    assert s[0] == e[0] && s[1] == e[1];
    if c < ' ' && c != 8 as char && c != '\t' && c != '\n' && c != 12 as char && c != '\r' {
      var n := c as int;
      assert e == ['\\', 'u', '0', '0', HexDigit(n / 16), HexDigit(n % 16)];
      assert s[2..][..4] == ['0', '0', HexDigit(n / 16), HexDigit(n % 16)];
      HexDigitValueOf(n / 16);
      HexDigitValueOf(n % 16);
      assert ReadCodeUnit(s[2..]) == Some(n);
    }
  }

  /** One written character in front of readable contents is read back in front of them. */
  lemma ReadBodyChar(c: char, tail: string, text: string, rest: string)
    requires ReadBody(tail) == Some((text, rest))
    ensures ReadBody(EscapeChar(c) + tail) == Some(([c] + text, rest))
  {
    var e := EscapeChar(c);
    var t := e + tail;
    if NeedsEscape(c) {
      ReadEscapeChar(c, tail);
      assert t[0] == '\\';
      assert t[|e|..] == tail;
    } else {
      assert t[0] == c;
      assert t[1..] == tail;
    }
  }

  lemma {:induction false} ReadBodyEscaped(s: string, rest: string)
    ensures ReadBody(Escape(s) + "\"" + rest) == Some((s, rest))
    decreases |s|
  {
    var t := Escape(s) + "\"" + rest;
    if s == [] {
      assert t == "\"" + rest;
      assert t[1..] == rest;
    } else {
      var tail := Escape(s[1..]) + "\"" + rest;
      ReadBodyEscaped(s[1..], rest);
      assert t == EscapeChar(s[0]) + tail;
      ReadBodyChar(s[0], tail, s[1..], rest);
      assert [s[0]] + s[1..] == s;
    }
  }

  lemma ReadQuotedQuoted(s: string, rest: string)
    ensures ReadQuoted(Quoted(s) + rest) == Some((s, rest))
  {
    assert Quoted(s) + rest == "\"" + (Escape(s) + "\"" + rest);
    ExpectLiteral("\"", Escape(s) + "\"" + rest);
    ReadBodyEscaped(s, rest);
  }

  lemma ReadOptionalFieldWritten(key: string, v: Option<string>, rest: string)
    requires |key| > 0
    requires v.None? ==> !(key <= rest)
    ensures ReadOptionalField(key, OptionalField(key, v) + rest) == Some((v, rest))
  {
    if v.Some? {
      var t := key + Quoted(v.value) + rest;
      assert OptionalField(key, v) + rest == t;
      assert key <= t;
      assert t[|key|..] == Quoted(v.value) + rest;
      ReadQuotedQuoted(v.value, rest);
    } else {
      assert OptionalField(key, v) + rest == rest;
    }
  }

  lemma ReadMethodFieldWritten(m: Option<LoginMethod>, rest: string)
    requires rest == "}"
    ensures ReadMethodField(MethodField(m) + rest) == (m, rest)
  {
    var t := MethodField(m) + rest;
    var e := MethodKey + MethodName(Email);
    var g := MethodKey + MethodName(Google);
    match m {
      case None =>
        assert t == "}";
        assert e[0] == ',' && g[0] == ',';
        assert t == "}" + [];
        NotPrefixAt(e, "}", [], 0);
        NotPrefixAt(g, "}", [], 0);
      case Some(Email) =>
        assert t == e + rest;
        assert t[|e|..] == rest;
      case Some(Google) =>
        assert t == g + rest;
        NotPrefixAt(e, g, rest, |MethodKey| + 1);
        assert t[|g|..] == rest;
    }
  }

  /** What follows an absent last name cannot be read as a last name. */
  lemma AfterLastName(m: Option<LoginMethod>)
    ensures !(LastNameKey <= MethodField(m) + "}")
  {
    if m.Some? {
      assert MethodField(m) + "}" == MethodKey + (MethodName(m.value) + "}");
      NotPrefixAt(LastNameKey, MethodKey, MethodName(m.value) + "}", 3);
    } else {
      assert MethodField(m) + "}" == "}" + [];
      NotPrefixAt(LastNameKey, "}", [], 0);
    }
  }

  /** What follows an absent first name cannot be read as a first name. */
  lemma AfterFirstName(ln: Option<string>, m: Option<LoginMethod>)
    ensures !(FirstNameKey <= OptionalField(LastNameKey, ln) + MethodField(m) + "}")
  {
    var front := OptionalField(LastNameKey, ln) + MethodField(m);
    var t := front + "}";
    if ln.Some? {
      assert OptionalField(LastNameKey, ln) == LastNameKey + Quoted(ln.value);
      assert front[2] == LastNameKey[2];
      NotPrefixAt(FirstNameKey, front, "}", 2);
    } else if m.Some? {
      assert front == MethodKey + MethodName(m.value);
      NotPrefixAt(FirstNameKey, front, "}", 2);
    } else {
      assert t == "}" + [];
      NotPrefixAt(FirstNameKey, "}", [], 0);
    }
  }

  lemma DecodeOptionalsWritten(u: User)
    ensures DecodeOptionals(OptionalsText(u)) == Some((u.firstName, u.lastName, u.loginMethod))
  {
    var tail := MethodField(u.loginMethod) + "}";
    var last := OptionalField(LastNameKey, u.lastName) + tail;
    AfterLastName(u.loginMethod);
    ReadOptionalFieldWritten(LastNameKey, u.lastName, tail);
    AfterFirstName(u.lastName, u.loginMethod);
    assert last == OptionalField(LastNameKey, u.lastName) + MethodField(u.loginMethod) + "}";
    ReadOptionalFieldWritten(FirstNameKey, u.firstName, last);
    ReadMethodFieldWritten(u.loginMethod, "}");
  }

  /** An escape JSON does not define makes the record unreadable, as it makes
      `JSON.parse` throw. */
  lemma UndefinedEscapeRejected()
    ensures Decode("{\"id\":\"\\a\",\"email\":\"\"}") == None
  {
    var body := "\\a\",\"email\":\"\"}";
    assert ReadEscape(body) == None;
    assert ReadBody(body) == None;
    ExpectLiteral("\"", body);
    ExpectLiteral(IdKey, "\"" + body);
    assert "{\"id\":\"\\a\",\"email\":\"\"}" == IdKey + ("\"" + body);
  }

  /** A raw line break inside a string makes the record unreadable. */
  lemma RawLineBreakRejected()
    ensures Decode("{\"id\":\"x\ny\",\"email\":\"e\"}") == None
  {
    var body := "x\ny\",\"email\":\"e\"}";
    assert ReadBody(body[1..]) == None;
    assert ReadBody(body) == None;
    ExpectLiteral("\"", body);
    ExpectLiteral(IdKey, "\"" + body);
    assert "{\"id\":\"x\ny\",\"email\":\"e\"}" == IdKey + ("\"" + body);
  }

  /** Plain characters in front are read through: the string is unreadable
      whenever, after them, an undefined escape letter follows a backslash. */
  lemma {:induction false} UndefinedEscapeFails(plain: string, c: char, t: string)
    requires forall i :: 0 <= i < |plain| ==> !NeedsEscape(plain[i])
    requires c !in "\"\\/bfnrtu"
    ensures ReadBody(plain + ['\\', c] + t) == None
    decreases |plain|
  {
    if plain != [] {
      UndefinedEscapeFails(plain[1..], c, t);
      assert (plain + ['\\', c] + t)[1..] == plain[1..] + ['\\', c] + t;
    }
  }

  /** Likewise for a raw control character below U+0020 after plain characters. */
  lemma {:induction false} RawControlFails(plain: string, c: char, t: string)
    requires forall i :: 0 <= i < |plain| ==> !NeedsEscape(plain[i])
    requires c < ' '
    ensures ReadBody(plain + [c] + t) == None
    decreases |plain|
  {
    if plain != [] {
      RawControlFails(plain[1..], c, t);
      assert (plain + [c] + t)[1..] == plain[1..] + [c] + t;
    }
  }

  /** `\n` inside a string stands for a line break. */
  lemma EscapedLineBreakRead()
    ensures Decode("{\"id\":\"x\\ny\",\"email\":\"e\"}") == Some(User("x\ny", "e", None, None, None))
  {
    var rest := "}";
    var afterEmail := EmailKey + (Quoted("e") + rest);
    assert Escape("x\ny") == "x\\ny";
    assert Escape("e") == "e";
    assert "{\"id\":\"x\\ny\",\"email\":\"e\"}" == IdKey + (Quoted("x\ny") + afterEmail);
    ExpectLiteral(IdKey, Quoted("x\ny") + afterEmail);
    ReadQuotedQuoted("x\ny", afterEmail);
    ExpectLiteral(EmailKey, Quoted("e") + rest);
    ReadQuotedQuoted("e", rest);
    DecodeOptionalsWritten(User("x\ny", "e", None, None, None));
    assert OptionalsText(User("x\ny", "e", None, None, None)) == rest;
  }

  /** Decoding what `Encode` wrote gives back the same record. */
  lemma {:induction false} DecodeEncode(u: User)
    ensures Decode(Encode(u)) == Some(u)
  {
    var rest := OptionalsText(u);
    var afterEmail := EmailKey + (Quoted(u.email) + rest);
    ExpectLiteral(IdKey, Quoted(u.id) + afterEmail);
    ReadQuotedQuoted(u.id, afterEmail);
    ExpectLiteral(EmailKey, Quoted(u.email) + rest);
    ReadQuotedQuoted(u.email, rest);
    DecodeOptionalsWritten(u);
  }

  // ---------------------------------------------------------------------------
  // The store

  /** `getCurrentUser()` as a function of the storage: the record under the key,
      or `None` when the key is absent, holds the empty string, or does not parse. */
  function StoredUser(storage: map<string, string>): (r: Option<User>)
    ensures SessionKey !in storage ==> r == None
    ensures r.Some? ==> SessionKey in storage && Decode(storage[SessionKey]) == r
    ensures SessionKey in storage && Decode(storage[SessionKey]).None? ==> r == None
  {
    if SessionKey in storage && storage[SessionKey] != "" then Decode(storage[SessionKey]) else None
  }

  /** The browser's key-value storage, holding the session among other entries. */
  class SessionStore {
    var storage: map<string, string>

    constructor (initial: map<string, string>)
      ensures storage == initial
    {
      storage := initial;
    }

    /** `authService.getCurrentUser()`: reads, never fails. */
    method GetCurrentUser() returns (u: Option<User>)
      ensures u == StoredUser(storage)
    {
      if SessionKey in storage {
        var text := storage[SessionKey];
        if text != "" {
          u := Decode(text);
        } else {
          u := None;
        }
      } else {
        u := None;
      }
    }

    /** `authService.setUser(user)`: overwrites the session key only. */
    method SetUser(user: User)
      modifies this
      ensures storage == old(storage)[SessionKey := Encode(user)]
      ensures forall k :: k != SessionKey ==> (k in storage <==> k in old(storage))
      ensures forall k :: k in old(storage) && k != SessionKey ==> storage[k] == old(storage)[k]
      ensures StoredUser(storage) == Some(user)
    {
      storage := storage[SessionKey := Encode(user)];
      DecodeEncode(user);
    }

    /** `authService.logout()`: removes the session key only. */
    method Logout()
      modifies this
      ensures storage == old(storage) - {SessionKey}
      ensures forall k :: k != SessionKey ==> (k in storage <==> k in old(storage))
      ensures forall k :: k in storage ==> storage[k] == old(storage)[k]
      ensures StoredUser(storage) == None
    {
      storage := storage - {SessionKey};
    }

    /** `authService.isAuthenticated()`: whether a user can be read back. */
    method IsAuthenticated() returns (b: bool)
      ensures b <==> StoredUser(storage).Some?
    {
      var u := GetCurrentUser();
      b := u.Some?;
    }
  }

  /** Writing a user and reading it back gives that user. */
  lemma SetThenGet(storage: map<string, string>, u: User)
    ensures StoredUser(storage[SessionKey := Encode(u)]) == Some(u)
  {
    DecodeEncode(u);
  }

  /** Of two writes, the second decides what is read back. */
  lemma LastWriterWins(storage: map<string, string>, u1: User, u2: User)
    ensures StoredUser(storage[SessionKey := Encode(u1)][SessionKey := Encode(u2)]) == Some(u2)
  {
    assert storage[SessionKey := Encode(u1)][SessionKey := Encode(u2)] == storage[SessionKey := Encode(u2)];
    SetThenGet(storage, u2);
  }

  /** After a logout nobody is read back, whatever was stored before. */
  lemma LogoutThenGet(storage: map<string, string>)
    ensures StoredUser(storage - {SessionKey}) == None
  {
  }
}
