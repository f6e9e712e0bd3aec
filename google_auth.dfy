/**
 * Sign-in with an externally issued identity token (src/lib/googleAuth.ts).
 *
 * The token is a JSON Web Token (RFC 7519) in JWS compact serialisation
 * (section 7.1 of RFC 7515): header, payload and signature, separated by '.'.
 * The decoder takes the payload, turns the base64url alphabet (section 5 of
 * RFC 4648) into the standard one (section 4), base64-decodes it, writes every
 * decoded byte as `%hh`, percent-decodes that as UTF-8 and parses the JSON.
 * The signature is never checked.
 */
module GoogleAuth {
  import opened Wrappers
  import opened Strings
  import opened Session

  type Byte = x: int | 0 <= x < 256

  /** The claim set of the token payload. */
  datatype GoogleUser = GoogleUser(
    sub: string,
    email: string,
    givenName: Option<string>,
    familyName: Option<string>,
    picture: Option<string>,
    emailVerified: Option<bool>)

  /** The browser functions the decoder relies on, as partial functions: `None`
      wherever the real function throws (or, for the claim parse, yields a falsy
      value). A claim set is assumed to carry `sub` and `email` as strings. */
  datatype Primitives = Primitives(
    atob: string -> Option<seq<Byte>>,
    decodeUriComponent: string -> Option<string>,
    parseClaims: string -> Option<GoogleUser>)

  // ---------------------------------------------------------------------------
  // Segment selection

  /** `token.split('.')[1]`: the payload segment, `None` (JavaScript's
      `undefined`) when the token has no '.'. */
  function PayloadSegment(token: string): (r: Option<string>)
    ensures r.None? <==> '.' !in token
    ensures r.Some? ==> '.' !in r.value
  {
    var parts := Split(token, '.');
    if |parts| >= 2 then Some(parts[1]) else None
  }

  /** In a compact serialisation the second segment is the payload, whatever
      the header and the signature hold. */
  lemma PayloadOfCompact(header: string, payload: string, signature: string)
    requires '.' !in header && '.' !in payload
    ensures PayloadSegment(header + "." + payload + "." + signature) == Some(payload)
  {
    assert header + "." + payload + "." + signature == header + ['.'] + (payload + ['.'] + signature);
    SplitAfterPiece(header, '.', payload + ['.'] + signature);
    SplitAfterPiece(payload, '.', signature);
  }

  // ---------------------------------------------------------------------------
  // Alphabet substitution

  /** `s.replace(/from/g, to)` for one character. */
  function ReplaceAll(s: string, from: char, to: char): (r: string)
    ensures |r| == |s|
    ensures forall i :: 0 <= i < |s| ==> r[i] == if s[i] == from then to else s[i]
    decreases |s|
  {
    if s == [] then []
    else [if s[0] == from then to else s[0]] + ReplaceAll(s[1..], from, to)
  }

  /** base64url to standard base64: `-` becomes `+` and `_` becomes `/`. */
  function ToStandardAlphabet(s: string): (r: string)
    ensures |r| == |s|
    ensures forall i :: 0 <= i < |s| ==>
              r[i] == (if s[i] == '-' then '+' else if s[i] == '_' then '/' else s[i])
    ensures '-' !in r && '_' !in r
  {
    ReplaceAll(ReplaceAll(s, '-', '+'), '_', '/')
  }

  // ---------------------------------------------------------------------------
  // Percent expansion

  /** `n.toString(16)`: the hexadecimal numeral without leading zeros. */
  function ToHex(n: nat): (r: string)
    ensures |r| >= 1
    decreases n
  {
    if n < 16 then [HexDigit(n)] else ToHex(n / 16) + [HexDigit(n % 16)]
  }

  /** `'%' + ('00' + b.toString(16)).slice(-2)`. */
  function PercentByte(b: Byte): (r: string)
    ensures r == ['%', HexDigit(b / 16), HexDigit(b % 16)]
  {
    var padded := "00" + ToHex(b);
    ToHexOfByte(b);
    "%" + padded[|padded| - 2..]
  }

  /** A byte's numeral has one digit below 16 and two from 16 on. */
  lemma ToHexOfByte(b: Byte)
    ensures b < 16 ==> ToHex(b) == [HexDigit(b % 16)] && b / 16 == 0
    ensures b >= 16 ==> ToHex(b) == [HexDigit(b / 16), HexDigit(b % 16)]
  {
  }

  /** The `.split('').map(...).join('')` over the decoded bytes. */
  function PercentEncode(bytes: seq<Byte>): (r: string)
    ensures |r| == 3 * |bytes|
    decreases |bytes|
  {
    if bytes == [] then [] else PercentByte(bytes[0]) + PercentEncode(bytes[1..])
  }

  /** Each byte occupies three characters: '%' and its two hexadecimal digits. */
  lemma {:induction false} PercentEncodeAt(bytes: seq<Byte>, i: nat)
    requires i < |bytes|
    ensures PercentEncode(bytes)[3 * i] == '%'
    ensures PercentEncode(bytes)[3 * i + 1] == HexDigit(bytes[i] / 16)
    ensures PercentEncode(bytes)[3 * i + 2] == HexDigit(bytes[i] % 16)
    decreases |bytes|
  {
    if i > 0 {
      PercentEncodeAt(bytes[1..], i - 1);
    }
  }

  /** Reads `%hh` groups back into bytes; the inverse of `PercentEncode`. */
  function PercentDecode(s: string): Option<seq<Byte>>
    decreases |s|
  {
    if s == [] then Some([])
    else if |s| < 3 || s[0] != '%' then None
    else
      var hi :- HexDigitValue(s[1]);
      var lo :- HexDigitValue(s[2]);
      var rest :- PercentDecode(s[3..]);
      Some([hi * 16 + lo] + rest)
  }

  /** One `%hh` group in front decodes to its byte. */
  lemma PercentDecodeGroup(b: Byte, t: string, rest: seq<Byte>)
    requires PercentDecode(t) == Some(rest)
    ensures PercentDecode(PercentByte(b) + t) == Some([b] + rest)
  {
    var s := PercentByte(b) + t;
    assert s[0] == '%' && s[1] == HexDigit(b / 16) && s[2] == HexDigit(b % 16);
    assert s[3..] == t;
    HexDigitValueOf(b / 16);
    HexDigitValueOf(b % 16);
    assert (b / 16) * 16 + b % 16 == b;
  }

  /** No information is lost by the expansion. */
  lemma {:induction false} PercentRoundTrip(bytes: seq<Byte>)
    ensures PercentDecode(PercentEncode(bytes)) == Some(bytes)
    decreases |bytes|
  {
    if bytes != [] {
      PercentRoundTrip(bytes[1..]);
      PercentDecodeGroup(bytes[0], PercentEncode(bytes[1..]), bytes[1..]);
      assert [bytes[0]] + bytes[1..] == bytes;
    }
  }

  // ---------------------------------------------------------------------------
  // Decoding

  /** Decoding of the payload segment on its own: a payload that is not base64,
      bytes that are not UTF-8 and text that is not a claim set each give `None`;
      otherwise the claims are parsed from the text the bytes spell. */
  function DecodePayload(p: Primitives, payload: string): (r: Option<GoogleUser>)
    ensures p.atob(ToStandardAlphabet(payload)).None? ==> r == None
    ensures p.atob(ToStandardAlphabet(payload)).Some? ==>
              var bytes := p.atob(ToStandardAlphabet(payload)).value;
              p.decodeUriComponent(PercentEncode(bytes)).Some? ==>
                r == p.parseClaims(p.decodeUriComponent(PercentEncode(bytes)).value)
    ensures r.Some? ==>
              var bytes := p.atob(ToStandardAlphabet(payload)).value;
              p.decodeUriComponent(PercentEncode(bytes)).Some?
              && p.parseClaims(p.decodeUriComponent(PercentEncode(bytes)).value) == r
  {
    var bytes :- p.atob(ToStandardAlphabet(payload));
    var json :- p.decodeUriComponent(PercentEncode(bytes));
    p.parseClaims(json)
  }

  /** `decodeGoogleJWT(token)`: the claims, or `None` where the code catches an error. */
  function DecodeGoogleJWT(p: Primitives, token: string): (r: Option<GoogleUser>)
    ensures '.' !in token ==> r == None
  {
    var payload :- PayloadSegment(token);
    DecodePayload(p, payload)
  }

  /** Only the payload decides the result: header and signature are not read. */
  lemma DecodeReadsOnlyPayload(p: Primitives, header: string, payload: string, signature: string)
    requires '.' !in header && '.' !in payload
    ensures DecodeGoogleJWT(p, header + "." + payload + "." + signature) == DecodePayload(p, payload)
  {
    PayloadOfCompact(header, payload, signature);
  }

  // ---------------------------------------------------------------------------
  // Sign-in and sign-out

  /** The callback argument: `response.credential` may be missing. */
  datatype CredentialResponse = CredentialResponse(credential: Option<string>)

  /** The local record made from the claims: `sub` becomes the id, the given and
      family names the first and last names, and the login is tagged as Google. */
  function ClaimsToUser(g: GoogleUser): (u: User)
    ensures u.id == g.sub && u.email == g.email
    ensures u.firstName == g.givenName && u.lastName == g.familyName
    ensures u.loginMethod == Some(Google)
  {
    User(g.sub, g.email, g.givenName, g.familyName, Some(Google))
  }

  /** The picture and the verified flag never reach the stored record, and the
      claims it does copy determine it. */
  lemma ClaimsToUserKeepsIdentity(g: GoogleUser, h: GoogleUser)
    ensures ClaimsToUser(g) == ClaimsToUser(h)
        <==> g.sub == h.sub && g.email == h.email && g.givenName == h.givenName && g.familyName == h.familyName
  {
  }

  /** What `handleGoogleSignIn(response)` returns. */
  function SignInResult(p: Primitives, response: CredentialResponse): (r: Option<User>)
    ensures response.credential == None || response.credential == Some("") ==> r == None
    ensures r.Some? <==> response.credential.Some? && response.credential.value != ""
                         && DecodeGoogleJWT(p, response.credential.value).Some?
    ensures r.Some? ==> r.value.loginMethod == Some(Google)
  {
    match response.credential
    case None => None
    case Some(token) =>
      if token == "" then None
      else
        var g :- DecodeGoogleJWT(p, token);
        Some(ClaimsToUser(g))
  }

  /** `handleGoogleSignIn(response)`: on success the user is also saved. */
  method HandleGoogleSignIn(p: Primitives, response: CredentialResponse, store: SessionStore)
    returns (u: Option<User>)
    modifies store
    ensures u == SignInResult(p, response)
    ensures u.None? ==> store.storage == old(store.storage)
    ensures u.Some? ==> store.storage == old(store.storage)[SessionKey := Encode(u.value)]
    ensures u.Some? ==> StoredUser(store.storage) == u
  {
    if response.credential.None? || response.credential == Some("") {
      return None;
    }
    var googleUser := DecodeGoogleJWT(p, response.credential.value);
    if googleUser.None? {
      return None;
    }
    var user := ClaimsToUser(googleUser.value);
    store.SetUser(user);
    u := Some(user);
  }

  /** A decodable token signs in the user its claims describe, tagged as a Google login. */
  lemma SignInMapsClaims(p: Primitives, token: string, g: GoogleUser)
    requires DecodeGoogleJWT(p, token) == Some(g)
    ensures SignInResult(p, CredentialResponse(Some(token)))
         == Some(User(g.sub, g.email, g.givenName, g.familyName, Some(Google)))
  {
    assert '.' in token;
  }

  /** A compact token whose payload the browser functions accept all the way
      to a claim set signs in the user those claims describe, whatever the
      header and signature hold. */
  lemma SignInOfCompactToken(p: Primitives, header: string, payload: string, signature: string,
                             bytes: seq<Byte>, json: string, g: GoogleUser)
    requires '.' !in header && '.' !in payload
    requires p.atob(ToStandardAlphabet(payload)) == Some(bytes)
    requires p.decodeUriComponent(PercentEncode(bytes)) == Some(json)
    requires p.parseClaims(json) == Some(g)
    ensures SignInResult(p, CredentialResponse(Some(header + "." + payload + "." + signature)))
         == Some(ClaimsToUser(g))
  {
    DecodeReadsOnlyPayload(p, header, payload, signature);
  }

  /** A token without a '.' signs nobody in. */
  lemma SignInRejectsUndotted(p: Primitives, token: string)
    requires '.' !in token
    ensures SignInResult(p, CredentialResponse(Some(token))) == None
  {
  }

  /** `signOutFromGoogle()`: the session is cleared in every case. */
  method SignOutFromGoogle(store: SessionStore)
    modifies store
    ensures store.storage == old(store.storage) - {SessionKey}
    ensures StoredUser(store.storage) == None
  {
    store.Logout();
  }
}
