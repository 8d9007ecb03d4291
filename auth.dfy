/**
 * The front end's session helpers: the access token and the user record
 * kept in the browser's `localStorage`, reading the claims of a JSON Web
 * Token without checking its signature, and the client-side "is the user
 * still logged in" test.
 *
 * The browser's decoders (`atob` with `decodeURIComponent`) and
 * `JSON.parse` / `JSON.stringify` are library calls; they are parameters
 * here, as is the clock.
 */
module Auth {
  import opened Common
  import opened Json
  import opened Text

  const TokenKey := "access_token"
  const UserKey := "user"

  /** The library calls: each decoder gives `None` where JavaScript throws. */
  datatype Codecs = Codecs(base64Decode: string -> Option<string>, parse: string -> Option<Value>,
                           stringify: Value -> string)

  // ---------------------------------------------------------------------
  // Reading a token

  /** Where `c` first occurs in `s`. */
  function IndexOfChar(s: string, c: char): (r: Option<nat>)
    ensures r.None? <==> forall j :: 0 <= j < |s| ==> s[j] != c
    ensures r.Some? ==> r.value < |s| && s[r.value] == c && forall j :: 0 <= j < r.value ==> s[j] != c
  {
    if s == [] then None
    else if s[0] == c then Some(0)
    else
      match IndexOfChar(s[1..], c)
      case None => None
      case Some(k) => Some(k + 1)
  }

  /** `token.split('.')[1]`: the text between the first and the second dot; `None` (undefined) without a dot. */
  function SecondSegment(token: string): Option<string> {
    match IndexOfChar(token, '.')
    case None => None
    case Some(i) =>
      var rest := token[i + 1..];
      match IndexOfChar(rest, '.')
      case None => Some(rest)
      case Some(j) => Some(rest[..j])
  }

  lemma SecondSegmentFacts(header: string, payload: string, signature: string)
    requires '.' !in header && '.' !in payload
    ensures SecondSegment(header + "." + payload + "." + signature) == Some(payload)
    ensures SecondSegment(header + "." + payload) == Some(payload)
    ensures SecondSegment(header) == None
  {
    var t := header + "." + payload + "." + signature;
    assert forall j :: 0 <= j < |header| ==> t[j] == header[j];
    IndexOfAt(t, '.', |header|);
    var rest := payload + "." + signature;
    assert t[|header| + 1..] == rest;
    assert forall j :: 0 <= j < |payload| ==> rest[j] == payload[j];
    IndexOfAt(rest, '.', |payload|);
    assert rest[..|payload|] == payload;
    var u := header + "." + payload;
    assert forall j :: 0 <= j < |header| ==> u[j] == header[j];
    IndexOfAt(u, '.', |header|);
    assert u[|header| + 1..] == payload;
    assert forall j :: 0 <= j < |header| ==> header[j] != '.';
  }

  lemma IndexOfAt(s: string, c: char, i: nat)
    requires i < |s| && s[i] == c && forall j :: 0 <= j < i ==> s[j] != c
    ensures IndexOfChar(s, c) == Some(i)
  {
  }

  /** One character of the base64url to base64 rewrite. */
  function UrlChar(c: char): char {
    if c == '-' then '+' else if c == '_' then '/' else c
  }

  /** `.replace(/-/g, '+').replace(/_/g, '/')`. */
  function Normalised(s: string): (r: string)
    ensures |r| == |s| && forall i :: 0 <= i < |s| ==> r[i] == UrlChar(s[i])
  {
    if s == [] then [] else [UrlChar(s[0])] + Normalised(s[1..])
  }

  function Repeat(c: char, n: nat): (r: string)
    ensures |r| == n && forall i :: 0 <= i < n ==> r[i] == c
  {
    if n == 0 then [] else Repeat(c, n - 1) + [c]
  }

  /** Pads with '=' to a multiple of four characters. */
  function Padded(s: string): string {
    var pad := |s| % 4;
    if pad != 0 then s + Repeat('=', 4 - pad) else s
  }

  /** The rewrite leaves no URL-alphabet character and changes nothing else. */
  lemma NormalisedFacts(s: string)
    ensures var r := Normalised(s);
            |r| == |s| && '-' !in r && '_' !in r &&
            (forall i :: 0 <= i < |s| ==> (r[i] == '+' <==> s[i] == '-' || s[i] == '+')) &&
            (forall i :: 0 <= i < |s| ==> (r[i] == '/' <==> s[i] == '_' || s[i] == '/')) &&
            (forall i :: 0 <= i < |s| && s[i] != '-' && s[i] != '_' ==> r[i] == s[i])
  {
    var r := Normalised(s);
    forall i | 0 <= i < |r| ensures r[i] != '-' && r[i] != '_' {
    }
  }

  /** Padding keeps the text, adds fewer than four '=', and only when needed to reach a multiple of four. */
  lemma PaddedFacts(s: string)
    ensures var p := Padded(s);
            |p| % 4 == 0 && p[..|s|] == s && |p| - |s| < 4 &&
            (forall i :: |s| <= i < |p| ==> p[i] == '=') &&
            (|s| % 4 == 0 <==> p == s)
  {
  }

  /**
   * `parseJwt`: `None` (null) for a missing or empty token, for a token
   * without a second segment or with an empty one, and wherever decoding or
   * parsing throws.
   */
  function ParseJwt(token: Option<string>, codecs: Codecs): Option<Value> {
    if token.None? || token.value == "" then None
    else
      match SecondSegment(token.value)
      case None => None
      case Some(segment) =>
        if segment == "" then None
        else
          match codecs.base64Decode(Padded(Normalised(segment)))
          case None => None
          case Some(json) => codecs.parse(json)
  }

  lemma ParseJwtFacts(token: Option<string>, codecs: Codecs)
    ensures ParseJwt(token, codecs).Some? <==>
              token.Some? && token.value != "" &&
              var segment := SecondSegment(token.value);
              segment.Some? && segment.value != "" &&
              var decoded := codecs.base64Decode(Padded(Normalised(segment.value)));
              decoded.Some? && codecs.parse(decoded.value).Some?
  {
  }

  // ---------------------------------------------------------------------
  // JavaScript values

  /** JavaScript truthiness: `""`, `0`, `false` and `null` are false; every array and object is true. */
  predicate JsTruthy(v: Value) {
    match v
    case Str(s) => s != ""
    case Int(n) => n != 0
    case Bool(b) => b
    case Null => false
    case List(_) => true
    case Obj(_) => true
  }

  /** `payload.exp`: only an object has the property; `None` is `undefined`. */
  function Property(v: Value, key: string): Option<Value> {
    if v.Obj? && key in v.fields then Some(v.fields[key]) else None
  }

  predicate PlainDigits(s: string) {
    s != [] && forall i :: 0 <= i < |s| ==> IsDigit(s[i])
  }

  /**
   * `Number(v)` as a relational comparison reads it; `None` is `NaN`. Of the
   * non-empty strings only plain decimal digits are read as numbers.
   */
  function JsNumber(v: Value): Option<int> {
    match v
    case Int(n) => Some(n)
    case Bool(b) => Some(BoolInt(b))
    case Null => Some(0)
    case Str(s) => if s == "" then Some(0) else if PlainDigits(s) then Some(DigitsValue(s)) else None
    case List(xs) =>
      // an array compares as its joined text: empty is 0, one element reads as that element
      if xs == [] then Some(0)
      else if |xs| == 1 && !xs[0].Bool? then JsNumber(xs[0])
      else None
    case Obj(_) => None
  }

  /** `exp < currentTime`: a comparison with `NaN` is false. */
  predicate JsLess(exp: Value, now: int) {
    JsNumber(exp).Some? && JsNumber(exp).value < now
  }

  // ---------------------------------------------------------------------
  // Storage

  type Storage = map<string, string>

  function Item(storage: Storage, key: string): Option<string> {
    if key in storage then Some(storage[key]) else None
  }

  /** `getUser`: `None` (null) when nothing is stored, the stored text is empty, or it fails to parse. */
  function UserOf(storage: Storage, codecs: Codecs): Option<Value> {
    match Item(storage, UserKey)
    case None => None
    case Some(text) => if text == "" then None else codecs.parse(text)
  }

  /** `Math.floor(Date.now() / 1000)`. */
  function Seconds(nowMs: int): int {
    nowMs / 1000
  }

  /** `isAuthenticated`. */
  predicate Authenticated(storage: Storage, codecs: Codecs, nowMs: int) {
    var token := Item(storage, TokenKey);
    var user := UserOf(storage, codecs);
    if token.None? || token.value == "" || user.None? || !JsTruthy(user.value) then false
    else
      var payload := ParseJwt(token, codecs);
      if payload.None? || !JsTruthy(payload.value) then false
      else
        var exp := Property(payload.value, "exp");
        if exp.None? || !JsTruthy(exp.value) then false
        else !JsLess(exp.value, Seconds(nowMs))
  }

  /**
   * With a stored token and user: a token whose claims carry a non-zero
   * integer `exp` is accepted exactly while `exp` is not before the current
   * second, so the expiry second itself still counts; a token without
   * readable claims or without `exp` is refused.
   */
  lemma AuthenticatedFacts(storage: Storage, codecs: Codecs, nowMs: int)
    ensures Item(storage, TokenKey).None? || Item(storage, TokenKey) == Some("") ==> !Authenticated(storage, codecs, nowMs)
    ensures UserOf(storage, codecs).None? ==> !Authenticated(storage, codecs, nowMs)
    ensures ParseJwt(Item(storage, TokenKey), codecs).None? ==> !Authenticated(storage, codecs, nowMs)
    ensures var p := ParseJwt(Item(storage, TokenKey), codecs);
            p.Some? && (Property(p.value, "exp").None? || Property(p.value, "exp") == Some(Int(0))) ==>
              !Authenticated(storage, codecs, nowMs)
    ensures var p := ParseJwt(Item(storage, TokenKey), codecs);
            var user := UserOf(storage, codecs);
            Item(storage, TokenKey).Some? && Item(storage, TokenKey) != Some("") &&
            user.Some? && JsTruthy(user.value) &&
            p.Some? && p.value.Obj? && "exp" in p.value.fields && p.value.fields["exp"].Int? &&
            p.value.fields["exp"].n != 0 ==>
              (Authenticated(storage, codecs, nowMs) <==> p.value.fields["exp"].n >= Seconds(nowMs))
  {
  }

  /** A non-numeric `exp` string never compares as earlier, so such a token never expires on the client. */
  lemma NonNumericExpNeverExpires(exp: string, nowMs: int)
    requires exp != "" && !PlainDigits(exp)
    ensures !JsLess(Str(exp), Seconds(nowMs))
  {
  }

  /** After `setUser(u)` the stored user reads back as `u`, given that `JSON.parse` inverts `JSON.stringify`. */
  lemma UserRoundTrip(storage: Storage, codecs: Codecs, user: Value)
    requires codecs.parse(codecs.stringify(user)) == Some(user) && codecs.stringify(user) != ""
    ensures UserOf(storage[UserKey := codecs.stringify(user)], codecs) == Some(user)
  {
  }

  /** Logging out removes both entries, after which the user is not authenticated. */
  lemma LoggedOut(storage: Storage, codecs: Codecs, nowMs: int)
    ensures var after := storage - {TokenKey, UserKey};
            Item(after, TokenKey).None? && Item(after, UserKey).None? &&
            !Authenticated(after, codecs, nowMs) &&
            forall k :: k in storage && k != TokenKey && k != UserKey ==> Item(after, k) == Item(storage, k)
  {
  }

  /** The browser's `localStorage`, as the helpers use it. */
  class Browser {
    var storage: Storage

    constructor ()
      ensures storage == map[]
    {
      storage := map[];
    }

    method SetToken(token: string)
      modifies this
      ensures storage == old(storage)[TokenKey := token]
    {
      storage := storage[TokenKey := token];
    }

    method GetToken() returns (r: Option<string>)
      ensures r == Item(storage, TokenKey)
      ensures r.Some? <==> TokenKey in storage
    {
      r := if TokenKey in storage then Some(storage[TokenKey]) else None;
    }

    method RemoveToken()
      modifies this
      ensures storage == old(storage) - {TokenKey}
    {
      storage := storage - {TokenKey};
    }

    method SetUser(user: Value, codecs: Codecs)
      modifies this
      ensures storage == old(storage)[UserKey := codecs.stringify(user)]
    {
      storage := storage[UserKey := codecs.stringify(user)];
    }

    method GetUser(codecs: Codecs) returns (r: Option<Value>)
      ensures r == UserOf(storage, codecs)
      ensures UserKey !in storage ==> r.None?
    {
      var text := Item(storage, UserKey);
      if text.Some? && text.value != "" {
        r := codecs.parse(text.value);
      } else {
        r := None;
      }
    }

    method RemoveUser()
      modifies this
      ensures storage == old(storage) - {UserKey}
    {
      storage := storage - {UserKey};
    }

    /** `logout`: both entries go; the redirect to the login page is not modelled. */
    method Logout()
      modifies this
      ensures storage == old(storage) - {TokenKey, UserKey}
    {
      RemoveToken();
      RemoveUser();
    }

    method IsAuthenticated(codecs: Codecs, nowMs: int) returns (r: bool)
      ensures r == Authenticated(storage, codecs, nowMs)
    {
      var token := GetToken();
      var user := GetUser(codecs);
      if token.None? || token.value == "" || user.None? || !JsTruthy(user.value) {
        return false;
      }
      var payload := ParseJwt(token, codecs);
      if payload.None? || !JsTruthy(payload.value) {
        return false;
      }
      var exp := Property(payload.value, "exp");
      if exp.None? || !JsTruthy(exp.value) {
        return false;
      }
      var currentTime := Seconds(nowMs);
      if JsLess(exp.value, currentTime) {
        return false;
      }
      return true;
    }
  }
}
