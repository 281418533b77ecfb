/**
 * The token/cookie layer of lib/auth-helpers.ts. The browser's cookie jar for
 * the page is a map from cookie name to its stored (URI-encoded) value and
 * lifetime, plus the order in which `document.cookie` lists the cookies. Reading
 * `document.cookie` gives the cookie-string of section 5.4 of RFC 6265,
 * `name=value; name=value`, which `getCookie` parses back.
 */
module AuthHelpers {
  import opened Common
  import opened UriCodec

  const AccessTokenCookie := "loopsphere-admin-access-token"
  const RefreshTokenCookie := "loopsphere-admin-refresh-token"

  /** `setAuth` always passes this lifetime to `setCookie`. */
  const AuthCookieDays := 7

  /** A stored cookie: its raw (encoded) value and the lifetime it was set with. */
  datatype Cookie = Cookie(raw: string, days: int)

  /** A cookie name the browser can list and `getCookie` can find again. */
  predicate ValidName(n: string) {
    n != "" && n[0] != ' ' && '=' !in n && ';' !in n
  }

  predicate Distinct(s: seq<string>) {
    forall i, j :: 0 <= i < j < |s| ==> s[i] != s[j]
  }

  datatype Jar = Jar(names: seq<string>, cookies: map<string, Cookie>) {
    /** Every listed name is stored once, and nothing stored can break the cookie-string apart. */
    ghost predicate Valid() {
      && Distinct(names)
      && (forall n :: n in cookies <==> n in names)
      && (forall i :: 0 <= i < |names| ==> ValidName(names[i]))
      && (forall n :: n in cookies ==> ';' !in cookies[n].raw)
    }
  }

  const EmptyJar := Jar([], map[])

  // ---------------------------------------------------------------------------
  // Writing: setCookie / deleteCookie as the browser applies them

  /** Storing a cookie keeps its place when the name exists, otherwise it is listed last. */
  function Put(j: Jar, name: string, c: Cookie): Jar {
    Jar(if name in j.names then j.names else j.names + [name], j.cookies[name := c])
  }

  function OtherThan(name: string): string -> bool {
    (n: string) => n != name
  }

  /** A cookie set to expire in the past is dropped from the jar. */
  function Delete(j: Jar, name: string): Jar {
    Jar(Filter(OtherThan(name), j.names), j.cookies - {name})
  }

  lemma PutValid(j: Jar, name: string, c: Cookie)
    requires j.Valid() && ValidName(name) && ';' !in c.raw
    ensures Put(j, name, c).Valid()
  {
    var r := Put(j, name, c);
    if name !in j.names {
      forall a, b | 0 <= a < b < |r.names| ensures r.names[a] != r.names[b] {
        if b == |j.names| {
          assert r.names[a] == j.names[a];
        }
      }
    }
  }

  lemma {:induction false} FilterDistinct(name: string, s: seq<string>)
    requires Distinct(s)
    ensures Distinct(Filter(OtherThan(name), s))
  {
    if s != [] {
      FilterDistinct(name, s[1..]);
      var rest := Filter(OtherThan(name), s[1..]);
      if OtherThan(name)(s[0]) {
        assert s[0] !in s[1..];
        assert s[0] !in rest;
        var r := [s[0]] + rest;
        forall a, b | 0 <= a < b < |r| ensures r[a] != r[b] {
          if a == 0 {
            assert r[b] == rest[b - 1];
          } else {
            assert r[a] == rest[a - 1] && r[b] == rest[b - 1];
          }
        }
      }
    }
  }

  lemma DeleteValid(j: Jar, name: string)
    requires j.Valid()
    ensures Delete(j, name).Valid()
  {
    var r := Delete(j, name);
    FilterDistinct(name, j.names);
    forall n ensures n in r.cookies <==> n in r.names {
      if n in r.names {
        var k :| 0 <= k < |r.names| && r.names[k] == n;
      }
      if n in r.cookies {
        var k :| 0 <= k < |j.names| && j.names[k] == n;
        assert OtherThan(name)(j.names[k]);
      }
    }
    forall i | 0 <= i < |r.names| ensures ValidName(r.names[i]) {
      var k :| 0 <= k < |j.names| && j.names[k] == r.names[i];
    }
  }

  lemma DeleteAbsent(j: Jar, name: string)
    requires j.Valid() && name !in j.cookies
    ensures Delete(j, name) == j
  {
    FilterKeepsAll(OtherThan(name), j.names);
  }

  // ---------------------------------------------------------------------------
  // Reading: the cookie-string and getCookie

  function Entry(name: string, c: Cookie): string {
    name + "=" + c.raw
  }

  /** The `name=value` pairs of the listed cookies, in list order. */
  function Entries(names: seq<string>, cookies: map<string, Cookie>): seq<string> {
    if names == [] then []
    else if names[0] in cookies then [Entry(names[0], cookies[names[0]])] + Entries(names[1..], cookies)
    else Entries(names[1..], cookies)
  }

  /** Pairs joined by "; ". */
  function JoinPairs(es: seq<string>): string {
    if es == [] then ""
    else if |es| == 1 then es[0]
    else es[0] + "; " + JoinPairs(es[1..])
  }

  /** What reading `document.cookie` returns. */
  function CookieString(j: Jar): string {
    JoinPairs(Entries(j.names, j.cookies))
  }

  /** `while (c.charAt(0) === ' ') c = c.substring(1)`. */
  function StripSpaces(c: string): string {
    if c != [] && c[0] == ' ' then StripSpaces(c[1..]) else c
  }

  /** The raw value of the first piece that, without its leading spaces, starts with `nameEq`. */
  function FindRaw(pieces: seq<string>, nameEq: string): Option<string> {
    if pieces == [] then None
    else
      var c := StripSpaces(pieces[0]);
      if IsPrefix(nameEq, c) then Some(c[|nameEq|..]) else FindRaw(pieces[1..], nameEq)
  }

  /** Result of `getCookie`: `null`, a decoded value, or a thrown URIError. */
  datatype Lookup = Absent | Found(value: string) | Malformed

  function DecodeRaw(raw: string): Lookup {
    match Decode(raw)
    case Some(v) => Found(v)
    case None => Malformed
  }

  /** `getCookie(name)` over a given cookie-string. */
  function ReadCookie(header: string, name: string): Lookup {
    match FindRaw(Split(header, ';'), name + "=")
    case None => Absent
    case Some(raw) => DecodeRaw(raw)
  }

  /** What the jar itself holds under `name`, decoded. */
  function JarLookup(j: Jar, name: string): Lookup {
    if name in j.cookies then DecodeRaw(j.cookies[name].raw) else Absent
  }

  function Spaced(es: seq<string>): (r: seq<string>)
    ensures |r| == |es|
  {
    if es == [] then [] else [" " + es[0]] + Spaced(es[1..])
  }

  lemma {:induction false} SplitJoinPairs(p: string, es: seq<string>)
    requires |es| >= 1 && ';' !in p
    requires forall i :: 0 <= i < |es| ==> ';' !in es[i]
    ensures Split(p + JoinPairs(es), ';') == [p + es[0]] + Spaced(es[1..])
    decreases |es|
  {
    if |es| == 1 {
      SplitNoSeparator(p + es[0], ';');
    } else {
      var rest := JoinPairs(es[1..]);
      assert p + JoinPairs(es) == (p + es[0]) + [';'] + (" " + rest);
      SplitAtSeparator(p + es[0], ';', " " + rest);
      SplitNoSeparator(p + es[0], ';');
      SplitJoinPairs(" ", es[1..]);
    }
  }

  lemma {:induction false} FindRawSpaced(es: seq<string>, q: string)
    ensures FindRaw(Spaced(es), q) == FindRaw(es, q)
  {
    if es != [] {
      FindRawSpaced(es[1..], q);
      assert StripSpaces(" " + es[0]) == StripSpaces(es[0]) by {
        assert (" " + es[0])[1..] == es[0];
      }
    }
  }

  /** A valid name followed by '=' determines the name: the first '=' ends it. */
  lemma NameBeforeEquals(n: string, m: string, raw: string)
    requires ValidName(n) && ValidName(m)
    requires IsPrefix(m + "=", n + "=" + raw)
    ensures m == n
  {
    var e := n + "=" + raw;
    assert e[..|m| + 1] == m + "=";
    assert forall i :: 0 <= i < |n| ==> e[i] == n[i];
    assert forall i :: 0 <= i < |m| ==> e[i] == m[i];
    assert e[|m|] == '=' && e[|n|] == '=';
    assert |m| == |n|;
    assert m == e[..|m|] && n == e[..|n|];
  }

  lemma EntryPrefix(n: string, m: string, raw: string)
    requires ValidName(n) && ValidName(m)
    ensures IsPrefix(m + "=", Entry(n, Cookie(raw, 0))) <==> m == n
  {
    var e := n + "=" + raw;
    if IsPrefix(m + "=", e) {
      NameBeforeEquals(n, m, raw);
    }
    if m == n {
      assert e[..|m + "="|] == m + "=";
    }
  }

  lemma {:induction false} FindRawEntries(names: seq<string>, cookies: map<string, Cookie>, name: string)
    requires ValidName(name) && Distinct(names)
    requires forall i :: 0 <= i < |names| ==> ValidName(names[i]) && names[i] in cookies
    ensures FindRaw(Entries(names, cookies), name + "=")
         == if name in names then Some(cookies[name].raw) else None
  {
    if names != [] {
      var n := names[0];
      var e := Entry(n, cookies[n]);
      assert Entries(names, cookies) == [e] + Entries(names[1..], cookies);
      assert StripSpaces(e) == e;
      EntryPrefix(n, name, cookies[n].raw);
      assert Entry(n, Cookie(cookies[n].raw, 0)) == e;
      if n == name {
        assert e[|name + "="|..] == cookies[n].raw;
      } else {
        assert Distinct(names[1..]) by {
          forall a, b | 0 <= a < b < |names[1..]| ensures names[1..][a] != names[1..][b] {
            assert names[1..][a] == names[a + 1] && names[1..][b] == names[b + 1];
          }
        }
        FindRawEntries(names[1..], cookies, name);
        assert name in names <==> name in names[1..] by {
          assert names == [n] + names[1..];
        }
      }
    }
  }

  lemma {:induction false} EntriesNoSemicolon(names: seq<string>, cookies: map<string, Cookie>)
    requires forall i :: 0 <= i < |names| ==> ';' !in names[i]
    requires forall n :: n in cookies ==> ';' !in cookies[n].raw
    ensures forall i :: 0 <= i < |Entries(names, cookies)| ==> ';' !in Entries(names, cookies)[i]
  {
    if names != [] {
      EntriesNoSemicolon(names[1..], cookies);
    }
  }

  lemma {:induction false} EntriesLength(names: seq<string>, cookies: map<string, Cookie>)
    requires forall i :: 0 <= i < |names| ==> names[i] in cookies
    ensures |Entries(names, cookies)| == |names|
  {
    if names != [] {
      EntriesLength(names[1..], cookies);
    }
  }

  /**
   * Parsing the cookie-string gives back what the jar holds: `getCookie(name)`
   * returns the decoded value of the cookie called `name`, and `null` when there
   * is none.
   */
  lemma ReadCookieRoundTrip(j: Jar, name: string)
    requires j.Valid() && ValidName(name)
    ensures ReadCookie(CookieString(j), name) == JarLookup(j, name)
  {
    var es := Entries(j.names, j.cookies);
    EntriesLength(j.names, j.cookies);
    if j.names == [] {
      assert CookieString(j) == "";
      assert Split(CookieString(j), ';') == [""];
      assert StripSpaces("") == "";
      assert FindRaw([""], name + "=") == None;
      assert name !in j.cookies;
    } else {
      EntriesNoSemicolon(j.names, j.cookies);
      SplitJoinPairs("", es);
      assert "" + JoinPairs(es) == CookieString(j);
      assert "" + es[0] == es[0];
      FindRawSpaced(es[1..], name + "=");
      assert FindRaw([es[0]] + Spaced(es[1..]), name + "=") == FindRaw(es, name + "=") by {
        assert ([es[0]] + Spaced(es[1..]))[1..] == Spaced(es[1..]);
        assert es == [es[0]] + es[1..];
      }
      FindRawEntries(j.names, j.cookies, name);
    }
  }

  // ---------------------------------------------------------------------------
  // The auth model and getAuth / setAuth / removeAuth

  /** The token fields the API's auth payload may carry under `data`. */
  datatype TokenData = TokenData(accessToken: Option<string>, refreshToken: Option<string>)

  /**
   * `AuthModel`: the wire names `access_token`, `refreshToken` and `api_token`
   * are kept; `data` is absent when the payload has none.
   */
  datatype AuthModel = AuthModel(
    data: Option<TokenData>,
    access_token: Option<string>,
    refreshToken: Option<string>,
    api_token: Option<string>)

  function DataAccessToken(a: AuthModel): Option<string> {
    if a.data.Some? then a.data.value.accessToken else None
  }

  function DataRefreshToken(a: AuthModel): Option<string> {
    if a.data.Some? then a.data.value.refreshToken else None
  }

  /** `getAuth` given what the two `getCookie` calls produce; a thrown URIError yields `undefined`. */
  function AuthFromCookies(access: Lookup, refresh: Lookup): (r: Option<AuthModel>)
    ensures r.Some? <==> !refresh.Malformed? && access.Found? && access.value != ""
    ensures r.Some? ==> && r.value.access_token == Some(access.value)
                        && r.value.api_token == Some(access.value)
                        && DataAccessToken(r.value) == Some(access.value)
    ensures r.Some? ==> r.value.refreshToken == (if refresh.Found? && refresh.value != "" then Some(refresh.value) else None)
    ensures r.Some? ==> DataRefreshToken(r.value) == (if refresh.Found? then Some(refresh.value) else None)
  {
    if access.Malformed? || refresh.Malformed? then None
    else if access.Found? && access.value != "" then
      var t := access.value;
      var rt := if refresh.Found? then Some(refresh.value) else None;
      Some(AuthModel(Some(TokenData(Some(t), rt)), Some(t), FirstTruthy(rt, None), Some(t)))
    else None
  }

  /** `getAuth()` on a jar. */
  function AuthOf(j: Jar): Option<AuthModel> {
    var header := CookieString(j);
    AuthFromCookies(ReadCookie(header, AccessTokenCookie), ReadCookie(header, RefreshTokenCookie))
  }

  /** The access token `setAuth` stores: `data.accessToken || access_token || api_token`. */
  function ChosenAccessToken(a: AuthModel): Option<string> {
    FirstTruthy(FirstTruthy(DataAccessToken(a), a.access_token), a.api_token)
  }

  /** The refresh token `setAuth` stores: `data.refreshToken || refreshToken`. */
  function ChosenRefreshToken(a: AuthModel): Option<string> {
    FirstTruthy(DataRefreshToken(a), a.refreshToken)
  }

  /** `setCookie(name, value, days)` as the browser applies it. */
  function SetCookieIn(j: Jar, name: string, value: string, days: int): Jar {
    if days > 0 then Put(j, name, Cookie(Encode(value), days)) else Delete(j, name)
  }

  /** The jar after `setAuth(a)`: only truthy tokens are written. */
  function StoreAuth(j: Jar, a: AuthModel): Jar {
    var access := ChosenAccessToken(a);
    var refresh := ChosenRefreshToken(a);
    var j1 := if Truthy(access) then SetCookieIn(j, AccessTokenCookie, access.value, AuthCookieDays) else j;
    if Truthy(refresh) then SetCookieIn(j1, RefreshTokenCookie, refresh.value, AuthCookieDays) else j1
  }

  /** The jar after `removeAuth()`. */
  function ClearAuth(j: Jar): Jar {
    Delete(Delete(j, AccessTokenCookie), RefreshTokenCookie)
  }

  lemma AuthCookieNamesValid()
    ensures ValidName(AccessTokenCookie) && ValidName(RefreshTokenCookie)
  {
  }

  lemma StoreAuthValid(j: Jar, a: AuthModel)
    requires j.Valid()
    ensures StoreAuth(j, a).Valid()
  {
    AuthCookieNamesValid();
    var access := ChosenAccessToken(a);
    var refresh := ChosenRefreshToken(a);
    var j1 := j;
    if Truthy(access) {
      PutValid(j, AccessTokenCookie, Cookie(Encode(access.value), AuthCookieDays));
      j1 := SetCookieIn(j, AccessTokenCookie, access.value, AuthCookieDays);
    }
    assert j1.Valid();
    if Truthy(refresh) {
      PutValid(j1, RefreshTokenCookie, Cookie(Encode(refresh.value), AuthCookieDays));
    }
  }

  lemma ClearAuthValid(j: Jar)
    requires j.Valid()
    ensures ClearAuth(j).Valid()
  {
    DeleteValid(j, AccessTokenCookie);
    DeleteValid(Delete(j, AccessTokenCookie), RefreshTokenCookie);
  }

  /**
   * `getAuth()` is `undefined` exactly when the access-token cookie is absent or
   * empty (for cookies that decode); when it is defined, `data.accessToken`,
   * `access_token` and `api_token` all hold that cookie's value.
   */
  lemma GetAuthDefinedIff(j: Jar)
    requires j.Valid()
    requires !JarLookup(j, RefreshTokenCookie).Malformed?
    ensures AuthOf(j).None? <==> !(JarLookup(j, AccessTokenCookie).Found? && JarLookup(j, AccessTokenCookie).value != "")
    ensures AuthOf(j).Some? ==> && AuthOf(j).value.access_token == Some(JarLookup(j, AccessTokenCookie).value)
                                && AuthOf(j).value.api_token == Some(JarLookup(j, AccessTokenCookie).value)
                                && DataAccessToken(AuthOf(j).value) == Some(JarLookup(j, AccessTokenCookie).value)
  {
    ReadCookieRoundTrip(j, AccessTokenCookie);
    ReadCookieRoundTrip(j, RefreshTokenCookie);
  }

  /**
   * Get after set: once `setAuth(a)` has stored a truthy access token, `getAuth()`
   * returns it as `access_token`, and the refresh token it stored (if any) as
   * `refreshToken`. A falsy refresh token leaves the previous refresh cookie as it was.
   */
  lemma SetAuthThenGetAuth(j: Jar, a: AuthModel)
    requires j.Valid()
    requires Truthy(ChosenAccessToken(a))
    requires Truthy(ChosenRefreshToken(a)) || !JarLookup(j, RefreshTokenCookie).Malformed?
    ensures AuthOf(StoreAuth(j, a)).Some?
    ensures AuthOf(StoreAuth(j, a)).value.access_token == ChosenAccessToken(a)
    ensures Truthy(ChosenRefreshToken(a)) ==> AuthOf(StoreAuth(j, a)).value.refreshToken == ChosenRefreshToken(a)
    ensures !Truthy(ChosenRefreshToken(a)) ==> JarLookup(StoreAuth(j, a), RefreshTokenCookie) == JarLookup(j, RefreshTokenCookie)
  {
    var j2 := StoreAuth(j, a);
    StoreAuthValid(j, a);
    StoreAuthLookups(j, a);
    GetAuthDefinedIff(j2);
    ReadCookieRoundTrip(j2, RefreshTokenCookie);
  }

  /** What the jar holds under the two auth names after `setAuth(a)`. */
  lemma StoreAuthLookups(j: Jar, a: AuthModel)
    requires Truthy(ChosenAccessToken(a))
    ensures JarLookup(StoreAuth(j, a), AccessTokenCookie) == Found(ChosenAccessToken(a).value)
    ensures Truthy(ChosenRefreshToken(a)) ==> JarLookup(StoreAuth(j, a), RefreshTokenCookie) == Found(ChosenRefreshToken(a).value)
    ensures !Truthy(ChosenRefreshToken(a)) ==> JarLookup(StoreAuth(j, a), RefreshTokenCookie) == JarLookup(j, RefreshTokenCookie)
  {
    var access := ChosenAccessToken(a).value;
    var refresh := ChosenRefreshToken(a);
    var j1 := Put(j, AccessTokenCookie, Cookie(Encode(access), AuthCookieDays));
    DecodeEncode(access);
    assert JarLookup(j1, AccessTokenCookie) == Found(access);
    assert JarLookup(j1, RefreshTokenCookie) == JarLookup(j, RefreshTokenCookie);
    if Truthy(refresh) {
      DecodeEncode(refresh.value);
      assert StoreAuth(j, a) == Put(j1, RefreshTokenCookie, Cookie(Encode(refresh.value), AuthCookieDays));
    } else {
      assert StoreAuth(j, a) == j1;
    }
  }

  /** Every cookie `setAuth` writes lives 7 days, whatever the caller wanted. */
  lemma SetAuthLifetime(j: Jar, a: AuthModel, name: string)
    requires name in StoreAuth(j, a).cookies
    requires name !in j.cookies || StoreAuth(j, a).cookies[name] != j.cookies[name]
    ensures StoreAuth(j, a).cookies[name].days == AuthCookieDays
    ensures name == AccessTokenCookie || name == RefreshTokenCookie
  {
  }

  /** After `removeAuth()` no session is found, and removing again changes nothing. */
  lemma RemoveAuthSignsOut(j: Jar)
    requires j.Valid()
    ensures AuthOf(ClearAuth(j)).None?
    ensures ClearAuth(ClearAuth(j)) == ClearAuth(j)
    ensures forall n :: n != AccessTokenCookie && n != RefreshTokenCookie ==> JarLookup(ClearAuth(j), n) == JarLookup(j, n)
  {
    var c := ClearAuth(j);
    ClearAuthValid(j);
    AuthCookieNamesValid();
    assert AccessTokenCookie !in c.cookies;
    ReadCookieRoundTrip(c, AccessTokenCookie);
    assert ReadCookie(CookieString(c), AccessTokenCookie) == Absent;
    ClearAuthTwice(c);
  }

  lemma ClearAuthTwice(c: Jar)
    requires c.Valid() && AccessTokenCookie !in c.cookies && RefreshTokenCookie !in c.cookies
    ensures ClearAuth(c) == c
  {
    DeleteAbsent(c, AccessTokenCookie);
    DeleteAbsent(c, RefreshTokenCookie);
  }

  // ---------------------------------------------------------------------------
  // document.cookie as mutable state

  /** The page's `document`, as far as cookies go. */
  class Document {
    var jar: Jar

    ghost predicate Valid()
      reads this
    {
      jar.Valid()
    }

    constructor (initial: Jar)
      requires initial.Valid()
      ensures Valid() && jar == initial
    {
      jar := initial;
    }

    /** `setCookie(name, value, days)`. */
    method SetCookie(name: string, value: string, days: int)
      requires Valid() && ValidName(name)
      modifies this
      ensures Valid()
      ensures jar == SetCookieIn(old(jar), name, value, days)
    {
      if days > 0 {
        PutValid(jar, name, Cookie(Encode(value), days));
        jar := Put(jar, name, Cookie(Encode(value), days));
      } else {
        DeleteValid(jar, name);
        jar := Delete(jar, name);
      }
    }

    /** `deleteCookie(name)`: an expiry date in the past removes the cookie. */
    method DeleteCookie(name: string)
      requires Valid()
      modifies this
      ensures Valid()
      ensures jar == Delete(old(jar), name)
    {
      DeleteValid(jar, name);
      jar := Delete(jar, name);
    }

    /**
     * `getCookie(name)`: split the cookie-string on ';', strip each piece's
     * leading spaces, and decode the value of the first piece starting with `name=`.
     */
    method GetCookie(name: string) returns (r: Lookup)
      ensures r == ReadCookie(CookieString(jar), name)
    {
      var nameEq := name + "=";
      var ca := Split(CookieString(jar), ';');
      for i := 0 to |ca|
        invariant FindRaw(ca, nameEq) == FindRaw(ca[i..], nameEq)
      {
        var c := ca[i];
        while |c| > 0 && c[0] == ' '
          invariant StripSpaces(c) == StripSpaces(ca[i])
        {
          c := c[1..];
        }
        assert ca[i..][1..] == ca[i + 1..];
        if IsPrefix(nameEq, c) {
          return DecodeRaw(c[|nameEq|..]);
        }
      }
      return Absent;
    }

    /** `getAuth()`. */
    method GetAuth() returns (a: Option<AuthModel>)
      ensures a == AuthOf(jar)
    {
      var access := GetCookie(AccessTokenCookie);
      var refresh := GetCookie(RefreshTokenCookie);
      a := AuthFromCookies(access, refresh);
    }

    /** `setAuth(auth)`: write each truthy token with the fixed 7-day lifetime. */
    method SetAuth(auth: AuthModel)
      requires Valid()
      modifies this
      ensures Valid()
      ensures jar == StoreAuth(old(jar), auth)
    {
      var access := ChosenAccessToken(auth);
      var refresh := ChosenRefreshToken(auth);
      ghost var j0 := jar;
      AuthCookieNamesValid();
      if Truthy(access) {
        SetCookie(AccessTokenCookie, access.value, AuthCookieDays);
      }
      ghost var j1 := jar;
      assert j1 == if Truthy(access) then SetCookieIn(j0, AccessTokenCookie, access.value, AuthCookieDays) else j0;
      if Truthy(refresh) {
        SetCookie(RefreshTokenCookie, refresh.value, AuthCookieDays);
      }
      assert jar == if Truthy(refresh) then SetCookieIn(j1, RefreshTokenCookie, refresh.value, AuthCookieDays) else j1;
    }

    /** `removeAuth()`. */
    method RemoveAuth()
      requires Valid()
      modifies this
      ensures Valid()
      ensures jar == ClearAuth(old(jar))
    {
      DeleteCookie(AccessTokenCookie);
      DeleteCookie(RefreshTokenCookie);
    }
  }
}
