/**
 * lib/api-request.ts: an authenticated request with one refresh-and-retry on a
 * 401. The server's answers are inputs: the first response, the answer of the
 * refresh endpoint and the retried response. The run is described both as a
 * method over the page's `Document` and as the function `Exchange` it is proved
 * against; the lemmas are about `Exchange` and `Refresh`.
 */
module ApiRequest {
  import opened Common
  import opened Http
  import opened AuthHelpers

  datatype ContentType = ApplicationJson | MultipartFormData

  type Headers = map<string, string>

  /** The part of `AxiosRequestConfig` the request builder looks at: `config.headers`. */
  datatype Config = Config(headers: Option<Headers>)

  const NoConfig := Config(None)

  const AuthorizationHeader := "Authorization"
  const ContentTypeHeader := "Content-Type"
  const JsonMime := "application/json"

  const NoRefreshTokenMessage := "No refresh token available"
  const RefreshFailedMessage := "Failed to refresh token"

  /** What a failed request throws: the transport's error, or an `Error` with a message. */
  datatype Thrown = Transport(error: HttpError) | Error(message: string)

  /** How a request settles: resolved with a response, or rejected. */
  datatype Answer<T> = Resolved(status: int, body: T) | Rejected(thrown: Thrown)

  /** A call that reached the network: a request to the API, or the POST to the refresh endpoint. */
  datatype Call = ApiCall(headers: Headers) | RefreshCall(refreshToken: string)

  function Bearer(token: string): string {
    "Bearer " + token
  }

  /** `tokenInfo?.data?.accessToken || tokenInfo?.access_token` (the `api_token` field is not consulted). */
  function RequestToken(a: Option<AuthModel>): Option<string> {
    if a.None? then None else FirstTruthy(DataAccessToken(a.value), a.value.access_token)
  }

  /** `token?.data?.refreshToken || token?.refreshToken`. */
  function StoredRefreshToken(a: Option<AuthModel>): Option<string> {
    if a.None? then None else ChosenRefreshToken(a.value)
  }

  /**
   * The `headers` object built before the first attempt: the config's headers,
   * then `Authorization` for a truthy token, then `Content-Type` for JSON bodies.
   */
  function BuildHeaders(config: Config, token: Option<string>, ct: ContentType): (h: Headers)
    ensures Truthy(token) ==> AuthorizationHeader in h && h[AuthorizationHeader] == Bearer(token.value)
    ensures !Truthy(token) ==> (AuthorizationHeader in h <==> AuthorizationHeader in config.headers.GetOr(map[]))
    ensures ct == ApplicationJson ==> ContentTypeHeader in h && h[ContentTypeHeader] == JsonMime
    ensures ct == MultipartFormData ==> (ContentTypeHeader in h <==> ContentTypeHeader in config.headers.GetOr(map[]))
    ensures forall k :: k in config.headers.GetOr(map[]) && k != AuthorizationHeader && k != ContentTypeHeader
                     ==> k in h && h[k] == config.headers.GetOr(map[])[k]
  {
    var base := config.headers.GetOr(map[]);
    var withAuth := if Truthy(token) then base[AuthorizationHeader := Bearer(token.value)] else base;
    if ct == ApplicationJson then withAuth[ContentTypeHeader := JsonMime] else withAuth
  }

  /** The same object before the retry: `Authorization` now carries the new token. */
  function RetryHeaders(h: Headers, token: string, ct: ContentType): (r: Headers)
    ensures AuthorizationHeader in r && r[AuthorizationHeader] == Bearer(token)
    ensures ct == ApplicationJson ==> ContentTypeHeader in r && r[ContentTypeHeader] == JsonMime
    ensures ct == MultipartFormData ==> (ContentTypeHeader in r <==> ContentTypeHeader in h)
    ensures forall k :: k in h && k != AuthorizationHeader && k != ContentTypeHeader ==> k in r && r[k] == h[k]
  {
    var withAuth := h[AuthorizationHeader := Bearer(token)];
    if ct == ApplicationJson then withAuth[ContentTypeHeader := JsonMime] else withAuth
  }

  /**
   * The headers axios receives from `axios({method, url, data, headers, ...config})`
   * as written: the spread of `config` comes last, so a `config.headers` replaces
   * the whole object that was built, `Authorization` and `Content-Type` included.
   */
  function SentHeadersAsWritten(config: Config, built: Headers): Headers {
    if config.headers.Some? then config.headers.value else built
  }

  /** The counterexample: a caller's extra header makes the request go out without its token. */
  lemma ConfigHeadersDropAuthorization()
    ensures var config := Config(Some(map["X-Trace" := "1"]));
            var built := BuildHeaders(config, Some("t"), ApplicationJson);
            && built[AuthorizationHeader] == Bearer("t")
            && AuthorizationHeader !in SentHeadersAsWritten(config, built)
  {
    var config := Config(Some(map["X-Trace" := "1"]));
    assert "X-Trace" != AuthorizationHeader;
  }

  /**
   * The headers the code evidently means to send: the merged object that was
   * built (config headers overridden by the token and the content type). The
   * rest of the model sends these.
   */
  function SentHeaders(config: Config, token: Option<string>, ct: ContentType): (h: Headers)
    ensures Truthy(token) ==> AuthorizationHeader in h && h[AuthorizationHeader] == Bearer(token.value)
    ensures forall k :: k in config.headers.GetOr(map[]) ==> k in h
  {
    BuildHeaders(config, token, ct)
  }

  // ---------------------------------------------------------------------------
  // refreshAccessToken

  datatype RefreshResult = NewAuth(auth: AuthModel) | RefreshThrew(thrown: Thrown)

  /** A run of `refreshAccessToken`: how it settles, the jar afterwards, and the refresh token it posted (if it called the server). */
  datatype RefreshRun = RefreshRun(result: RefreshResult, jar: Jar, posted: Option<string>)

  function Refresh(j: Jar, reply: Outcome<AuthModel>): RefreshRun {
    var rt := StoredRefreshToken(AuthOf(j));
    if !Truthy(rt) then RefreshRun(RefreshThrew(Error(NoRefreshTokenMessage)), j, None)
    else match reply
      case Reply(_, auth) => RefreshRun(NewAuth(auth), StoreAuth(j, auth), Some(rt.value))
      case Failure(_) => RefreshRun(RefreshThrew(Error(RefreshFailedMessage)), ClearAuth(j), Some(rt.value))
  }

  /**
   * `refreshAccessToken`: without a refresh token it throws before any network
   * call and touches no cookie; otherwise it posts the stored refresh token,
   * stores the new auth on success, and on any failure clears the session and
   * throws 'Failed to refresh token'.
   */
  lemma RefreshOutcomes(j: Jar, reply: Outcome<AuthModel>)
    requires j.Valid()
    ensures var r := Refresh(j, reply);
            var rt := StoredRefreshToken(AuthOf(j));
            && (!Truthy(rt) ==> r == RefreshRun(RefreshThrew(Error(NoRefreshTokenMessage)), j, None))
            && (Truthy(rt) ==> r.posted == rt)
            && (Truthy(rt) && reply.Reply? ==> r.result == NewAuth(reply.body) && r.jar == StoreAuth(j, reply.body))
            && (Truthy(rt) && reply.Failure? ==> r.result == RefreshThrew(Error(RefreshFailedMessage)) && AuthOf(r.jar).None?)
  {
    if Truthy(StoredRefreshToken(AuthOf(j))) && reply.Failure? {
      RemoveAuthSignsOut(j);
    }
  }

  /** The refresh token posted is the one `getAuth` reads back from the refresh cookie. */
  lemma RefreshPostsCookieValue(j: Jar, reply: Outcome<AuthModel>)
    requires j.Valid()
    requires !JarLookup(j, RefreshTokenCookie).Malformed?
    requires Refresh(j, reply).posted.Some?
    ensures JarLookup(j, RefreshTokenCookie) == Found(Refresh(j, reply).posted.value)
  {
    AuthCookieNamesValid();
    var a := AuthOf(j);
    var rt := StoredRefreshToken(a);
    assert a.Some? && Truthy(rt);
    ReadCookieRoundTrip(j, RefreshTokenCookie);
    var refresh := ReadCookie(CookieString(j), RefreshTokenCookie);
    assert refresh == JarLookup(j, RefreshTokenCookie);
    assert DataRefreshToken(a.value) == (if refresh.Found? then Some(refresh.value) else None);
  }

  // ---------------------------------------------------------------------------
  // apiRequest

  /** A run of `apiRequest`: how it settles, the jar afterwards, and the calls it made in order. */
  datatype Run<T> = Run(answer: Answer<T>, jar: Jar, calls: seq<Call>)

  /** The access token a successful refresh hands back: `newAuth?.data?.accessToken || newAuth?.access_token`. */
  function NewAccessToken(a: AuthModel): Option<string> {
    FirstTruthy(DataAccessToken(a), a.access_token)
  }

  function Exchange<T>(j: Jar, config: Config, ct: ContentType, first: Outcome<T>,
                       refreshReply: Outcome<AuthModel>, retry: Outcome<T>): Run<T>
  {
    var h := SentHeaders(config, RequestToken(AuthOf(j)), ct);
    match first
    case Reply(status, body) => Run(Resolved(status, body), j, [ApiCall(h)])
    case Failure(e) =>
      if e.status != Some(401) then Run(Rejected(Transport(e)), j, [ApiCall(h)])
      else
        var r := AfterUnauthorized(j, h, ct, e, refreshReply, retry);
        Run(r.answer, r.jar, [ApiCall(h)] + r.calls)
  }

  /** The catch block after a 401 on the first attempt, with headers `h`; `calls` are the ones it makes. */
  function AfterUnauthorized<T>(j: Jar, h: Headers, ct: ContentType, e: HttpError,
                                refreshReply: Outcome<AuthModel>, retry: Outcome<T>): Run<T>
  {
    var r := Refresh(j, refreshReply);
    var calls := if r.posted.Some? then [RefreshCall(r.posted.value)] else [];
    match r.result
    case RefreshThrew(t) => Run(Rejected(t), ClearAuth(r.jar), calls)
    case NewAuth(a) =>
      var nt := NewAccessToken(a);
      if !Truthy(nt) then Run(Rejected(Transport(e)), r.jar, calls)
      else
        var retryCalls := calls + [ApiCall(RetryHeaders(h, nt.value, ct))];
        match retry
        case Reply(status, body) => Run(Resolved(status, body), r.jar, retryCalls)
        case Failure(e2) => Run(Rejected(Transport(e2)), ClearAuth(r.jar), retryCalls)
  }

  function CountRefreshCalls(calls: seq<Call>): nat {
    if calls == [] then 0 else (if calls[0].RefreshCall? then 1 else 0) + CountRefreshCalls(calls[1..])
  }

  /**
   * The first call always carries `Bearer <token>` exactly when `getAuth` yields
   * an access token; there is at most one refresh and at most one retry, and a
   * refresh happens only after a 401.
   */
  lemma ExchangeShape<T>(j: Jar, config: Config, ct: ContentType, first: Outcome<T>,
                         refreshReply: Outcome<AuthModel>, retry: Outcome<T>)
    ensures var run := Exchange(j, config, ct, first, refreshReply, retry);
            var token := RequestToken(AuthOf(j));
            && 1 <= |run.calls| <= 3
            && run.calls[0].ApiCall?
            && (Truthy(token) ==> run.calls[0].headers[AuthorizationHeader] == Bearer(token.value))
            && CountRefreshCalls(run.calls) <= 1
            && (|run.calls| > 1 ==> first.Failure? && first.error.status == Some(401))
            && (|run.calls| == 3 ==> run.calls[1].RefreshCall? && run.calls[2].ApiCall?)
  {
    var run := Exchange(j, config, ct, first, refreshReply, retry);
    var c := run.calls;
    assert CountRefreshCalls(c) == (if c[0].RefreshCall? then 1 else 0) + CountRefreshCalls(c[1..]);
    if |c| >= 2 {
      assert CountRefreshCalls(c[1..]) == (if c[1].RefreshCall? then 1 else 0) + CountRefreshCalls(c[2..]);
      if |c| == 3 {
        assert CountRefreshCalls(c[2..]) == (if c[2].RefreshCall? then 1 else 0) + CountRefreshCalls(c[3..]);
      }
    }
  }

  /** Multipart requests never get an explicit Content-Type beyond the caller's own, on either attempt. */
  lemma MultipartHasNoContentType<T>(j: Jar, ct: ContentType, first: Outcome<T>,
                                     refreshReply: Outcome<AuthModel>, retry: Outcome<T>)
    requires ct == MultipartFormData
    ensures var run := Exchange(j, NoConfig, ct, first, refreshReply, retry);
            forall i :: 0 <= i < |run.calls| && run.calls[i].ApiCall? ==> ContentTypeHeader !in run.calls[i].headers
  {
    var h := SentHeaders(NoConfig, RequestToken(AuthOf(j)), ct);
    if first.Failure? && first.error.status == Some(401) {
      RetryContentType(j, h, ct, first.error, refreshReply, retry);
    }
  }

  /** JSON requests carry `Content-Type: application/json` on either attempt. */
  lemma JsonHasContentType<T>(j: Jar, config: Config, first: Outcome<T>,
                              refreshReply: Outcome<AuthModel>, retry: Outcome<T>)
    ensures var run := Exchange(j, config, ApplicationJson, first, refreshReply, retry);
            forall i :: 0 <= i < |run.calls| && run.calls[i].ApiCall? ==>
              ContentTypeHeader in run.calls[i].headers && run.calls[i].headers[ContentTypeHeader] == JsonMime
  {
    var h := SentHeaders(config, RequestToken(AuthOf(j)), ApplicationJson);
    if first.Failure? && first.error.status == Some(401) {
      RetryContentType(j, h, ApplicationJson, first.error, refreshReply, retry);
    }
  }

  /** The content type of the calls made after a 401: JSON is set again, multipart keeps the first attempt's. */
  lemma RetryContentType<T>(j: Jar, h: Headers, ct: ContentType, e: HttpError,
                            refreshReply: Outcome<AuthModel>, retry: Outcome<T>)
    ensures var run := AfterUnauthorized(j, h, ct, e, refreshReply, retry);
            forall i :: 0 <= i < |run.calls| && run.calls[i].ApiCall? ==>
              && (ct == ApplicationJson ==> ContentTypeHeader in run.calls[i].headers && run.calls[i].headers[ContentTypeHeader] == JsonMime)
              && (ct == MultipartFormData ==> (ContentTypeHeader in run.calls[i].headers <==> ContentTypeHeader in h))
  {
    var r := Refresh(j, refreshReply);
    var run := AfterUnauthorized(j, h, ct, e, refreshReply, retry);
    if r.result.NewAuth? && Truthy(NewAccessToken(r.result.auth)) {
      var rh := RetryHeaders(h, NewAccessToken(r.result.auth).value, ct);
      assert forall i :: 0 <= i < |run.calls| && run.calls[i].ApiCall? ==> run.calls[i].headers == rh;
    } else {
      assert forall i :: 0 <= i < |run.calls| ==> run.calls[i].RefreshCall?;
    }
  }

  /** An error other than a 401 is rethrown unchanged, with no refresh and no cookie change. */
  lemma Non401Rethrown<T>(j: Jar, config: Config, ct: ContentType, e: HttpError,
                          refreshReply: Outcome<AuthModel>, retry: Outcome<T>)
    requires e.status != Some(401)
    ensures var run := Exchange(j, config, ct, Failure(e), refreshReply, retry);
            run.answer == Rejected(Transport(e)) && run.jar == j && |run.calls| == 1
  {
  }

  /**
   * On a 401 with a stored refresh token that the server accepts and whose
   * answer, whatever its status, holds a new access token, the request is retried once with that token
   * and the retried response is what the caller gets.
   */
  lemma RetryAfterRefresh<T>(j: Jar, config: Config, ct: ContentType, e: HttpError,
                             refreshStatus: int, auth: AuthModel, status: int, body: T)
    requires j.Valid() && e.status == Some(401)
    requires Truthy(StoredRefreshToken(AuthOf(j))) && Truthy(NewAccessToken(auth))
    ensures var run := Exchange(j, config, ct, Failure(e), Reply(refreshStatus, auth), Reply(status, body));
            && run.answer == Resolved(status, body)
            && run.jar == StoreAuth(j, auth)
            && |run.calls| == 3
            && run.calls[2].headers[AuthorizationHeader] == Bearer(NewAccessToken(auth).value)
  {
  }

  /**
   * Any failure inside the refresh/retry block, the refresh itself or the retried
   * request, clears the session and is what the caller gets.
   */
  lemma BlockFailureSignsOut<T>(j: Jar, config: Config, ct: ContentType, e: HttpError,
                                refreshReply: Outcome<AuthModel>, retry: Outcome<T>)
    requires j.Valid() && e.status == Some(401)
    ensures var run := Exchange(j, config, ct, Failure(e), refreshReply, retry);
            var r := Refresh(j, refreshReply);
            && (r.result.RefreshThrew? ==> run.answer == Rejected(r.result.thrown) && AuthOf(run.jar).None?)
            && (r.result.NewAuth? && Truthy(NewAccessToken(r.result.auth)) && retry.Failure? ==>
                  run.answer == Rejected(Transport(retry.error)) && AuthOf(run.jar).None?)
  {
    var r := Refresh(j, refreshReply);
    if Truthy(StoredRefreshToken(AuthOf(j))) && refreshReply.Reply? {
      StoreAuthValid(j, refreshReply.body);
    } else if Truthy(StoredRefreshToken(AuthOf(j))) {
      ClearAuthValid(j);
    }
    assert r.jar.Valid();
    RemoveAuthSignsOut(r.jar);
  }

  /** A refresh that answers (with any status) without a new access token makes the request reject with the original 401. */
  lemma NoNewTokenRethrowsOriginal<T>(j: Jar, config: Config, ct: ContentType, e: HttpError,
                                      refreshStatus: int, auth: AuthModel, retry: Outcome<T>)
    requires e.status == Some(401)
    requires Truthy(StoredRefreshToken(AuthOf(j))) && !Truthy(NewAccessToken(auth))
    ensures var run := Exchange(j, config, ct, Failure(e), Reply(refreshStatus, auth), retry);
            run.answer == Rejected(Transport(e)) && run.jar == StoreAuth(j, auth) && |run.calls| == 2
  {
  }

  /** Whatever the server answers, a request leaves the jar well-formed. */
  lemma ExchangeKeepsValid<T>(j: Jar, config: Config, ct: ContentType, first: Outcome<T>,
                              refreshReply: Outcome<AuthModel>, retry: Outcome<T>)
    requires j.Valid()
    ensures Exchange(j, config, ct, first, refreshReply, retry).jar.Valid()
  {
    if first.Failure? && first.error.status == Some(401) {
      var h := SentHeaders(config, RequestToken(AuthOf(j)), ct);
      AfterUnauthorizedKeepsValid(j, h, ct, first.error, refreshReply, retry);
    }
  }

  lemma AfterUnauthorizedKeepsValid<T>(j: Jar, h: Headers, ct: ContentType, e: HttpError,
                                       refreshReply: Outcome<AuthModel>, retry: Outcome<T>)
    requires j.Valid()
    ensures AfterUnauthorized(j, h, ct, e, refreshReply, retry).jar.Valid()
  {
    var r := Refresh(j, refreshReply);
    RefreshKeepsValid(j, refreshReply);
    ClearAuthValid(r.jar);
    AfterUnauthorizedJar(j, h, ct, e, refreshReply, retry);
  }

  lemma RefreshKeepsValid(j: Jar, reply: Outcome<AuthModel>)
    requires j.Valid()
    ensures Refresh(j, reply).jar.Valid()
  {
    if reply.Reply? {
      StoreAuthValid(j, reply.body);
    } else {
      ClearAuthValid(j);
    }
  }

  /** The block after a 401 leaves the refresh's jar, or that jar with the session cleared. */
  lemma AfterUnauthorizedJar<T>(j: Jar, h: Headers, ct: ContentType, e: HttpError,
                                refreshReply: Outcome<AuthModel>, retry: Outcome<T>)
    ensures var jr := Refresh(j, refreshReply).jar;
            var ja := AfterUnauthorized(j, h, ct, e, refreshReply, retry).jar;
            ja == jr || ja == ClearAuth(jr)
  {
  }

  // ---------------------------------------------------------------------------
  // The same runs as methods over the page's document

  /** `refreshAccessToken()`; `posted` is the refresh token sent to the server, if any call was made. */
  method RefreshAccessToken(doc: Document, reply: Outcome<AuthModel>) returns (result: RefreshResult, posted: Option<string>)
    requires doc.Valid()
    modifies doc
    ensures doc.Valid()
    ensures RefreshRun(result, doc.jar, posted) == Refresh(old(doc.jar), reply)
  {
    var token := doc.GetAuth();
    var refreshToken := StoredRefreshToken(token);
    if !Truthy(refreshToken) {
      return RefreshThrew(Error(NoRefreshTokenMessage)), None;
    }
    posted := Some(refreshToken.value);
    match reply
    case Reply(_, auth) =>
      doc.SetAuth(auth);
      result := NewAuth(auth);
    case Failure(_) =>
      doc.RemoveAuth();
      result := RefreshThrew(Error(RefreshFailedMessage));
  }

  /** The catch block of `apiRequest` after a 401: refresh, then retry once with the new token. */
  method HandleUnauthorized<T>(doc: Document, headers: Headers, ct: ContentType, error: HttpError,
                               refreshReply: Outcome<AuthModel>, retry: Outcome<T>)
    returns (answer: Answer<T>, calls: seq<Call>)
    requires doc.Valid()
    modifies doc
    ensures doc.Valid()
    ensures Run(answer, doc.jar, calls) == AfterUnauthorized(old(doc.jar), headers, ct, error, refreshReply, retry)
  {
    var result, posted := RefreshAccessToken(doc, refreshReply);
    calls := if posted.Some? then [RefreshCall(posted.value)] else [];
    if result.RefreshThrew? {
      doc.RemoveAuth();
      return Rejected(result.thrown), calls;
    }
    var newAccessToken := NewAccessToken(result.auth);
    if !Truthy(newAccessToken) {
      return Rejected(Transport(error)), calls;
    }
    var retryHeaders := RetryHeaders(headers, newAccessToken.value, ct);
    calls := calls + [ApiCall(retryHeaders)];
    match retry
    case Reply(status, body) =>
      answer := Resolved(status, body);
    case Failure(e2) =>
      doc.RemoveAuth();
      answer := Rejected(Transport(e2));
  }

  /** `apiRequest(method, url, data, contentType, config)`, given the server's three possible answers. */
  method ApiRequest<T>(doc: Document, config: Config, ct: ContentType, first: Outcome<T>,
                       refreshReply: Outcome<AuthModel>, retry: Outcome<T>)
    returns (answer: Answer<T>, calls: seq<Call>)
    requires doc.Valid()
    modifies doc
    ensures doc.Valid()
    ensures Run(answer, doc.jar, calls) == Exchange(old(doc.jar), config, ct, first, refreshReply, retry)
  {
    var tokenInfo := doc.GetAuth();
    var accessToken := RequestToken(tokenInfo);
    var headers := SentHeaders(config, accessToken, ct);
    match first
    case Reply(status, body) =>
      answer, calls := Resolved(status, body), [ApiCall(headers)];
    case Failure(error) =>
      if error.status == Some(401) {
        var later;
        answer, later := HandleUnauthorized(doc, headers, ct, error, refreshReply, retry);
        calls := [ApiCall(headers)] + later;
      } else {
        answer, calls := Rejected(Transport(error)), [ApiCall(headers)];
      }
  }
}
