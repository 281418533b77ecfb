/**
 * stores/auth-store.ts: the persisted session store. Its state is the signed-in
 * user and three flags; its actions call the login and user endpoints (whose
 * answers are inputs here) and write the auth cookies through the page's
 * `Document`. The user endpoint is reached through `apiRequest`, so a 401 on
 * it refreshes the session and retries, rewriting the cookies on the way.
 */
module AuthStore {
  import opened Common
  import opened Http
  import opened AuthHelpers
  import ApiRequest

  /** `UserImage`: the stored file's metadata. */
  datatype UserImage = UserImage(fileName: string, width: int, height: int, aspectRatio: string, mimeType: string)

  /** `UserModel` as the user endpoint returns it; `dbId` is its `_id` field. */
  datatype UserModel = UserModel(
    dbId: string,
    firstName: Option<string>,
    lastName: Option<string>,
    email: string,
    role: Option<string>,
    image: Option<UserImage>)

  /** The store's `User`. */
  datatype User = User(id: string, email: string, name: string, avatar: Option<UserImage>, role: Option<string>)

  /** `mapUser`: `_id` becomes `id`, the name is `` `${firstName || ''} ${lastName || ''}`.trim() ``. */
  function MapUser(u: UserModel): (r: User)
    ensures r.id == u.dbId && r.email == u.email && r.role == u.role
    ensures r.avatar.None? <==> u.image.None?
    ensures r.avatar.Some? ==> r.avatar == u.image
    ensures |r.name| <= |OrElse(u.firstName, "")| + 1 + |OrElse(u.lastName, "")|
  {
    User(u.dbId, u.email, Trim(OrElse(u.firstName, "") + " " + OrElse(u.lastName, "")), u.image, u.role)
  }

  /**
   * The display name for any two parts (a missing part reads as empty): the
   * first part without its leading whitespace, a space, and the last part
   * without its trailing whitespace; when one part is blank, the other part
   * trimmed; when both are blank, the empty string.
   */
  lemma MapUserName(u: UserModel)
    ensures var first := OrElse(u.firstName, "");
            var last := OrElse(u.lastName, "");
            && (Trim(first) != "" && Trim(last) != "" ==> MapUser(u).name == TrimStart(first) + " " + TrimEnd(last))
            && (Trim(first) == "" ==> MapUser(u).name == Trim(last))
            && (Trim(last) == "" ==> MapUser(u).name == Trim(first))
  {
    TrimJoin(OrElse(u.firstName, ""), OrElse(u.lastName, ""));
  }

  /**
   * The server's side of one `getUser()` call (lib/auth-api.ts): the first
   * response, the refresh endpoint's answer and the retried response, as
   * `apiRequest` consumes them. A response's body stands for the envelope's
   * `data` field, which `getUser` returns; `None` is an envelope without it
   * (such as `{ success: false, message }`), on which `mapUser` throws.
   */
  datatype UserCall = UserCall(first: Outcome<Option<UserModel>>, refreshReply: Outcome<AuthModel>, retry: Outcome<Option<UserModel>>)

  /** `getUser()`: `apiRequest('GET', ADMIN_GET_USER)`, a JSON request with no config, over the jar `j`. */
  function GetUser(j: Jar, c: UserCall): ApiRequest.Run<Option<UserModel>> {
    ApiRequest.Exchange(j, ApiRequest.NoConfig, ApiRequest.ApplicationJson, c.first, c.refreshReply, c.retry)
  }

  /**
   * How the user lookup leaves the cookies: a first response that arrives
   * changes nothing; a failure other than a 401 changes nothing; a user that
   * arrives only after a 401 came from the retry, after the refresh stored the
   * new auth; and the jar stays well-formed.
   */
  lemma GetUserOutcomes(j: Jar, c: UserCall)
    requires j.Valid()
    ensures var run := GetUser(j, c);
            && run.jar.Valid()
            && (c.first.Reply? ==> run.answer == ApiRequest.Resolved(c.first.status, c.first.body) && run.jar == j)
            && (c.first.Failure? && c.first.error.status != Some(401) ==> run.answer.Rejected? && run.jar == j)
            && (c.first.Failure? && run.answer.Resolved? ==>
                  && c.refreshReply.Reply? && c.retry.Reply?
                  && run.answer.body == c.retry.body
                  && run.jar == StoreAuth(j, c.refreshReply.body))
  {
    ApiRequest.ExchangeKeepsValid(j, ApiRequest.NoConfig, ApiRequest.ApplicationJson, c.first, c.refreshReply, c.retry);
    if c.first.Failure? && GetUser(j, c).answer.Resolved? {
      RetriedUser(j, c);
    }
  }

  /** A user that arrives after a failed first attempt is the retry's, sent after a refresh that stored new auth. */
  lemma RetriedUser(j: Jar, c: UserCall)
    requires c.first.Failure? && GetUser(j, c).answer.Resolved?
    ensures c.refreshReply.Reply? && c.retry.Reply?
    ensures GetUser(j, c).answer.body == c.retry.body && GetUser(j, c).jar == StoreAuth(j, c.refreshReply.body)
  {
  }

  /** `getUser()` over the page's cookies: the answer and the jar are those of the run `GetUser` defines. */
  method GetUserFrom(doc: Document, call: UserCall) returns (answer: ApiRequest.Answer<Option<UserModel>>)
    requires doc.Valid()
    modifies doc
    ensures doc.Valid()
    ensures answer == GetUser(old(doc.jar), call).answer && doc.jar == GetUser(old(doc.jar), call).jar
  {
    var calls;
    answer, calls := ApiRequest.ApiRequest(doc, ApiRequest.NoConfig, ApiRequest.ApplicationJson,
                                           call.first, call.refreshReply, call.retry);
  }

  /** A first response that arrives is what `getUser()` resolves with, and the cookies are left alone. */
  lemma FirstReplyKeepsJar(j: Jar, c: UserCall)
    requires c.first.Reply?
    ensures GetUser(j, c).answer.Resolved? && GetUser(j, c).answer.body == c.first.body && GetUser(j, c).jar == j
  {
  }

  /**
   * The user `mapUser` receives without throwing: `getUser()` resolved and its
   * envelope carried `data`.
   */
  function UserOf(a: ApiRequest.Answer<Option<UserModel>>): Option<UserModel> {
    if a.Resolved? then a.body else None
  }

  /** A snapshot of the store's state. */
  datatype AuthState = AuthState(user: Option<User>, isLoading: bool, isAuthenticated: bool, rememberMe: bool)

  /** `isAuthenticated` says whether a user is held. */
  predicate Consistent(s: AuthState) {
    s.isAuthenticated == s.user.Some?
  }

  class AuthStore {
    var user: Option<User>
    var isLoading: bool
    var isAuthenticated: bool
    var rememberMe: bool

    function View(): AuthState
      reads this
    {
      AuthState(user, isLoading, isAuthenticated, rememberMe)
    }

    constructor ()
      ensures View() == AuthState(None, true, false, false)
    {
      user, isLoading, isAuthenticated, rememberMe := None, true, false, false;
    }

    /**
     * `login(email, password, rememberMe = false)`. On success the user is held
     * and the call returns true. Any failure returns false with the flags reset,
     * and leaves `user` as it was: a failed login call, a failed user fetch, or
     * a fetched envelope without `data`, on which `mapUser` throws. Tokens
     * already stored stay stored when only the user fetch failed, unless that
     * fetch's own refresh cleared them. `setAuth` is given no lifetime, so
     * `rememberMe` does not change how long the cookies live.
     */
    method Login(doc: Document, rememberMeArg: Option<bool>,
                 loginReply: Outcome<AuthModel>, call: UserCall) returns (ok: bool)
      requires doc.Valid()
      modifies this, doc
      ensures doc.Valid()
      ensures loginReply.Failure? ==> !ok && doc.jar == old(doc.jar)
      ensures loginReply.Reply? ==>
                var run := GetUser(StoreAuth(old(doc.jar), loginReply.body), call);
                && (ok <==> UserOf(run.answer).Some?)
                && (ok ==> View() == AuthState(Some(MapUser(UserOf(run.answer).value)), false, true, rememberMeArg.GetOr(false)))
                && doc.jar == run.jar
      ensures loginReply.Reply? && call.first.Reply? ==>
                (ok <==> call.first.body.Some?) && doc.jar == StoreAuth(old(doc.jar), loginReply.body)
      ensures ok ==> Consistent(View())
      ensures !ok ==> View() == old(View()).(isLoading := false, isAuthenticated := false, rememberMe := false)
    {
      var remember := rememberMeArg.GetOr(false);
      isLoading, rememberMe := true, remember;
      if loginReply.Failure? {
        isLoading, isAuthenticated, rememberMe := false, false, false;
        return false;
      }
      doc.SetAuth(loginReply.body);
      ok := LoadUser(doc, call, remember);
    }

    /**
     * The rest of `login`'s `try` block once the tokens are stored: `getUser()`,
     * then the mapped user is held; its `catch`, reached when the lookup
     * rejects or `mapUser` throws on a missing `data`, resets the flags and
     * keeps the old user.
     */
    method LoadUser(doc: Document, call: UserCall, remember: bool) returns (ok: bool)
      requires doc.Valid()
      modifies this, doc
      ensures doc.Valid()
      ensures var run := GetUser(old(doc.jar), call);
              && (ok <==> UserOf(run.answer).Some?)
              && (ok ==> View() == AuthState(Some(MapUser(UserOf(run.answer).value)), false, true, remember))
              && doc.jar == run.jar
      ensures call.first.Reply? ==> (ok <==> call.first.body.Some?) && doc.jar == old(doc.jar)
      ensures !ok ==> View() == old(View()).(isLoading := false, isAuthenticated := false, rememberMe := false)
    {
      ghost var j0 := doc.jar;
      var answer := GetUserFrom(doc, call);
      if call.first.Reply? {
        FirstReplyKeepsJar(j0, call);
      }
      var apiUser := UserOf(answer);
      if apiUser.Some? {
        var u := MapUser(apiUser.value);
        user, isAuthenticated, isLoading, rememberMe := Some(u), true, false, remember;
        ok := true;
      } else {
        isLoading, isAuthenticated, rememberMe := false, false, false;
        ok := false;
      }
    }

    /** `setRememberMe(b)`. */
    method SetRememberMe(b: bool)
      modifies this
      ensures View() == old(View()).(rememberMe := b)
    {
      rememberMe := b;
    }

    /** `logout()`: the cookies go, and the store is signed out. */
    method Logout(doc: Document)
      requires doc.Valid()
      modifies this, doc
      ensures doc.Valid() && doc.jar == ClearAuth(old(doc.jar))
      ensures View() == AuthState(None, false, false, false)
      ensures Consistent(View())
    {
      doc.RemoveAuth();
      user, isAuthenticated, isLoading, rememberMe := None, false, false, false;
    }

    /** `setUser(u)`: `isAuthenticated` follows the user. */
    method SetUser(u: Option<User>)
      modifies this
      ensures View() == old(View()).(user := u, isAuthenticated := u.Some?)
      ensures Consistent(View())
    {
      user, isAuthenticated := u, u.Some?;
    }

    /** `setLoading(b)`. */
    method SetLoading(b: bool)
      modifies this
      ensures View() == old(View()).(isLoading := b)
    {
      isLoading := b;
    }

    /**
     * `fetchUser()`: the user lookup runs over the current cookies; a failure,
     * or an envelope without `data` on which `mapUser` throws, signs the
     * session out and clears its cookies.
     */
    method FetchUser(doc: Document, call: UserCall)
      requires doc.Valid()
      modifies this, doc
      ensures doc.Valid()
      ensures var run := GetUser(old(doc.jar), call);
              && (UserOf(run.answer).Some? ==>
                    View() == old(View()).(user := Some(MapUser(UserOf(run.answer).value)), isAuthenticated := true, isLoading := false)
                    && doc.jar == run.jar)
              && (UserOf(run.answer).None? ==>
                    View() == old(View()).(user := None, isAuthenticated := false, isLoading := false)
                    && doc.jar == ClearAuth(run.jar))
      ensures call.first.Reply? && call.first.body.Some? ==> user.Some? && doc.jar == old(doc.jar)
      ensures call.first.Reply? && call.first.body.None? ==> user.None? && doc.jar == ClearAuth(old(doc.jar))
      ensures Consistent(View()) && !isLoading
    {
      ghost var j0 := doc.jar;
      var answer := GetUserFrom(doc, call);
      if call.first.Reply? {
        FirstReplyKeepsJar(j0, call);
      }
      Settle(doc, answer);
    }

    /**
     * The body of `fetchUser`'s `try`/`catch` once `getUser()` has settled with
     * `answer`: the `catch` runs when it rejected or carried no `data`.
     */
    method Settle(doc: Document, answer: ApiRequest.Answer<Option<UserModel>>)
      requires doc.Valid()
      modifies this, doc
      ensures doc.Valid()
      ensures UserOf(answer).Some? ==>
                View() == old(View()).(user := Some(MapUser(UserOf(answer).value)), isAuthenticated := true, isLoading := false)
                && doc.jar == old(doc.jar)
      ensures UserOf(answer).None? ==>
                View() == old(View()).(user := None, isAuthenticated := false, isLoading := false)
                && doc.jar == ClearAuth(old(doc.jar))
      ensures Consistent(View()) && !isLoading
    {
      var apiUser := UserOf(answer);
      if apiUser.Some? {
        var u := MapUser(apiUser.value);
        user, isAuthenticated, isLoading := Some(u), true, false;
      } else {
        doc.RemoveAuth();
        user, isAuthenticated, isLoading := None, false, false;
      }
    }

    /**
     * `initAuth()`: with a stored session the user is fetched; without one the
     * store stops loading and is not authenticated, and nothing is fetched.
     */
    method InitAuth(doc: Document, call: UserCall) returns (fetched: bool)
      requires doc.Valid()
      modifies this, doc
      ensures doc.Valid()
      ensures fetched <==> AuthOf(old(doc.jar)).Some?
      ensures !fetched ==> View() == old(View()).(isLoading := false, isAuthenticated := false) && doc.jar == old(doc.jar)
      ensures fetched ==>
                var run := GetUser(old(doc.jar), call);
                && (UserOf(run.answer).Some? ==>
                      View() == old(View()).(user := Some(MapUser(UserOf(run.answer).value)), isAuthenticated := true, isLoading := false)
                      && doc.jar == run.jar)
                && (UserOf(run.answer).None? ==>
                      View() == old(View()).(user := None, isAuthenticated := false, isLoading := false)
                      && doc.jar == ClearAuth(run.jar))
      ensures fetched ==> Consistent(View())
      ensures !isLoading
    {
      var auth := doc.GetAuth();
      if auth.Some? {
        FetchUser(doc, call);
        fetched := true;
      } else {
        isLoading, isAuthenticated := false, false;
        fetched := false;
      }
    }
  }
}
