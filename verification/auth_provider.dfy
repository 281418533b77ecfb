/**
 * providers/auth-provider.tsx: the React context that holds the session as
 * component state (`user`, `isLoading`), derives the NextAuth-style `status`
 * and `data` values from it, and offers a `signIn` stand-in. Its `mapUser` is
 * the same mapping as the auth store's, so `AuthStore.MapUser` is used.
 */
module AuthProvider {
  import opened Common
  import opened Http
  import opened AuthHelpers
  import opened AuthStore

  datatype Status = Loading | Authenticated | Unauthenticated

  /** The `status` the context exposes. */
  function StatusOf(isLoading: bool, user: Option<User>): (r: Status)
    ensures r == Loading <==> isLoading
    ensures r == Authenticated <==> !isLoading && user.Some?
    ensures r == Unauthenticated <==> !isLoading && user.None?
  {
    if isLoading then Loading else if user.Some? then Authenticated else Unauthenticated
  }

  /** The `data` the context exposes: `{ user }` when a user is held, otherwise null. */
  datatype SessionData = SessionData(user: User)

  function DataOf(user: Option<User>): (r: Option<SessionData>)
    ensures r.None? <==> user.None?
    ensures r.Some? ==> r.value.user == user.value
  {
    if user.Some? then Some(SessionData(user.value)) else None
  }

  const CredentialsProvider := "credentials"
  const UnsupportedProvider := "Provider not supported"

  /** `signIn(provider)`: the `error` field of its result, `None` standing for `error: null`. */
  function SignIn(provider: string): (error: Option<string>)
    ensures error.None? <==> provider == CredentialsProvider
    ensures error.Some? ==> error.value == UnsupportedProvider
  {
    if provider == CredentialsProvider then None else Some(UnsupportedProvider)
  }

  /** The provider's state: the two `useState` cells. */
  class Provider {
    var user: Option<User>
    var isLoading: bool

    function Status(): Status
      reads this
    {
      StatusOf(isLoading, user)
    }

    function Data(): Option<SessionData>
      reads this
    {
      DataOf(user)
    }

    constructor ()
      ensures user.None? && isLoading && Status() == Loading
    {
      user, isLoading := None, true;
    }

    /**
     * The mount effect `initAuth`: the user is fetched, through `apiRequest`,
     * only when a session is stored; a failed fetch, or an envelope without
     * `data` on which `mapUser` throws, clears the cookies and the user.
     * Loading ends in every branch.
     */
    method InitAuth(doc: Document, call: UserCall) returns (fetched: bool)
      requires doc.Valid()
      modifies this, doc
      ensures doc.Valid()
      ensures fetched <==> AuthOf(old(doc.jar)).Some?
      ensures !fetched ==> user == old(user) && doc.jar == old(doc.jar)
      ensures fetched ==>
                var run := GetUser(old(doc.jar), call);
                && (UserOf(run.answer).Some? ==> user == Some(MapUser(UserOf(run.answer).value)) && doc.jar == run.jar)
                && (UserOf(run.answer).None? ==> user.None? && doc.jar == ClearAuth(run.jar))
      ensures !isLoading && Status() != Loading
    {
      var auth := doc.GetAuth();
      fetched := auth.Some?;
      if fetched {
        var answer := GetUserFrom(doc, call);
        var apiUser := UserOf(answer);
        if apiUser.Some? {
          var u := MapUser(apiUser.value);
          user := Some(u);
        } else {
          doc.RemoveAuth();
          user := None;
        }
      }
      isLoading := false;
    }

    /**
     * `login(email, password)`: true only when the login call succeeds and the
     * user fetch resolves with `data` that `mapUser` accepts; the `finally`
     * block ends loading either way. A failure keeps the previous user, and the
     * cookies are the ones the user fetch left.
     */
    method Login(doc: Document, loginReply: Outcome<AuthModel>, call: UserCall) returns (ok: bool)
      requires doc.Valid()
      modifies this, doc
      ensures doc.Valid()
      ensures loginReply.Failure? ==> !ok && user == old(user) && doc.jar == old(doc.jar)
      ensures loginReply.Reply? ==>
                var run := GetUser(StoreAuth(old(doc.jar), loginReply.body), call);
                && (ok <==> UserOf(run.answer).Some?)
                && (ok ==> user == Some(MapUser(UserOf(run.answer).value)))
                && doc.jar == run.jar
      ensures loginReply.Reply? && call.first.Reply? ==>
                (ok <==> call.first.body.Some?) && doc.jar == StoreAuth(old(doc.jar), loginReply.body)
      ensures ok ==> Status() == Authenticated
      ensures !ok ==> user == old(user)
      ensures !isLoading
    {
      isLoading := true;
      ok := false;
      if loginReply.Reply? {
        doc.SetAuth(loginReply.body);
        ghost var j1 := doc.jar;
        var answer := GetUserFrom(doc, call);
        if call.first.Reply? {
          FirstReplyKeepsJar(j1, call);
        }
        var apiUser := UserOf(answer);
        if apiUser.Some? {
          user := Some(MapUser(apiUser.value));
          ok := true;
        }
      }
      isLoading := false;
    }

    /** `logout()`: the cookies go and no user is held (the redirect is not modelled). */
    method Logout(doc: Document)
      requires doc.Valid()
      modifies this, doc
      ensures doc.Valid() && doc.jar == ClearAuth(old(doc.jar))
      ensures user.None? && isLoading == old(isLoading)
      ensures Data().None? && (Status() == Loading || Status() == Unauthenticated)
    {
      doc.RemoveAuth();
      user := None;
    }
  }
}
