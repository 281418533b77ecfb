/**
 * stores/user-store.ts: the admin-user list with its pagination, the selected
 * user, and the create/update/delete actions. A user record is a JSON object,
 * so that `{ ...user, ...data }` is a map union. Server answers are inputs;
 * after a successful add, update or delete the store refetches the list, whose
 * answer is one more input.
 */
module UserStore {
  import opened Common
  import opened Http
  import Json

  /** An `AdminUser` as the store holds it: a JSON object. */
  type UserRecord = map<string, Json.Value>

  /** `user._id || user.id`; `None` is `undefined`. */
  function IdOf(u: UserRecord): Option<Json.Value> {
    if "_id" in u && Json.Truthy(u["_id"]) then Some(u["_id"])
    else if "id" in u then Some(u["id"])
    else None
  }

  /** `(user._id || user.id) === userId`. */
  predicate HasId(u: UserRecord, userId: string) {
    IdOf(u) == Some(Json.Str(userId))
  }

  // ---------------------------------------------------------------------------
  // Local list edits

  /** `{ ...user, ...data }`, where a missing `data` spreads nothing. */
  function Merge(u: UserRecord, data: Option<UserRecord>): (r: UserRecord)
    ensures forall k :: k in r <==> k in u || (data.Some? && k in data.value)
    ensures data.Some? ==> forall k :: k in data.value ==> r[k] == data.value[k]
    ensures forall k :: k in u && (data.None? || k !in data.value) ==> r[k] == u[k]
  {
    u + data.GetOr(map[])
  }

  /** The list after a successful update: matching users are merged with the response data, in place. */
  function MergeMatching(users: seq<UserRecord>, userId: string, data: Option<UserRecord>): (r: seq<UserRecord>)
    ensures |r| == |users|
    ensures forall i :: 0 <= i < |users| ==> r[i] == if HasId(users[i], userId) then Merge(users[i], data) else users[i]
  {
    seq(|users|, i requires 0 <= i < |users| => if HasId(users[i], userId) then Merge(users[i], data) else users[i])
  }

  /** Applying the same update twice gives the same list as applying it once. */
  lemma MergeMatchingIdempotent(users: seq<UserRecord>, userId: string, data: Option<UserRecord>)
    ensures MergeMatching(MergeMatching(users, userId, data), userId, data) == MergeMatching(users, userId, data)
  {
    var once := MergeMatching(users, userId, data);
    var twice := MergeMatching(once, userId, data);
    var d := data.GetOr(map[]);
    forall i | 0 <= i < |users| ensures twice[i] == once[i] {
      if HasId(users[i], userId) {
        assert once[i] == users[i] + d;
        assert once[i] + d == users[i] + d;
      }
    }
  }

  function SelectedAfterUpdate(sel: Option<UserRecord>, userId: string, data: Option<UserRecord>): (r: Option<UserRecord>)
    ensures sel.None? ==> r.None?
    ensures sel.Some? && HasId(sel.value, userId) ==> r == Some(Merge(sel.value, data))
    ensures sel.Some? && !HasId(sel.value, userId) ==> r == sel
  {
    if sel.Some? && HasId(sel.value, userId) then Some(Merge(sel.value, data)) else sel
  }

  function NotUser(userId: string): UserRecord -> bool {
    (u: UserRecord) => !HasId(u, userId)
  }

  /** The list after a successful delete: every user with that id goes, the rest keep their order. */
  function WithoutUser(users: seq<UserRecord>, userId: string): (r: seq<UserRecord>)
    ensures |r| <= |users|
    ensures forall i :: 0 <= i < |r| ==> !HasId(r[i], userId) && r[i] in users
    ensures forall i :: 0 <= i < |users| && !HasId(users[i], userId) ==> users[i] in r
  {
    Filter(NotUser(userId), users)
  }

  /** Deleting works element by element, so the survivors keep their relative order; deleting again changes nothing. */
  lemma WithoutUserOrder(a: seq<UserRecord>, b: seq<UserRecord>, userId: string)
    ensures WithoutUser(a + b, userId) == WithoutUser(a, userId) + WithoutUser(b, userId)
    ensures WithoutUser(WithoutUser(a, userId), userId) == WithoutUser(a, userId)
  {
    FilterConcat(NotUser(userId), a, b);
    var r := WithoutUser(a, userId);
    FilterKeepsAll(NotUser(userId), r);
  }

  function SelectedAfterDelete(sel: Option<UserRecord>, userId: string): (r: Option<UserRecord>)
    ensures r.None? <==> sel.None? || HasId(sel.value, userId)
    ensures r.Some? ==> r == sel
  {
    if sel.Some? && HasId(sel.value, userId) then None else sel
  }

  const NoLongerActive := "User no longer active"

  /** The body of the delete request: `{ id, deleteRemark: reason || 'User no longer active' }`. */
  datatype DeletePayload = DeletePayload(id: string, deleteRemark: string)

  function DeleteBody(userId: string, reason: Option<string>): (p: DeletePayload)
    ensures p.id == userId
    ensures Truthy(reason) ==> p.deleteRemark == reason.value
    ensures !Truthy(reason) ==> p.deleteRemark == NoLongerActive
  {
    DeletePayload(userId, OrElse(reason, NoLongerActive))
  }

  // ---------------------------------------------------------------------------
  // Listing

  /** The optional `fetchUsers` parameters. */
  datatype UserQuery = UserQuery(page: Option<int>, limit: Option<int>, search: Option<string>,
                                 sort: Option<string>, order: Option<string>)

  const NoQuery := UserQuery(None, None, None, None, None)

  predicate NumTruthy(x: Option<int>) {
    x.Some? && x.value != 0
  }

  /** `URLSearchParams.get(key)`: the value of the first pair with that key. */
  function Get(pairs: seq<(string, string)>, key: string): Option<string> {
    if pairs == [] then None
    else if pairs[0].0 == key then Some(pairs[0].1)
    else Get(pairs[1..], key)
  }

  lemma {:induction false} GetAppend(a: seq<(string, string)>, b: seq<(string, string)>, key: string)
    ensures Get(a + b, key) == if Get(a, key).Some? then Get(a, key) else Get(b, key)
  {
    if a != [] {
      assert (a + b)[1..] == a[1..] + b;
      GetAppend(a[1..], b, key);
    } else {
      assert a + b == b;
    }
  }

  function FirstSome(a: Option<string>, b: Option<string>): Option<string> {
    if a.Some? then a else b
  }

  lemma GetFive(p1: seq<(string, string)>, p2: seq<(string, string)>, p3: seq<(string, string)>,
                p4: seq<(string, string)>, p5: seq<(string, string)>, key: string)
    ensures Get(p1 + p2 + p3 + p4 + p5, key)
         == FirstSome(Get(p1, key), FirstSome(Get(p2, key), FirstSome(Get(p3, key), FirstSome(Get(p4, key), Get(p5, key)))))
  {
    GetAppend(p1 + p2 + p3 + p4, p5, key);
    GetAppend(p1 + p2 + p3, p4, key);
    GetAppend(p1 + p2, p3, key);
    GetAppend(p1, p2, key);
  }

  function Param(key: string, value: Option<string>): seq<(string, string)> {
    if value.Some? then [(key, value.value)] else []
  }

  function NumParam(x: Option<int>): Option<string> {
    if NumTruthy(x) then Some(IntToString(x.value)) else None
  }

  function StrParam(x: Option<string>): Option<string> {
    if Truthy(x) then x else None
  }

  /** The `URLSearchParams` pairs, in insertion order: only truthy parameters are added, so no value is empty. */
  function QueryPairs(q: UserQuery): (r: seq<(string, string)>)
    ensures |r| <= 5
    ensures forall i :: 0 <= i < |r| ==> r[i].1 != ""
  {
    Param("page", NumParam(q.page)) + Param("limit", NumParam(q.limit)) + Param("search", StrParam(q.search))
      + Param("sort", StrParam(q.sort)) + Param("order", StrParam(q.order))
  }

  /** Each parameter reaches the query exactly when it is truthy, numbers written in decimal. */
  lemma QueryPairsSelect(q: UserQuery)
    ensures Get(QueryPairs(q), "page") == NumParam(q.page)
    ensures Get(QueryPairs(q), "limit") == NumParam(q.limit)
    ensures Get(QueryPairs(q), "search") == StrParam(q.search)
    ensures Get(QueryPairs(q), "sort") == StrParam(q.sort)
    ensures Get(QueryPairs(q), "order") == StrParam(q.order)
  {
    var p1 := Param("page", NumParam(q.page));
    var p2 := Param("limit", NumParam(q.limit));
    var p3 := Param("search", StrParam(q.search));
    var p4 := Param("sort", StrParam(q.sort));
    var p5 := Param("order", StrParam(q.order));
    GetFive(p1, p2, p3, p4, p5, "page");
    GetFive(p1, p2, p3, p4, p5, "limit");
    GetFive(p1, p2, p3, p4, p5, "search");
    GetFive(p1, p2, p3, p4, p5, "sort");
    GetFive(p1, p2, p3, p4, p5, "order");
  }

  /** The list fields a fetch installs. */
  datatype Listing = Listing(users: seq<UserRecord>, totalUsers: int, currentPage: int, totalPages: int)

  const EmptyListing := Listing([], 0, 1, 0)

  /** What a successful list response installs; a 204 means no users at all. */
  function ListingOf(status: int, body: Envelope<seq<UserRecord>>): (r: Listing)
    ensures status == 204 ==> r == EmptyListing
    ensures status != 204 ==> r.users == body.data.GetOr([])
    ensures status != 204 && body.pagination.None? ==> r.totalUsers == 0 && r.currentPage == 1 && r.totalPages == 0
    ensures status != 204 && body.pagination.Some? ==>
              && r.totalUsers == NumOr(body.pagination.value.totalRecords, 0)
              && r.currentPage == NumOr(body.pagination.value.currentPage, 1)
              && r.totalPages == NumOr(body.pagination.value.totalPages, 0)
    ensures r.currentPage != 0
  {
    if status == 204 then EmptyListing
    else
      var p := body.pagination;
      Listing(body.data.GetOr([]),
              if p.Some? then NumOr(p.value.totalRecords, 0) else 0,
              if p.Some? then NumOr(p.value.currentPage, 1) else 1,
              if p.Some? then NumOr(p.value.totalPages, 0) else 0)
  }

  /** What add/update/delete resolve to. */
  datatype Ack = Ack(success: bool, message: Option<string>)

  /** The message an add/update/delete failure records: the server's message, the transport's, or the default. */
  function FailureMessage<T>(reply: Outcome<Envelope<T>>, fallback: string): string {
    match reply
    case Failure(e) => OrElse(Some(e.message), fallback)
    case Reply(_, body) => OrElse(Some(OrElse(body.message, fallback)), fallback)
  }

  predicate Succeeded<T>(reply: Outcome<Envelope<T>>) {
    reply.Reply? && reply.body.success
  }

  const UsersFailed := "Failed to fetch users"
  const UserFailed := "Failed to fetch user"
  const AddFailed := "Failed to add user"
  const UpdateFailed := "Failed to update user"
  const DeleteFailed := "Failed to delete user"

  /** A snapshot of the store. */
  datatype UserState = UserState(users: seq<UserRecord>, selectedUser: Option<UserRecord>, usersLoading: bool,
                                 usersError: Option<string>, totalUsers: int, currentPage: int, totalPages: int)

  /** The state after `fetchUsers` settles with `reply`. */
  function AfterFetch(s: UserState, reply: Outcome<Envelope<seq<UserRecord>>>): (r: UserState)
    ensures r.selectedUser == s.selectedUser && !r.usersLoading
    ensures reply.Failure? ==> r == s.(usersLoading := false, usersError := Some(OrElse(Some(reply.error.message), UsersFailed)))
    ensures reply.Reply? ==> r.usersError.None?
    ensures reply.Reply? ==> var l := ListingOf(reply.status, reply.body);
              && r.users == l.users && r.totalUsers == l.totalUsers
              && r.currentPage == l.currentPage && r.totalPages == l.totalPages
  {
    match reply
    case Failure(e) => s.(usersLoading := false, usersError := Some(OrElse(Some(e.message), UsersFailed)))
    case Reply(status, body) =>
      var l := ListingOf(status, body);
      s.(users := l.users, totalUsers := l.totalUsers, currentPage := l.currentPage, totalPages := l.totalPages,
         usersLoading := false, usersError := None)
  }

  /**
   * The local edit of a successful update, before the refetch: matching users
   * and a matching selected user are merged with the response data; nothing is
   * added or removed.
   */
  lemma UpdateEditsInPlace(s: UserState, userId: string, data: Option<UserRecord>)
    ensures var users := MergeMatching(s.users, userId, data);
            && |users| == |s.users|
            && (forall i :: 0 <= i < |s.users| && !HasId(s.users[i], userId) ==> users[i] == s.users[i])
            && (forall i :: 0 <= i < |s.users| && HasId(s.users[i], userId) && data.Some? ==>
                  forall k :: k in data.value ==> users[i][k] == data.value[k])
  {
  }

  class UserStore {
    var users: seq<UserRecord>
    var selectedUser: Option<UserRecord>
    var usersLoading: bool
    var usersError: Option<string>
    var totalUsers: int
    var currentPage: int
    var totalPages: int

    function View(): UserState
      reads this
    {
      UserState(users, selectedUser, usersLoading, usersError, totalUsers, currentPage, totalPages)
    }

    constructor ()
      ensures View() == UserState([], None, false, None, 0, 1, 0)
    {
      users, selectedUser, usersLoading, usersError := [], None, false, None;
      totalUsers, currentPage, totalPages := 0, 1, 0;
    }

    /** `fetchUsers(params)`; `query` is the query string's pairs. */
    method FetchUsers(params: UserQuery, reply: Outcome<Envelope<seq<UserRecord>>>) returns (query: seq<(string, string)>)
      modifies this
      ensures query == QueryPairs(params)
      ensures View() == AfterFetch(old(View()), reply)
    {
      usersLoading, usersError := true, None;
      query := QueryPairs(params);
      match reply
      case Failure(e) =>
        usersError, usersLoading := Some(OrElse(Some(e.message), UsersFailed)), false;
      case Reply(status, body) =>
        var l := ListingOf(status, body);
        users, totalUsers, currentPage, totalPages := l.users, l.totalUsers, l.currentPage, l.totalPages;
        usersLoading := false;
    }

    /** `clearUsers()`. */
    method ClearUsers()
      modifies this
      ensures View() == old(View()).(users := [], totalUsers := 0, currentPage := 1, totalPages := 0, usersError := None)
    {
      users, totalUsers, currentPage, totalPages, usersError := [], 0, 1, 0, None;
    }

    method SetSelectedUser(u: Option<UserRecord>)
      modifies this
      ensures View() == old(View()).(selectedUser := u)
    {
      selectedUser := u;
    }

    method ClearSelectedUser()
      modifies this
      ensures View() == old(View()).(selectedUser := None)
    {
      selectedUser := None;
    }

    /** `fetchUserById(id)`: a successful answer's `data` becomes the selected user. */
    method FetchUserById(reply: Outcome<Envelope<UserRecord>>)
      modifies this
      ensures Succeeded(reply) ==> View() == old(View()).(selectedUser := reply.body.data, usersLoading := false, usersError := None)
      ensures !Succeeded(reply) ==> View() == old(View()).(usersLoading := false, usersError := Some(
                if reply.Failure? then OrElse(Some(reply.error.message), UserFailed) else UserFailed))
    {
      usersLoading, usersError := true, None;
      if Succeeded(reply) {
        selectedUser, usersLoading := reply.body.data, false;
      } else {
        usersError := Some(if reply.Failure? then OrElse(Some(reply.error.message), UserFailed) else UserFailed);
        usersLoading := false;
      }
    }

    /** `addUser(form)`: on success the list is refetched; on failure the message is recorded and returned. */
    method AddUser(reply: Outcome<Envelope<UserRecord>>, refresh: Outcome<Envelope<seq<UserRecord>>>) returns (ack: Ack)
      modifies this
      ensures ack.success <==> Succeeded(reply)
      ensures ack.success ==> ack.message == reply.body.message
      ensures ack.success ==> View() == AfterFetch(old(View()).(usersError := None), refresh).(usersLoading := false)
      ensures !ack.success ==> ack.message == Some(FailureMessage(reply, AddFailed))
      ensures !ack.success ==> View() == old(View()).(usersLoading := false, usersError := ack.message)
    {
      usersLoading, usersError := true, None;
      if Succeeded(reply) {
        var _ := FetchUsers(NoQuery, refresh);
        usersLoading := false;
        return Ack(true, reply.body.message);
      }
      var errorMessage := FailureMessage(reply, AddFailed);
      usersError, usersLoading := Some(errorMessage), false;
      return Ack(false, Some(errorMessage));
    }

    /**
     * `updateUser(id, form)`: on success matching users and the selected user are
     * merged with the response data, then the list is refetched.
     */
    method UpdateUser(userId: string, reply: Outcome<Envelope<UserRecord>>, refresh: Outcome<Envelope<seq<UserRecord>>>)
      returns (ack: Ack)
      modifies this
      ensures ack.success <==> Succeeded(reply)
      ensures ack.success ==> ack.message == reply.body.message
      ensures ack.success ==>
                View() == AfterFetch(old(View()).(users := MergeMatching(old(users), userId, reply.body.data),
                                                  selectedUser := SelectedAfterUpdate(old(selectedUser), userId, reply.body.data),
                                                  usersLoading := false, usersError := None), refresh)
      ensures !ack.success ==> ack.message == Some(FailureMessage(reply, UpdateFailed))
      ensures !ack.success ==> View() == old(View()).(usersLoading := false, usersError := ack.message)
    {
      usersLoading, usersError := true, None;
      if Succeeded(reply) {
        var data := reply.body.data;
        users := MergeMatching(users, userId, data);
        selectedUser := SelectedAfterUpdate(selectedUser, userId, data);
        usersLoading := false;
        var _ := FetchUsers(NoQuery, refresh);
        return Ack(true, reply.body.message);
      }
      var errorMessage := FailureMessage(reply, UpdateFailed);
      usersError, usersLoading := Some(errorMessage), false;
      return Ack(false, Some(errorMessage));
    }

    /**
     * `deleteUser(id, reason = '')`: `payload` is the request body. On success
     * matching users go, a matching selected user is cleared, then the list is
     * refetched.
     */
    method DeleteUser(userId: string, reason: Option<string>, reply: Outcome<Envelope<UserRecord>>,
                      refresh: Outcome<Envelope<seq<UserRecord>>>)
      returns (payload: DeletePayload, ack: Ack)
      modifies this
      ensures payload == DeleteBody(userId, reason)
      ensures ack.success <==> Succeeded(reply)
      ensures ack.success ==> ack.message == reply.body.message
      ensures ack.success ==>
                View() == AfterFetch(old(View()).(users := WithoutUser(old(users), userId),
                                                  selectedUser := SelectedAfterDelete(old(selectedUser), userId),
                                                  usersLoading := false, usersError := None), refresh)
      ensures !ack.success ==> ack.message == Some(FailureMessage(reply, DeleteFailed))
      ensures !ack.success ==> View() == old(View()).(usersLoading := false, usersError := ack.message)
    {
      usersLoading, usersError := true, None;
      payload := DeleteBody(userId, reason);
      if Succeeded(reply) {
        users := WithoutUser(users, userId);
        selectedUser := SelectedAfterDelete(selectedUser, userId);
        usersLoading := false;
        var _ := FetchUsers(NoQuery, refresh);
        return payload, Ack(true, reply.body.message);
      }
      var errorMessage := FailureMessage(reply, DeleteFailed);
      usersError, usersLoading := Some(errorMessage), false;
      return payload, Ack(false, Some(errorMessage));
    }

    method SetUsersLoading(b: bool)
      modifies this
      ensures View() == old(View()).(usersLoading := b)
    {
      usersLoading := b;
    }

    method SetUsersError(e: Option<string>)
      modifies this
      ensures View() == old(View()).(usersError := e)
    {
      usersError := e;
    }
  }
}
