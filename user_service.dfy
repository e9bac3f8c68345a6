/**
 * src/services/userService.ts: `getUsers` with its row normalisation and demo fallback,
 * and the availability-gated `createUser`, `updateUser` and `deleteUser`.
 *
 * Availability is the probe's verdict (`available`); the request's settled promise is
 * `reply` or `request`. `new Date().toISOString()` is read four times per row: those
 * readings are `clock(i)` for the `i`-th kept row.
 */
module UserService {
  import opened Wrappers
  import opened Js
  import opened Api
  import Lists
  import FallbackService

  /** A user object as the backend sends it; an absent member is `Undefined`. */
  datatype RawUser = RawUser(id: JsValue, email: JsValue, role: JsValue, status: JsValue,
                             created_at: JsValue, last_active: JsValue, pages_count: JsValue)

  /** An element of the `data` array: an object, or anything else (`null`, a number, ...). */
  datatype RawElem = Record(u: RawUser) | NonRecord(v: JsValue)

  /** A normalised user, with both spellings of the three mirrored members. */
  datatype User = User(id: JsValue, email: JsValue, role: JsValue, status: JsValue,
                       created_at: JsValue, createdAt: JsValue, last_active: JsValue,
                       lastActive: JsValue, pages_count: JsValue, pagesCount: JsValue)

  /** The four clock readings one row's normalisation takes, in source order. */
  datatype Stamps = Stamps(createdAt1: string, createdAt2: string, lastActive1: string, lastActive2: string)

  /** `user && user.id`: only objects with a truthy id survive. */
  predicate Kept(e: RawElem)
  {
    e.Record? && Truthy(e.u.id)
  }

  /**
   * The `map` callback: each falsy member takes its default. The two spellings of
   * `pages_count` always agree; the two spellings of a date agree whenever the backend
   * sent that date, and otherwise hold two separate clock readings.
   */
  function Normalize(u: RawUser, t: Stamps): (r: User)
    ensures r.id == u.id
    ensures r.email == (if Truthy(u.email) then u.email else Str(""))
    ensures r.role == (if Truthy(u.role) then u.role else Str("user"))
    ensures r.status == (if Truthy(u.status) then u.status else Str("pending"))
    ensures r.pages_count == r.pagesCount == (if Truthy(u.pages_count) then u.pages_count else Num(0))
    ensures Truthy(u.created_at) ==> r.created_at == r.createdAt == u.created_at
    ensures Truthy(u.last_active) ==> r.last_active == r.lastActive == u.last_active
  {
    User(u.id, Or(u.email, Str("")), Or(u.role, Str("user")), Or(u.status, Str("pending")),
         Or(u.created_at, Str(t.createdAt1)), Or(u.created_at, Str(t.createdAt2)),
         Or(u.last_active, Str(t.lastActive1)), Or(u.last_active, Str(t.lastActive2)),
         Or(u.pages_count, Num(0)), Or(u.pages_count, Num(0)))
  }

  /** `users.filter(user => user && user.id).map(...)`. */
  function NormalizeAll(rows: seq<RawElem>, clock: nat -> Stamps): (r: seq<User>)
    ensures var kept := Lists.Filter(rows, Kept);
      |r| == |kept| && forall i :: 0 <= i < |r| ==> kept[i].Record? && r[i] == Normalize(kept[i].u, clock(i))
  {
    var kept := Lists.Filter(rows, Kept);
    assert forall i :: 0 <= i < |kept| ==> kept[i].Record? by {
      forall i | 0 <= i < |kept| ensures kept[i].Record? {
        assert kept[i] in kept;
      }
    }
    seq(|kept|, i requires 0 <= i < |kept| => Normalize(kept[i].u, clock(i)))
  }

  /**
   * The rows that survive are exactly the objects with a truthy id, in their original
   * order, and every normalised user has a truthy id.
   */
  lemma NormalizeKeepsOrder(rows: seq<RawElem>, clock: nat -> Stamps)
    ensures Lists.IsSubsequence(Lists.Filter(rows, Kept), rows)
    ensures forall e :: e in Lists.Filter(rows, Kept) <==> e in rows && e.Record? && Truthy(e.u.id)
    ensures forall i :: 0 <= i < |NormalizeAll(rows, clock)| ==> Truthy(NormalizeAll(rows, clock)[i].id)
  {
    Lists.FilterIsSubsequence(rows, Kept);
    forall e
      ensures e in Lists.Filter(rows, Kept) <==> e in rows && e.Record? && Truthy(e.u.id)
    {
      Lists.FilterMembership(rows, Kept, e);
    }
    var kept := Lists.Filter(rows, Kept);
    forall i | 0 <= i < |kept|
      ensures Truthy(kept[i].u.id)
    {
      assert kept[i] in kept;
    }
  }

  /** `{users, total, page, limit}`. `users` is the demo envelope object in the demo branch as written. */
  datatype UsersField =
    | Normalised(list: seq<User>)
    | DemoEnvelope(envelope: FallbackService.Paged<FallbackService.DemoUser>)
    | DemoList(demo: seq<FallbackService.DemoUser>)

  datatype UsersData = UsersData(users: UsersField, total: JsValue, page: int, limit: int)

  const MSG_USERS_FAILED: string := "Не удалось получить пользователей"

  /**
   * The demo branch as written: `getDemoUsers().data || []` is the object
   * `{users, total, page, limit}`, not the array of users, and its `length` is undefined.
   */
  function DemoUsersAsWritten(): ApiResponse<UsersData>
  {
    var d := FallbackService.GetDemoUsers().data.value;
    Succeed(UsersData(DemoEnvelope(d), Undefined, 1, 10))
  }

  /** What the demo branch evidently means: the demo users, and their number as total. */
  function DemoUsersIntended(): ApiResponse<UsersData>
  {
    var d := FallbackService.GetDemoUsers().data.value;
    Succeed(UsersData(DemoList(d.items), Num(|d.items|), 1, 10))
  }

  /** As written, the demo answer's `users` is not a list of users and its `total` is not a number. */
  lemma DemoUsersTotalLost()
    ensures var r := DemoUsersAsWritten();
      r.success && r.data.Some? && r.data.value.users.DemoEnvelope? && r.data.value.total == Undefined
  {
  }

  /** Corrected, the demo answer lists the two demo users and reports 2 as total. */
  lemma DemoUsersIntendedTotal()
    ensures var r := DemoUsersIntended();
      r.success && r.data.Some? && r.data.value.users.DemoList? &&
      r.data.value.total == Num(|r.data.value.users.demo|) && |r.data.value.users.demo| == 2
  {
  }

  /**
   * `getUsers()` as written: the demo answer when the API is unreachable or the request
   * rejects, with the whole envelope as `users` and `total` undefined; otherwise the
   * normalised rows when the reply succeeded with truthy data (a non-array counting as
   * no rows), with `total` their number, or the fixed error.
   */
  function GetUsers(available: bool, reply: Outcome<ApiResponse<Payload<RawElem>>>,
                    clock: nat -> Stamps): (r: ApiResponse<UsersData>)
    ensures r.success ==> r.data.Some? && r.data.value.page == 1 && r.data.value.limit == 10
    ensures !r.success ==> r == Failed(MSG_USERS_FAILED)
    ensures !r.success <==>
      available && reply.Resolved? && !(reply.value.success && PayloadTruthy(reply.value.data))
    ensures r.success ==> !r.data.value.users.DemoList?
    ensures r.success && r.data.value.users.Normalised? ==>
      r.data.value.total == Num(|r.data.value.users.list|)
    ensures r.success && r.data.value.users.DemoEnvelope? ==>
      r.data.value.users.envelope == FallbackService.GetDemoUsers().data.value &&
      r.data.value.total == Undefined
    ensures (!available || reply.Rejected?) ==> r == DemoUsersAsWritten()
  {
    if !available then DemoUsersAsWritten()
    else match reply
      case Rejected(_) => DemoUsersAsWritten()
      case Resolved(resp) =>
        if resp.success && PayloadTruthy(resp.data) then
          var rows := if resp.data.value.Items? then resp.data.value.rows else [];
          var users := NormalizeAll(rows, clock);
          Succeed(UsersData(Normalised(users), Num(|users|), 1, 10))
        else Failed(MSG_USERS_FAILED)
  }

  /** Unreachable API: the demo envelope, without looking at any reply. */
  lemma GetUsersOffline(r1: Outcome<ApiResponse<Payload<RawElem>>>, r2: Outcome<ApiResponse<Payload<RawElem>>>,
                        c1: nat -> Stamps, c2: nat -> Stamps)
    ensures GetUsers(false, r1, c1) == GetUsers(false, r2, c2)
    ensures GetUsers(false, r1, c1).data.value.users.DemoEnvelope?
    ensures GetUsers(false, r1, c1).data.value.total == Undefined
  {
  }

  /**
   * `getUsers()` with the demo branch corrected: the same answer as written except that
   * the envelope is replaced by the demo users it holds, so that every successful answer's
   * `total` is the number of users it lists.
   */
  function GetUsersIntended(available: bool, reply: Outcome<ApiResponse<Payload<RawElem>>>,
                            clock: nat -> Stamps): (r: ApiResponse<UsersData>)
    ensures var w := GetUsers(available, reply, clock);
      if w.success && w.data.value.users.DemoEnvelope? then
        r.success && r.data.Some? && r.data.value.users == DemoList(w.data.value.users.envelope.items) &&
        r.data.value.page == w.data.value.page && r.data.value.limit == w.data.value.limit
      else r == w
    ensures r.success ==> r.data.Some? && !r.data.value.users.DemoEnvelope?
    ensures r.success && r.data.value.users.Normalised? ==> r.data.value.total == Num(|r.data.value.users.list|)
    ensures r.success && r.data.value.users.DemoList? ==> r.data.value.total == Num(|r.data.value.users.demo|)
  {
    var w := GetUsers(available, reply, clock);
    if w.success && w.data.value.users.DemoEnvelope? then DemoUsersIntended() else w
  }

  /** A successful reply whose data is truthy but not an array yields no users and total 0. */
  lemma NonArrayDataIsEmpty(v: JsValue, e: Option<string>, m: Option<string>, clock: nat -> Stamps)
    requires Truthy(v)
    ensures GetUsers(true, Resolved(ApiResponse(true, Some(Other(v)), e, m)), clock) ==
            Succeed(UsersData(Normalised([]), Num(0), 1, 10))
  {
  }

  /** A successful array reply is normalised: one user per kept row, `total` their number. */
  lemma ArrayReplyNormalised(rows: seq<RawElem>, e: Option<string>, m: Option<string>, clock: nat -> Stamps)
    ensures var r := GetUsers(true, Resolved(ApiResponse(true, Some(Items(rows)), e, m)), clock);
      r.success && r.data.value.users == Normalised(NormalizeAll(rows, clock)) &&
      r.data.value.total == Num(|Lists.Filter(rows, Kept)|)
  {
  }

  /** The optional filters `getUsers` turns into query parameters. */
  datatype UserFilters = UserFilters(search: Option<string>, status: Option<string>, role: Option<string>)

  /** A filter becomes a query parameter only when it is present and not empty. */
  function QueryParams(f: UserFilters): (params: map<string, string>)
    ensures "search" in params <==> f.search.Some? && f.search.value != ""
    ensures "status" in params <==> f.status.Some? && f.status.value != ""
    ensures "role" in params <==> f.role.Some? && f.role.value != ""
    ensures forall k :: k in params ==> k in {"search", "status", "role"}
    ensures "search" in params ==> params["search"] == f.search.value
    ensures "status" in params ==> params["status"] == f.status.value
    ensures "role" in params ==> params["role"] == f.role.value
  {
    var p1 := if f.search.Some? && f.search.value != "" then map["search" := f.search.value] else map[];
    var p2 := if f.status.Some? && f.status.value != "" then p1["status" := f.status.value] else p1;
    if f.role.Some? && f.role.value != "" then p2["role" := f.role.value] else p2
  }

  // ---------------------------------------------------------------------------
  // Mutations

  const MSG_CREATE_OFFLINE: string := "API недоступен. Создание пользователей в демо режиме отключено."
  const MSG_UPDATE_OFFLINE: string := "API недоступен. Обновление пользователей в демо режиме отключено."
  const MSG_DELETE_OFFLINE: string := "API недоступен. Удаление пользователей в демо режиме отключено."
  /** The `catch` messages, which only a thrown probe could reach: the request is not awaited. */
  const MSG_CREATE_FAILED: string := "Ошибка создания пользователя"
  const MSG_UPDATE_FAILED: string := "Ошибка обновления пользователя"
  const MSG_DELETE_FAILED: string := "Ошибка удаления пользователя"

  /** The body `createUser` posts: `action: 'create'`, a falsy password or role replaced by its default. */
  datatype CreateBody = CreateBody(action: string, email: string, password: string, role: string)

  function CreateUserBody(email: string, password: Option<string>, role: Option<string>): (b: CreateBody)
    ensures b.action == "create" && b.email == email
    ensures b.password == (if password.Some? && password.value != "" then password.value else "defaultpassword123")
    ensures b.role == (if role.Some? && role.value != "" then role.value else "user")
  {
    CreateBody("create", email,
               if password.Some? && password.value != "" then password.value else "defaultpassword123",
               if role.Some? && role.value != "" then role.value else "user")
  }

  function CreateUser<T>(available: bool, request: Outcome<ApiResponse<T>>): Outcome<ApiResponse<T>>
  {
    Gated(available, Failed(MSG_CREATE_OFFLINE), request)
  }

  function UpdateUser<T>(available: bool, request: Outcome<ApiResponse<T>>): Outcome<ApiResponse<T>>
  {
    Gated(available, Failed(MSG_UPDATE_OFFLINE), request)
  }

  function DeleteUser<T>(available: bool, request: Outcome<ApiResponse<T>>): Outcome<ApiResponse<T>>
  {
    Gated(available, Failed(MSG_DELETE_OFFLINE), request)
  }

  /**
   * Offline, each mutation fails with its own message and sends nothing; online, it
   * passes the request's outcome through, a rejection included.
   */
  lemma MutationsGated<T>(request: Outcome<ApiResponse<T>>)
    ensures CreateUser(false, request) == Resolved(Failed(MSG_CREATE_OFFLINE))
    ensures UpdateUser(false, request) == Resolved(Failed(MSG_UPDATE_OFFLINE))
    ensures DeleteUser(false, request) == Resolved(Failed(MSG_DELETE_OFFLINE))
    ensures CreateUser(true, request) == UpdateUser(true, request) == DeleteUser(true, request) == request
  {
  }
}
