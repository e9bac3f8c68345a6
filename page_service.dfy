/**
 * src/services/pageService.ts: `getPages` with its row normalisation and fallbacks, and
 * the availability-gated `createPage`.
 *
 * `new Date().toISOString()` is read four times per row: those readings are `clock(i)`
 * for the `i`-th row (and `clock(0)` for the demo page).
 */
module PageService {
  import opened Wrappers
  import opened Js
  import opened Api

  /** A page object as the backend sends it; an absent member is `Undefined`. */
  datatype RawPage = RawPage(id: JsValue, user_id: JsValue, title: JsValue, content: JsValue,
                             slug: JsValue, is_public: JsValue, views_count: JsValue,
                             created_at: JsValue, updated_at: JsValue, userEmail: JsValue,
                             user_email: JsValue)

  /**
   * An element of the `data` array: an object; `null` or `undefined`, whose member access
   * throws; or another primitive, all of whose members read as `undefined`.
   */
  datatype RawElem = PageObject(p: RawPage) | Nullish | Primitive(v: JsValue)

  const NO_MEMBERS: RawPage := RawPage(Undefined, Undefined, Undefined, Undefined, Undefined,
                                       Undefined, Undefined, Undefined, Undefined, Undefined, Undefined)

  datatype Page = Page(id: JsValue, user_id: JsValue, title: JsValue, content: JsValue, slug: JsValue,
                       is_public: bool, views_count: JsValue, created_at: JsValue, updated_at: JsValue,
                       createdAt: JsValue, updatedAt: JsValue, userEmail: JsValue)

  /** The four clock readings one row takes, in source order. */
  datatype Stamps = Stamps(createdAt1: string, updatedAt1: string, createdAt2: string, updatedAt2: string)

  /**
   * The `map` callback: `is_public` becomes a boolean, each other falsy member takes its
   * default, and the e-mail is taken from `userEmail`, else `user_email`, else empty.
   */
  function Normalize(p: RawPage, t: Stamps): (r: Page)
    ensures r.id == p.id && r.user_id == p.user_id
    ensures r.is_public <==> Truthy(p.is_public)
    ensures r.title == (if Truthy(p.title) then p.title else Str(""))
    ensures r.content == (if Truthy(p.content) then p.content else Str(""))
    ensures r.slug == (if Truthy(p.slug) then p.slug else Str(""))
    ensures r.views_count == (if Truthy(p.views_count) then p.views_count else Num(0))
    ensures Truthy(p.created_at) ==> r.created_at == r.createdAt == p.created_at
    ensures Truthy(p.updated_at) ==> r.updated_at == r.updatedAt == p.updated_at
    ensures r.userEmail == (if Truthy(p.userEmail) then p.userEmail
                            else if Truthy(p.user_email) then p.user_email else Str(""))
  {
    Page(p.id, p.user_id, Or(p.title, Str("")), Or(p.content, Str("")), Or(p.slug, Str("")),
         Truthy(p.is_public), Or(p.views_count, Num(0)),
         Or(p.created_at, Str(t.createdAt1)), Or(p.updated_at, Str(t.updatedAt1)),
         Or(p.created_at, Str(t.createdAt2)), Or(p.updated_at, Str(t.updatedAt2)),
         Or(Or(p.userEmail, p.user_email), Str("")))
  }

  /** `pages.map(...)`, which throws (None) as soon as one element is `null` or `undefined`. */
  function NormalizeAll(rows: seq<RawElem>, clock: nat -> Stamps): (r: Option<seq<Page>>)
    ensures r.None? <==> exists i :: 0 <= i < |rows| && rows[i].Nullish?
    ensures r.Some? ==> |r.value| == |rows|
    ensures r.Some? ==> forall i :: 0 <= i < |rows| ==>
      r.value[i] == Normalize(if rows[i].PageObject? then rows[i].p else NO_MEMBERS, clock(i))
  {
    if exists i :: 0 <= i < |rows| && rows[i].Nullish? then None
    else Some(seq(|rows|, i requires 0 <= i < |rows| =>
                Normalize(if rows[i].PageObject? then rows[i].p else NO_MEMBERS, clock(i))))
  }

  datatype PagesData = PagesData(pages: seq<Page>, total: int, page: int, limit: int)

  const MSG_PAGES_FAILED: string := "Не удалось получить страницы"

  /** The single demo page served while the API is unreachable. */
  function DemoPage(t: Stamps): Page
  {
    Page(Num(1), Num(1), Str("Демо страница 1"), Str("Это демонстрационная страница"),
         Str("demo-page-1"), true, Num(150), Str(t.createdAt1), Str(t.updatedAt1),
         Str(t.createdAt2), Str(t.updatedAt2), Str("demo@example.com"))
  }

  /** What the `catch` answers: success with no pages. */
  const CAUGHT: ApiResponse<PagesData> := Succeed(PagesData([], 0, 1, 10))

  /**
   * `getPages()`: the demo page when the API is unreachable; an empty success when the
   * request rejects or the normalisation throws; the normalised rows when the reply
   * succeeded with truthy data (a non-array counting as no rows); or the fixed error.
   */
  function GetPages(available: bool, reply: Outcome<ApiResponse<Payload<RawElem>>>,
                    clock: nat -> Stamps): (r: ApiResponse<PagesData>)
    ensures r.success ==> r.data.Some? && r.data.value.total == |r.data.value.pages| &&
                          r.data.value.page == 1 && r.data.value.limit == 10
    ensures !r.success ==> r == Failed(MSG_PAGES_FAILED)
    ensures !r.success <==>
      available && reply.Resolved? && !(reply.value.success && PayloadTruthy(reply.value.data))
    ensures available && reply.Rejected? ==> r == CAUGHT
    ensures !available ==> r.data.value.pages == [DemoPage(clock(0))]
  {
    if !available then Succeed(PagesData([DemoPage(clock(0))], 1, 1, 10))
    else match reply
      case Rejected(_) => CAUGHT
      case Resolved(resp) =>
        if resp.success && PayloadTruthy(resp.data) then
          var rows := if resp.data.value.Items? then resp.data.value.rows else [];
          match NormalizeAll(rows, clock)
          case None => CAUGHT
          case Some(pages) => Succeed(PagesData(pages, |pages|, 1, 10))
        else Failed(MSG_PAGES_FAILED)
  }

  /**
   * A successful array reply keeps every row, in order, unless one row is `null` or
   * `undefined`: then the whole answer is the empty success of the `catch`.
   */
  lemma ArrayReplyNormalised(rows: seq<RawElem>, e: Option<string>, m: Option<string>, clock: nat -> Stamps)
    ensures var r := GetPages(true, Resolved(ApiResponse(true, Some(Items(rows)), e, m)), clock);
      r.success &&
      ((exists i :: 0 <= i < |rows| && rows[i].Nullish?) ==> r == CAUGHT) &&
      ((forall i :: 0 <= i < |rows| ==> !rows[i].Nullish?) ==>
        |r.data.value.pages| == |rows| &&
        forall i :: 0 <= i < |rows| && rows[i].PageObject? ==>
          r.data.value.pages[i] == Normalize(rows[i].p, clock(i)))
  {
  }

  /** Unreachable API: exactly one demo page, without looking at any reply. */
  lemma GetPagesOffline(r1: Outcome<ApiResponse<Payload<RawElem>>>, r2: Outcome<ApiResponse<Payload<RawElem>>>,
                        clock: nat -> Stamps)
    ensures GetPages(false, r1, clock) == GetPages(false, r2, clock)
    ensures GetPages(false, r1, clock).data.value.pages == [DemoPage(clock(0))]
  {
  }

  /** The optional filters `getPages` turns into query parameters. */
  datatype PageFilters = PageFilters(search: Option<string>, user_id: Option<int>)

  /** A filter becomes a parameter when truthy: a non-empty search, a non-zero user id in decimal. */
  function QueryParams(f: PageFilters): (params: map<string, string>)
    ensures "search" in params <==> f.search.Some? && f.search.value != ""
    ensures "user_id" in params <==> f.user_id.Some? && f.user_id.value != 0
    ensures forall k :: k in params ==> k in {"search", "user_id"}
    ensures "search" in params ==> params["search"] == f.search.value
    ensures "user_id" in params ==> ParseInt(params["user_id"]) == Num(f.user_id.value)
  {
    var p1 := if f.search.Some? && f.search.value != "" then map["search" := f.search.value] else map[];
    if f.user_id.Some? && f.user_id.value != 0 then
      ParseIntShowInt(f.user_id.value);
      p1["user_id" := ShowInt(f.user_id.value)]
    else p1
  }

  const MSG_CREATE_OFFLINE: string := "API недоступен. Создание страниц в демо режиме отключено."
  /** The `catch` message, which a rejected request never reaches: it is not awaited. */
  const MSG_CREATE_FAILED: string := "Ошибка создания страницы"

  function CreatePage<T>(available: bool, request: Outcome<ApiResponse<T>>): Outcome<ApiResponse<T>>
  {
    Gated(available, Failed(MSG_CREATE_OFFLINE), request)
  }

  /** Offline, `createPage` fails with its message; online, a rejection escapes instead of the `catch` message. */
  lemma CreatePageGated<T>(request: Outcome<ApiResponse<T>>, error: Option<string>)
    ensures CreatePage(false, request) == Resolved(Failed(MSG_CREATE_OFFLINE))
    ensures CreatePage<T>(true, Rejected(error)) == Rejected(error)
    ensures GatedAwaited<T>(true, Failed(MSG_CREATE_OFFLINE), Rejected(error), Failed(MSG_CREATE_FAILED)) ==
            Resolved(Failed(MSG_CREATE_FAILED))
  {
  }
}
