/**
 * The client's view of a request: the `ApiResponse<T>` record the services return, and
 * the settled promise a call produces.
 *
 * A service method that is `async` and does `return apiService.x(...)` inside `try`
 * returns the request's promise without awaiting it, so a rejection of that promise
 * settles the method's own promise as rejected: the `catch` block never sees it.
 * `Gated` is that shape, as the services write it; `GatedAwaited` is the same method with
 * `return await`, where the `catch` does run.
 */
module Api {
  import opened Wrappers
  import opened Js

  /**
   * `{success, data?, error?, message?}`: None stands for a member that is absent or
   * `undefined`.
   */
  datatype ApiResponse<T> = ApiResponse(success: bool, data: Option<T>, error: Option<string>,
                                        message: Option<string>)

  /** `response.data` when present: an array, or some other value. */
  datatype Payload<T> = Items(rows: seq<T>) | Other(v: JsValue)

  /** JavaScript truthiness of `response.data`: every array is truthy. */
  predicate PayloadTruthy<T>(d: Option<Payload<T>>)
  {
    d.Some? && (d.value.Items? || Truthy(d.value.v))
  }

  /** How a promise settles: with a value, or rejected with an `Error` message (None: not an `Error`). */
  datatype Outcome<T> = Resolved(value: T) | Rejected(error: Option<string>)

  function Succeed<T>(data: T): ApiResponse<T>
  {
    ApiResponse(true, Some(data), None, None)
  }

  function Failed<T>(error: string): ApiResponse<T>
  {
    ApiResponse(false, None, Some(error), None)
  }

  /**
   * `if (!isApiAvailable) return offline; return request;` inside `try`, the request
   * not awaited. What follows from it is stated by `RejectionEscapesCatch` and
   * `OfflineIgnoresRequest`.
   */
  function Gated<T>(available: bool, offline: ApiResponse<T>, request: Outcome<ApiResponse<T>>)
    : Outcome<ApiResponse<T>>
  {
    if !available then Resolved(offline) else request
  }

  /** The same method with `return await request`, so that the `catch` turns a rejection into `recovered`. */
  function GatedAwaited<T>(available: bool, offline: ApiResponse<T>, request: Outcome<ApiResponse<T>>,
                           recovered: ApiResponse<T>): (r: Outcome<ApiResponse<T>>)
    ensures r.Resolved?
    ensures !available ==> r == Resolved(offline)
    ensures available && request.Resolved? ==> r == request
    ensures available && request.Rejected? ==> r == Resolved(recovered)
  {
    if !available then Resolved(offline)
    else match request
      case Resolved(v) => Resolved(v)
      case Rejected(_) => Resolved(recovered)
  }

  /**
   * While the API is reachable, a rejected request escapes the un-awaited form, whatever
   * its `catch` would have answered; the awaited form answers with the `catch` instead.
   */
  lemma RejectionEscapesCatch<T>(offline: ApiResponse<T>, error: Option<string>, recovered: ApiResponse<T>)
    ensures Gated(true, offline, Rejected(error)).Rejected?
    ensures GatedAwaited(true, offline, Rejected(error), recovered) == Resolved(recovered)
  {
  }

  /** When the API is unreachable, neither form looks at the request. */
  lemma OfflineIgnoresRequest<T>(offline: ApiResponse<T>, r1: Outcome<ApiResponse<T>>,
                                 r2: Outcome<ApiResponse<T>>, recovered: ApiResponse<T>)
    ensures Gated(false, offline, r1) == Gated(false, offline, r2)
    ensures GatedAwaited(false, offline, r1, recovered) == GatedAwaited(false, offline, r2, recovered)
  {
  }
}
