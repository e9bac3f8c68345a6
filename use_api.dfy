/**
 * src/hooks/useApi.ts: the `useApi` query hook and the `useMutation` hook.
 *
 * A hook's `useState` cells become the fields of a class. The `await` splits `fetchData`
 * in two: `Begin` runs before the call, `Settle` when its promise has settled (the
 * settled promise is the parameter `outcome`). The optional callbacks' calls are kept as
 * logs; when a callback is not given, its log is simply never looked at.
 */
module UseApi {
  import opened Wrappers
  import opened Js
  import opened Api

  const UNKNOWN_ERROR: string := "Unknown error occurred"
  const TITLE_ERROR: string := "Ошибка"
  const TITLE_SUCCESS: string := "Успех"

  /** A toast: title, description, and whether it is the destructive variant. */
  datatype Toast = Toast(title: string, description: string, destructive: bool)

  /** `response.error || 'Unknown error occurred'`: an absent or empty error is replaced. */
  function ResponseError(error: Option<string>): (m: string)
    ensures m != ""
    ensures error.Some? && error.value != "" ==> m == error.value
  {
    if error.Some? && error.value != "" then error.value else UNKNOWN_ERROR
  }

  /** `err instanceof Error ? err.message : 'Unknown error occurred'`: an `Error`'s message is kept as is, even empty. */
  function RejectionError(error: Option<string>): (m: string)
    ensures error.Some? ==> m == error.value
    ensures error.None? ==> m == UNKNOWN_ERROR
  {
    if error.Some? then error.value else UNKNOWN_ERROR
  }

  /** `response.data` read as a JavaScript value: absent is `undefined`. */
  function DataValue(data: Option<JsValue>): JsValue
  {
    if data.Some? then data.value else Undefined
  }

  /** What a settled call means for the hook: new data, or an error message. */
  datatype Effect = Stored(data: JsValue) | Reported(message: string)

  /** The branch `fetchData` takes: only a successful response with truthy data is stored. */
  function EffectOf(outcome: Outcome<ApiResponse<JsValue>>): (e: Effect)
    ensures e.Stored? <==> outcome.Resolved? && outcome.value.success && Truthy(DataValue(outcome.value.data))
    ensures e.Stored? ==> Truthy(e.data) && e.data == outcome.value.data.value
    ensures outcome.Resolved? && e.Reported? ==> e.message != ""
  {
    match outcome
    case Resolved(resp) =>
      if resp.success && Truthy(DataValue(resp.data)) then Stored(DataValue(resp.data))
      else Reported(ResponseError(resp.error))
    case Rejected(err) => Reported(RejectionError(err))
  }

  /** The state of one `useApi` call site. */
  class Query {
    var data: JsValue
    var loading: bool
    var error: Option<string>
    var toasts: seq<Toast>
    var successCalls: seq<JsValue>
    var errorCalls: seq<string>

    /** The initial render: no data, loading, no error. */
    constructor ()
      ensures data == Null && loading && error.None?
      ensures toasts == [] && successCalls == [] && errorCalls == []
    {
      data := Null;
      loading := true;
      error := None;
      toasts := [];
      successCalls := [];
      errorCalls := [];
    }

    /** `setLoading(true); setError(null)` before the call. */
    method Begin()
      modifies this
      ensures loading && error.None?
      ensures data == old(data) && toasts == old(toasts)
      ensures successCalls == old(successCalls) && errorCalls == old(errorCalls)
    {
      loading := true;
      error := None;
    }

    /**
     * After the call: store the data and tell `onSuccess`, or keep the old data, record
     * the message, tell `onError` and show a destructive toast; loading ends either way.
     */
    method Settle(outcome: Outcome<ApiResponse<JsValue>>)
      modifies this
      ensures !loading
      ensures match EffectOf(outcome)
        case Stored(d) =>
          data == d && error == old(error) && toasts == old(toasts) &&
          successCalls == old(successCalls) + [d] && errorCalls == old(errorCalls)
        case Reported(m) =>
          data == old(data) && error == Some(m) && toasts == old(toasts) + [Toast(TITLE_ERROR, m, true)] &&
          successCalls == old(successCalls) && errorCalls == old(errorCalls) + [m]
    {
      match outcome {
        case Resolved(resp) =>
          if resp.success && Truthy(DataValue(resp.data)) {
            data := DataValue(resp.data);
            successCalls := successCalls + [data];
          } else {
            var m := ResponseError(resp.error);
            error := Some(m);
            errorCalls := errorCalls + [m];
            toasts := toasts + [Toast(TITLE_ERROR, m, true)];
          }
        case Rejected(err) =>
          var m := RejectionError(err);
          error := Some(m);
          errorCalls := errorCalls + [m];
          toasts := toasts + [Toast(TITLE_ERROR, m, true)];
      }
      loading := false;
    }

    /**
     * One whole `fetchData`: afterwards the hook either holds fresh truthy data and no
     * error, or keeps its previous data and holds the error, with one toast more.
     */
    method FetchData(outcome: Outcome<ApiResponse<JsValue>>)
      modifies this
      ensures !loading
      ensures EffectOf(outcome).Stored? ==>
        data == EffectOf(outcome).data && Truthy(data) && error.None? && toasts == old(toasts)
      ensures EffectOf(outcome).Reported? ==>
        data == old(data) && error == Some(EffectOf(outcome).message) && |toasts| == |old(toasts)| + 1
    {
      Begin();
      Settle(outcome);
    }
  }

  /** What `mutate` resolves to: `response.data || null` on success, `null` otherwise. */
  function MutateResult(outcome: Outcome<ApiResponse<JsValue>>): (r: JsValue)
    ensures r != Null ==> outcome.Resolved? && outcome.value.success && Truthy(r)
    ensures outcome.Resolved? && outcome.value.success && Truthy(DataValue(outcome.value.data)) ==>
      r == outcome.value.data.value
  {
    match outcome
    case Resolved(resp) => if resp.success then Or(DataValue(resp.data), Null) else Null
    case Rejected(_) => Null
  }

  /** The state of one `useMutation` call site. */
  class Mutation {
    var loading: bool
    var error: Option<string>
    var toasts: seq<Toast>

    constructor ()
      ensures !loading && error.None? && toasts == []
    {
      loading := false;
      error := None;
      toasts := [];
    }

    /**
     * `mutate(params)` once its call has settled. Success clears the error and shows a
     * success toast only when the response carries a non-empty message; failure records
     * the message and shows a destructive toast.
     */
    method Mutate(outcome: Outcome<ApiResponse<JsValue>>) returns (r: JsValue)
      modifies this
      ensures r == MutateResult(outcome)
      ensures !loading
      ensures outcome.Resolved? && outcome.value.success ==>
        error.None? &&
        toasts == old(toasts) + (if outcome.value.message.Some? && outcome.value.message.value != ""
                                 then [Toast(TITLE_SUCCESS, outcome.value.message.value, false)] else [])
      ensures outcome.Resolved? && !outcome.value.success ==>
        error == Some(ResponseError(outcome.value.error)) &&
        toasts == old(toasts) + [Toast(TITLE_ERROR, ResponseError(outcome.value.error), true)]
      ensures outcome.Rejected? ==>
        error == Some(RejectionError(outcome.error)) &&
        toasts == old(toasts) + [Toast(TITLE_ERROR, RejectionError(outcome.error), true)]
    {
      loading := true;
      error := None;
      match outcome {
        case Resolved(resp) =>
          if resp.success {
            if resp.message.Some? && resp.message.value != "" {
              toasts := toasts + [Toast(TITLE_SUCCESS, resp.message.value, false)];
            }
            r := Or(DataValue(resp.data), Null);
          } else {
            var m := ResponseError(resp.error);
            error := Some(m);
            toasts := toasts + [Toast(TITLE_ERROR, m, true)];
            r := Null;
          }
        case Rejected(err) =>
          var m := RejectionError(err);
          error := Some(m);
          toasts := toasts + [Toast(TITLE_ERROR, m, true)];
          r := Null;
      }
      loading := false;
    }
  }

  /**
   * The hooks never report a failed response silently: its message is never empty, and
   * a successful response with falsy data is reported as `Unknown error occurred`.
   */
  lemma FailuresAreReported(resp: ApiResponse<JsValue>)
    ensures !resp.success ==> EffectOf(Resolved(resp)) == Reported(ResponseError(resp.error))
    ensures resp.success && !Truthy(DataValue(resp.data)) ==>
      EffectOf(Resolved(resp)) == Reported(ResponseError(resp.error)) && ResponseError(resp.error) != ""
    ensures resp.success && resp.error.None? && !Truthy(DataValue(resp.data)) ==>
      EffectOf(Resolved(resp)) == Reported(UNKNOWN_ERROR)
  {
  }
}
