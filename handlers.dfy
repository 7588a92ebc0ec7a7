/**
 * The completion handlers of src/pgtools.es6.js. `makeQueryCallback` and
 * `makeSensitiveQueryCallback` return a closure over the query tag, the
 * parameter set and the clock reading at creation; here that closure is the
 * value `Handler`, and invoking it is the function `Complete`, which returns the
 * effects the closure performs, in order: one metric, then the caller's callback.
 */
module Handlers {
  import opened Optional
  import opened Errors
  import Json

  /**
   * What a completion handler captured: the query tag, the parameter set and
   * `start`, the clock reading when the factory ran. The variant says which
   * factory built it.
   */
  datatype Handler =
    | QueryCallback(tag: string, data: Json.Value, start: int)
    | SensitiveQueryCallback(tag: string, data: Json.Value, start: int)

  /** The metric payload: the elapsed time and, on the non-sensitive path only, the serialised parameters. */
  datatype Metric = Metric(time: int, data: Option<string>)

  /** An effect of a completion handler: a call to `log.metric(payload, tag)`, or to the caller's callback. */
  datatype Event<R> =
    | LogMetric(payload: Metric, tag: string)
    | Callback(err: Option<WrappedError>, results: R)

  /** What the handler passes to `wrapError` as the parameter set. */
  function ClassifierData(h: Handler): (data: Json.Value)
    ensures h.SensitiveQueryCallback? ==> data == Json.RedactionMarker
    ensures h.QueryCallback? ==> data == h.data
  {
    match h
    case QueryCallback(_, data, _) => data
    case SensitiveQueryCallback(_, _, _) => Json.RedactionMarker
  }

  /**
   * Invoking the handler with `(err, results)` when the clock reads `now`: it
   * logs exactly one metric, tagged with the query tag, and then calls the
   * callback with the results unchanged and the error wrapped when there is one.
   */
  function Complete<R>(h: Handler, now: int, err: Option<RawError>, results: R,
                       stringify: Json.Value -> string): (trace: seq<Event<R>>)
    ensures |trace| == 2 && trace[0].LogMetric? && trace[1].Callback?
    ensures trace[0].tag == h.tag && trace[0].payload.time == now - h.start
    ensures trace[0].payload.data.Some? <==> h.QueryCallback?
    ensures h.QueryCallback? ==> trace[0].payload.data == Some(stringify(h.data))
    ensures trace[1].results == results
    ensures trace[1].err.Some? <==> err.Some?
    ensures err.Some? ==> trace[1].err.value == WrapError(err.value, h.tag, ClassifierData(h), stringify)
  {
    var payload := match h
      case QueryCallback(_, data, start) => Metric(now - start, Some(stringify(data)))
      case SensitiveQueryCallback(_, _, start) => Metric(now - start, None);
    var wrapped := if err.Some? then Some(WrapError(err.value, h.tag, ClassifierData(h), stringify)) else None;
    [LogMetric(payload, h.tag), Callback(wrapped, results)]
  }

  /**
   * A sensitive handler's effects do not depend on the parameter set it
   * captured: neither the metric nor the wrapped error can reveal it.
   */
  lemma SensitiveHidesData<R>(tag: string, d1: Json.Value, d2: Json.Value, start: int, now: int,
                              err: Option<RawError>, results: R, stringify: Json.Value -> string)
    ensures Complete(SensitiveQueryCallback(tag, d1, start), now, err, results, stringify)
            == Complete(SensitiveQueryCallback(tag, d2, start), now, err, results, stringify)
  {
  }

  /**
   * On the sensitive path a generic error carries the serialised redaction
   * marker; on the other path it carries the serialised parameters. Either way
   * its query is the handler's tag.
   */
  lemma GenericErrorData<R>(h: Handler, now: int, e: RawError, results: R, stringify: Json.Value -> string)
    requires WrapError(e, h.tag, ClassifierData(h), stringify).DBError?
    ensures var err := Complete(h, now, Some(e), results, stringify)[1].err.value;
            err.DBError? && err.query == h.tag && err.message == e.message &&
            err.data == stringify(if h.SensitiveQueryCallback? then Json.RedactionMarker else h.data)
  {
  }
}
