/**
 * `asyncHandler(fn)`: wraps a route handler so that a rejection of the
 * promise it returns is forwarded to `next` instead of going unhandled.
 *
 * A run of the wrapped handler is described by what the handler did itself
 * (its effects) and how its call ended; the wrapper's own contribution is
 * the `.catch(next)` at the end.
 */
module AsyncHandlers {
  import opened Js
  import opened Http

  /** How a call `fn(req, res, next)` ended. */
  datatype Settlement =
    | ReturnedValue(v: JsValue)  // a plain value: Promise.resolve makes it a fulfilled promise
    | Fulfilled(v: JsValue)      // a promise that resolved
    | Rejected(reason: JsValue)  // a promise that rejected
    | Pending                    // a promise that never settles
    | ThrewSync(thrown: JsValue) // a synchronous throw, before Promise.resolve is reached

  /** What the handler did and how it ended. */
  datatype Invocation = Invocation(effects: seq<Effect>, settlement: Settlement)

  /** What the wrapped handler does, and an exception escaping it synchronously, if any. */
  datatype WrappedRun = WrappedRun(effects: seq<Effect>, escaped: Option<JsValue>)

  /** `asyncHandler(fn)(req, res, next)`. */
  function AsyncHandler(fn: Request -> Invocation, req: Request): (w: WrappedRun)
    ensures |w.effects| >= |fn(req).effects| && w.effects[..|fn(req).effects|] == fn(req).effects
    ensures CountSend(w.effects) == CountSend(fn(req).effects)
    ensures fn(req).settlement.Rejected? ==>
      && CountNext(w.effects) == CountNext(fn(req).effects) + 1
      && w.effects[|w.effects| - 1] == CallNext(Some(fn(req).settlement.reason))
      && w.escaped == None
    ensures !fn(req).settlement.Rejected? ==> w.effects == fn(req).effects
    ensures w.escaped.Some? <==> fn(req).settlement.ThrewSync?
  {
    var run := fn(req);
    match run.settlement
    case Rejected(e) =>
      CountAppend(run.effects, [CallNext(Some(e))]);
      assert (run.effects + [CallNext(Some(e))])[..|run.effects|] == run.effects;
      WrappedRun(run.effects + [CallNext(Some(e))], None)
    case ThrewSync(e) => WrappedRun(run.effects, Some(e))
    case _ => WrappedRun(run.effects, None)
  }

  /**
   * The discipline of the controllers: a handler that ends normally has
   * written exactly one response, and one that rejects has written none and
   * not called next.
   */
  predicate WritesOnceOrRejects(run: Invocation)
  {
    || ((run.settlement.Fulfilled? || run.settlement.ReturnedValue?) && |run.effects| == 1 && run.effects[0].Send?)
    || (run.settlement.Rejected? && run.effects == [])
  }

  /**
   * For such a handler the wrapped run does exactly one of the two: write
   * the response, or forward the rejection to next unchanged.
   */
  lemma ExactlyOneOutcome(fn: Request -> Invocation, req: Request)
    requires WritesOnceOrRejects(fn(req))
    ensures var w := AsyncHandler(fn, req);
      && |w.effects| == 1
      && w.escaped == None
      && (w.effects[0].Send? <==> !fn(req).settlement.Rejected?)
      && (fn(req).settlement.Rejected? ==> w.effects[0] == CallNext(Some(fn(req).settlement.reason)))
  {
  }

  /** The wrapper itself never calls next for a handler whose promise fulfils. */
  lemma FulfilledIsNotForwarded(fn: Request -> Invocation, req: Request)
    requires fn(req).settlement.Fulfilled? || fn(req).settlement.ReturnedValue?
    ensures CountNext(AsyncHandler(fn, req).effects) == CountNext(fn(req).effects)
  {
  }

  /** The test scenario: a handler whose store call rejects with TEST_ERROR. */
  lemma RejectionReachesNextUnchanged(testError: JsValue, req: Request)
    ensures var w := AsyncHandler(_ => Invocation([], Rejected(testError)), req);
      && w.effects == [CallNext(Some(testError))]
      && Get(w.effects[0].arg.value, "name") == Get(testError, "name")
      && Get(w.effects[0].arg.value, "message") == Get(testError, "message")
  {
  }
}
