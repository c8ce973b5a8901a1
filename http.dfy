/**
 * What a middleware sees of an Express request and what it can do next:
 * call `next` (with or without an error) or write `res.status(s).json(body)`.
 */
module Http {
  import opened Js

  /** The request fields the core reads; `traceId` is attached at ingress. */
  datatype Request = Request(httpMethod: JsValue, url: JsValue, traceId: JsValue, params: JsValue, body: JsValue)

  /** One observable step of a middleware. */
  datatype Effect =
    | CallNext(arg: Option<JsValue>)      // next() or next(err)
    | Send(status: JsValue, body: JsValue) // res.status(status).json(body)

  /** An object literal `{ ... }` written as a response body or constructor argument. */
  function Literal(props: seq<Prop>): JsValue
  {
    Obj(PlainObject, props)
  }

  /** The `{ message, statusCode }` argument the middleware passes to ErrorResponse. */
  function MessageAndStatus(message: string, statusCode: SafeInt): (fields: JsValue)
    ensures Get(fields, "message") == Str(message) && Get(fields, "statusCode") == Num(statusCode)
  {
    var props := [Prop("message", Str(message)), Prop("statusCode", Num(statusCode))];
    LookupAt(props, 1);
    Literal(props)
  }

  /** How many effects are calls to `next`. */
  function CountNext(effects: seq<Effect>): nat
  {
    if effects == [] then 0
    else (if effects[0].CallNext? then 1 else 0) + CountNext(effects[1..])
  }

  /** How many effects are responses written. */
  function CountSend(effects: seq<Effect>): nat
  {
    if effects == [] then 0
    else (if effects[0].Send? then 1 else 0) + CountSend(effects[1..])
  }

  lemma {:induction false} CountAppend(a: seq<Effect>, b: seq<Effect>)
    ensures CountNext(a + b) == CountNext(a) + CountNext(b)
    ensures CountSend(a + b) == CountSend(a) + CountSend(b)
  {
    if a != [] {
      assert (a + b)[0] == a[0] && (a + b)[1..] == a[1..] + b;
      CountAppend(a[1..], b);
    } else {
      assert a + b == b;
    }
  }
}
