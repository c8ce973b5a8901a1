/**
 * The middleware mounted by app.js: the older malformed-JSON translator
 * (built on the positional ErrorResponse), the 404 responder for unmatched
 * routes, and the terminal handler that always answers 500.
 */
module LegacyMiddleware {
  import opened Js
  import opened Http
  import opened ErrorResponses

  const InvalidJsonMessage: string := "Invalid JSON body provided."
  const InternalErrorMessage: string := "Internal server error."

  /** `errorHandler(err, req, res, next)`: one fixed 500 response, never a call to next. */
  function ErrorHandler(err: JsValue, req: Request): (r: Effect)
    ensures r.Send? && r.status == Num(500)
    ensures Get(r.body, "success") == Bool(false) && Get(r.body, "message") == Str(InternalErrorMessage)
    ensures Keys(r.body.props) == ["success", "message"]
  {
    var props := [Prop("success", Bool(false)), Prop("message", Str(InternalErrorMessage))];
    LookupAt(props, 1);
    Send(Num(500), Literal(props))
  }

  /** The response depends on neither the error nor the request: nothing leaks. */
  lemma ErrorHandlerIgnoresItsInputs(e1: JsValue, e2: JsValue, req1: Request, req2: Request)
    ensures ErrorHandler(e1, req1) == ErrorHandler(e2, req2)
  {
  }

  predicate IsJsonBodyError(err: JsValue)
  {
    Truthy(err) && InstanceOf(err, SyntaxErrorClass) && HasProperty(err, "body")
  }

  /**
   * `invalidJSONBodyHandler(err, req, res, next)` as written: the
   * `{ message, statusCode }` object is handed to the positional
   * constructor as its `message` argument.
   */
  function InvalidJsonBodyHandlerAsWritten(err: JsValue, req: Request): (r: Effect)
    ensures r.CallNext?
    ensures IsJsonBodyError(err) ==> r.arg.Some? && InstanceOf(r.arg.value, LegacyErrorResponseClass)
    ensures !IsJsonBodyError(err) ==> r == CallNext(None)
  {
    if IsJsonBodyError(err) then
      CallNext(Some(NewErrorResponse(MessageAndStatus(InvalidJsonMessage, 400), Undefined, Undefined)))
    else
      CallNext(None)
  }

  /** The error forwarded as written carries the whole object as its message and no status code. */
  lemma AsWrittenErrorLosesStatus(err: JsValue, req: Request)
    requires IsJsonBodyError(err)
    ensures var e := InvalidJsonBodyHandlerAsWritten(err, req).arg.value;
      && Get(e, "statusCode") == Undefined
      && Get(e, "message").Obj?
      && Get(Get(e, "message"), "statusCode") == Num(400)
      && !Truthy(Get(e, "statusCode"))
  {
  }

  /** The handler with the message and status passed positionally, as the constructor expects. */
  function InvalidJsonBodyHandler(err: JsValue, req: Request): (r: Effect)
    ensures r.CallNext?
    ensures IsJsonBodyError(err) ==>
      && r.arg.Some?
      && InstanceOf(r.arg.value, LegacyErrorResponseClass)
      && Get(r.arg.value, "statusCode") == Num(400)
      && Get(r.arg.value, "message") == Str(InvalidJsonMessage)
      && Get(r.arg.value, "shouldIncludeStack") == Bool(false)
    ensures !IsJsonBodyError(err) ==> r == CallNext(None)
    ensures r.arg != Some(err)
  {
    if IsJsonBodyError(err) then
      CallNext(Some(NewErrorResponse(Str(InvalidJsonMessage), Num(400), Undefined)))
    else
      CallNext(None)
  }

  /** The two revisions agree on every error that is not a malformed body. */
  lemma RevisionsAgreeOffTheErrorPath(err: JsValue, req: Request)
    requires !IsJsonBodyError(err)
    ensures InvalidJsonBodyHandlerAsWritten(err, req) == InvalidJsonBodyHandler(err, req)
  {
  }

  /** `"Cannot " + req.method + " " + req.url`. */
  function RouteMessage(req: Request): string
  {
    "Cannot " + ToStr(req.httpMethod) + " " + ToStr(req.url)
  }

  /** `invalidRouteHandler(req, res)`: one 404 response, never a call to next. */
  function InvalidRouteHandler(req: Request): (r: Effect)
    ensures r.Send? && r.status == Num(404)
    ensures Get(r.body, "success") == Bool(false)
    ensures Get(r.body, "message") == Str(RouteMessage(req))
    ensures Get(r.body, "traceId") == req.traceId
    ensures Keys(r.body.props) == ["success", "message", "traceId"]
  {
    var props := [Prop("success", Bool(false)), Prop("message", Str(RouteMessage(req))), Prop("traceId", req.traceId)];
    LookupAt(props, 1); LookupAt(props, 2);
    Send(Num(404), Literal(props))
  }

  /** Splits s at its first space (the whole of s and "" when there is none). */
  function SplitAtSpace(s: string): (string, string)
  {
    if s == [] then ("", "")
    else if s[0] == ' ' then ("", s[1..])
    else var (a, b) := SplitAtSpace(s[1..]); ([s[0]] + a, b)
  }

  /** Reads the method and the url back out of a 404 message. */
  function ParseRouteMessage(message: string): Option<(string, string)>
  {
    if |message| >= 7 && message[..7] == "Cannot " then Some(SplitAtSpace(message[7..])) else None
  }

  lemma {:induction false} SplitAtSpaceOfJoin(a: string, b: string)
    requires ' ' !in a
    ensures SplitAtSpace(a + " " + b) == (a, b)
  {
    if a != [] {
      var s := a + " " + b;
      assert s[0] == a[0] && a[0] != ' ';
      assert s[1..] == a[1..] + " " + b;
      SplitAtSpaceOfJoin(a[1..], b);
      assert [a[0]] + a[1..] == a;
    } else {
      assert a + " " + b == " " + b;
    }
  }

  /**
   * The 404 message names the request: for a method without spaces (every
   * HTTP method) the method and url are recovered from it unchanged.
   */
  lemma RouteMessageNamesTheRequest(req: Request)
    requires ' ' !in ToStr(req.httpMethod)
    ensures ParseRouteMessage(Get(InvalidRouteHandler(req).body, "message").s)
            == Some((ToStr(req.httpMethod), ToStr(req.url)))
  {
    var m := RouteMessage(req);
    assert m[..7] == "Cannot ";
    assert m[7..] == ToStr(req.httpMethod) + " " + ToStr(req.url);
    SplitAtSpaceOfJoin(ToStr(req.httpMethod), ToStr(req.url));
  }

  /** GET /nope on an unmatched route. */
  lemma UnmatchedRouteExample(traceId: JsValue)
    ensures var r := InvalidRouteHandler(Request(Str("GET"), Str("/nope"), traceId, Literal([]), Undefined));
      Get(r.body, "message") == Str("Cannot GET /nope") && Get(r.body, "traceId") == traceId
  {
    assert RouteMessage(Request(Str("GET"), Str("/nope"), traceId, Literal([]), Undefined)) == "Cannot GET /nope";
  }
}
