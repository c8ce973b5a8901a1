/**
 * The newer error middleware (middleware/error/): the malformed-JSON
 * translator and the terminal error handler that tells known errors
 * (ErrorResponse instances) from everything else.
 */
module ErrorMiddleware {
  import opened Js
  import opened Http
  import opened ErrorResponses
  import Validation

  const InvalidJsonMessage: string := "Invalid JSON body provided."
  const InternalErrorMessage: string := "We're sorry, an internal server error has occurred."

  /** `err && err instanceof SyntaxError && 'body' in err`: the body parser's failure. */
  predicate IsJsonBodyError(err: JsValue)
  {
    Truthy(err) && InstanceOf(err, SyntaxErrorClass) && HasProperty(err, "body")
  }

  /** `invalidJSONBodyHandler(err, req, res, next)`: exactly one call to next, no response. */
  function InvalidJsonBodyHandler(err: JsValue, req: Request): (r: Effect)
    ensures r.CallNext?
    ensures IsJsonBodyError(err) ==>
      && r.arg.Some?
      && InstanceOf(r.arg.value, ErrorResponseClass)
      && Get(r.arg.value, "statusCode") == Num(400)
      && Get(r.arg.value, "message") == Str(InvalidJsonMessage)
    ensures !IsJsonBodyError(err) ==> r == CallNext(None)
    ensures r.arg != Some(err)
  {
    if IsJsonBodyError(err) then
      CallNext(Some(NewErrorResponseFromObject(MessageAndStatus(InvalidJsonMessage, 400))))
    else
      CallNext(None)
  }

  /** The body `{ success: false, message, details }` sent for a known error. */
  function KnownErrorBody(err: JsValue): JsValue
  {
    Literal([Prop("success", Bool(false)), Prop("message", Get(err, "message")), Prop("details", Get(err, "details"))])
  }

  /** The body sent for every other failure: nothing of the error itself. */
  function GenericErrorBody(): JsValue
  {
    Literal([Prop("success", Bool(false)), Prop("message", Str(InternalErrorMessage))])
  }

  /** `errorHandler(err, req, res, next)`: one response, never a call to next. */
  function ErrorHandler(err: JsValue, req: Request): (r: Effect)
    ensures r.Send?
    ensures InstanceOf(err, ErrorResponseClass) ==>
      && r.status == Get(err, "statusCode")
      && Get(r.body, "success") == Bool(false)
      && Get(r.body, "message") == Get(err, "message")
      && Get(r.body, "details") == Get(err, "details")
      && Keys(r.body.props) == ["success", "message", "details"]
    ensures !InstanceOf(err, ErrorResponseClass) ==>
      && r.status == Num(500)
      && Get(r.body, "success") == Bool(false)
      && Get(r.body, "message") == Str(InternalErrorMessage)
      && Keys(r.body.props) == ["success", "message"]
  {
    var known := KnownErrorBody(err);
    LookupAt(known.props, 1); LookupAt(known.props, 2);
    if InstanceOf(err, ErrorResponseClass) then
      Send(Get(err, "statusCode"), known)
    else
      LookupAt(GenericErrorBody().props, 1);
      Send(Num(500), GenericErrorBody())
  }

  /** No leakage: every unknown failure, whatever it carries, gets the identical response. */
  lemma UnknownErrorsAreIndistinguishable(e1: JsValue, e2: JsValue, req1: Request, req2: Request)
    requires !InstanceOf(e1, ErrorResponseClass) && !InstanceOf(e2, ErrorResponseClass)
    ensures ErrorHandler(e1, req1) == ErrorHandler(e2, req2)
  {
  }

  /**
   * An error built by the positional constructor of utils/error-handling is
   * not an instance of the class this handler tests for, so it is answered
   * as an unknown 500 whatever its status code.
   */
  lemma PositionalErrorsAreUnknownHere(message: JsValue, statusCode: JsValue, options: JsValue, req: Request)
    ensures ErrorHandler(NewErrorResponse(message, statusCode, options), req).status == Num(500)
  {
  }

  /** A malformed JSON body reaches the client as a 400 with the fixed message. */
  lemma MalformedJsonIsAnswered400(err: JsValue, req: Request)
    requires IsJsonBodyError(err)
    ensures var r := ErrorHandler(InvalidJsonBodyHandler(err, req).arg.value, req);
      r.status == Num(400) && Get(r.body, "message") == Str(InvalidJsonMessage)
  {
  }

  /**
   * A wrongly formatted id reaches the client as a 404 naming the resource
   * and the id, with no details.
   */
  lemma BadIdIsAnswered404(resource: JsValue, req: Request)
    requires !IsNullish(req.params)
    requires var id := Get(req.params, "id"); Truthy(id) && !Validation.IsObjectIdText(ToStr(id))
    ensures var r := ErrorHandler(Validation.ValidateId(resource, req).arg.value, req);
      && r.status == Num(404)
      && Get(r.body, "message") == Str(Validation.NotFoundMessage(resource, Get(req.params, "id")))
  {
  }
}
