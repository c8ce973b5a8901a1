/**
 * The one structured error kind the pipeline understands, built by either
 * of its two constructors:
 *  - the positional `new ErrorResponse(message, statusCode, options)` of
 *    utils/error-handling/ErrorResponse.js;
 *  - the object-taking `new ErrorResponse({ message, statusCode })` that the
 *    newer middleware imports from utils/error, of which only the two fields
 *    `message` and `statusCode` are known.
 * Both build a fresh Error object whose fields are set once and never
 * updated, so an error is an immutable value here.
 */
module ErrorResponses {
  import opened Js

  /** `new ErrorResponse(message, statusCode, options)` (positional form). */
  function NewErrorResponse(message: JsValue, statusCode: JsValue, options: JsValue): (e: JsValue)
    ensures InstanceOf(e, LegacyErrorResponseClass) && InstanceOf(e, ErrorClass)
    ensures !InstanceOf(e, ErrorResponseClass)
    ensures Get(e, "message") == message && Get(e, "statusCode") == statusCode
    ensures !(Truthy(options) && Truthy(Get(options, "shouldIncludeStack"))) ==>
              Get(e, "shouldIncludeStack") == Bool(false)
    ensures Truthy(options) && Truthy(Get(options, "shouldIncludeStack")) ==>
              Get(e, "shouldIncludeStack") == Get(options, "shouldIncludeStack")
    ensures !HasOwn(e, "details") && Get(e, "details") == Undefined
    ensures !HasProperty(e, "shouldLogStack")
    ensures Get(e, "name") == Str("Error")
  {
    // options && options.shouldIncludeStack
    var requested := if Truthy(options) then Get(options, "shouldIncludeStack") else options;
    var props := [
      Prop("message", message),
      Prop("statusCode", statusCode),
      Prop("shouldIncludeStack", if Truthy(requested) then requested else Bool(false))
    ];
    LookupAt(props, 1); LookupAt(props, 2);
    Obj(LegacyErrorResponseClass, props)
  }

  /**
   * `new ErrorResponse({ message, statusCode })` (object form): the two
   * fields are copied. The class is assumed to extend Error and keep the
   * inherited name "Error", like the positional one.
   */
  function NewErrorResponseFromObject(fields: JsValue): (e: JsValue)
    ensures InstanceOf(e, ErrorResponseClass) && InstanceOf(e, ErrorClass)
    ensures !InstanceOf(e, LegacyErrorResponseClass) && !InstanceOf(e, SyntaxErrorClass)
    ensures Get(e, "message") == Get(fields, "message")
    ensures Get(e, "statusCode") == Get(fields, "statusCode")
  {
    var props := [
      Prop("message", Get(fields, "message")),
      Prop("statusCode", Get(fields, "statusCode"))
    ];
    LookupAt(props, 1);
    Obj(ErrorResponseClass, props)
  }
}
