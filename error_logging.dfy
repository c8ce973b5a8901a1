/**
 * What the error logger (express-winston's errorLogger, mounted in app.js
 * between the 404 handler and the terminal error handler) records for the
 * errors the middleware forwards. Its info object carries the request
 * line as a string message and, under `meta`, the error, its trace and the
 * trace id.
 */
module ErrorLogging {
  import opened Js
  import opened Http
  import opened ErrorResponses
  import Logger
  import LegacyMiddleware

  /** The part of the error logger's info object that `buildLogEntry` reads. */
  function ErrorLoggerInfo(requestLine: string, err: JsValue, trace: JsValue, traceId: JsValue): (info: JsValue)
    ensures info.Obj? && HasOwn(info, "meta")
    ensures Get(info, "message") == Str(requestLine)
    ensures Get(Get(info, "meta"), "error") == err
    ensures Get(Get(info, "meta"), "trace") == trace
    ensures Get(Get(info, "meta"), "traceId") == traceId
  {
    var meta := [Prop("traceId", traceId), Prop("error", err), Prop("trace", trace)];
    var props := [Prop("level", Str("error")), Prop("message", Str(requestLine)), Prop("meta", Obj(PlainObject, meta))];
    LookupAt(meta, 0); LookupAt(meta, 1); LookupAt(meta, 2);
    LookupAt(props, 1); LookupAt(props, 2);
    Obj(PlainObject, props)
  }

  /** For a defined, non-null error the entry is built and carries the error fields. */
  lemma ErrorInfoEntry(requestLine: string, err: JsValue, trace: JsValue, traceId: JsValue, ctx: JsValue)
    requires !IsNullish(err)
    ensures var info := ErrorLoggerInfo(requestLine, err, trace, traceId);
      var r := Logger.BuildLogEntry(info, ctx);
      && r.Normal?
      && Lookup(r.value, "traceId") == traceId
      && Lookup(r.value, "message") == Str(ToStr(Get(err, "name")) + ": " + ToStr(Get(err, "message")))
      && Lookup(r.value, "category") == Str(if Truthy(Get(err, "statusCode")) then "KNOWN" else "UNHANDLED")
      && Lookup(r.value, "stackTrace") == Logger.StackTraceFlag(err, trace)
  {
    var info := ErrorLoggerInfo(requestLine, err, trace, traceId);
    assert Logger.HasErrorMeta(info);
    Logger.TraceIdChoice(info, ctx);
    Logger.ErrorEntryFields(info, ctx);
  }

  /** An error without a status code is logged UNHANDLED, with its stack whenever a trace exists. */
  lemma UnhandledEntry(requestLine: string, e: JsValue, trace: JsValue, traceId: JsValue, ctx: JsValue)
    requires !IsNullish(e) && !Truthy(Get(e, "statusCode"))
    ensures var r := Logger.BuildLogEntry(ErrorLoggerInfo(requestLine, e, trace, traceId), ctx);
      && r.Normal?
      && Lookup(r.value, "category") == Str("UNHANDLED")
      && Lookup(r.value, "message") == Str(ToStr(Get(e, "name")) + ": " + ToStr(Get(e, "message")))
      && (Truthy(Lookup(r.value, "stackTrace")) <==> !IsEmpty(trace))
  {
    ErrorInfoEntry(requestLine, e, trace, traceId, ctx);
  }

  /** An error with a status code and no shouldLogStack is logged KNOWN, without its stack. */
  lemma KnownEntry(requestLine: string, e: JsValue, trace: JsValue, traceId: JsValue, ctx: JsValue)
    requires !IsNullish(e) && Truthy(Get(e, "statusCode")) && !Truthy(Get(e, "shouldLogStack"))
    ensures var r := Logger.BuildLogEntry(ErrorLoggerInfo(requestLine, e, trace, traceId), ctx);
      && r.Normal?
      && Lookup(r.value, "category") == Str("KNOWN")
      && Lookup(r.value, "message") == Str(ToStr(Get(e, "name")) + ": " + ToStr(Get(e, "message")))
      && !Truthy(Lookup(r.value, "stackTrace"))
  {
    ErrorInfoEntry(requestLine, e, trace, traceId, ctx);
  }

  /**
   * The JSON error forwarded by the legacy translator as written has no
   * status code, so it is logged as an UNHANDLED error, with its stack
   * whenever a trace exists.
   */
  lemma AsWrittenJsonErrorLoggedUnhandled(err: JsValue, req: Request, requestLine: string, trace: JsValue, ctx: JsValue)
    requires LegacyMiddleware.IsJsonBodyError(err)
    ensures var e := LegacyMiddleware.InvalidJsonBodyHandlerAsWritten(err, req).arg.value;
      var r := Logger.BuildLogEntry(ErrorLoggerInfo(requestLine, e, trace, req.traceId), ctx);
      && r.Normal?
      && Lookup(r.value, "category") == Str("UNHANDLED")
      && (Truthy(Lookup(r.value, "stackTrace")) <==> !IsEmpty(trace))
  {
    var e := LegacyMiddleware.InvalidJsonBodyHandlerAsWritten(err, req).arg.value;
    LegacyMiddleware.AsWrittenErrorLosesStatus(err, req);
    UnhandledEntry(requestLine, e, trace, req.traceId, ctx);
  }

  /** Its logged message is the object stringified, not the text the translator meant to send. */
  lemma AsWrittenJsonErrorMessageIsLost(err: JsValue, req: Request, requestLine: string, trace: JsValue, ctx: JsValue)
    requires LegacyMiddleware.IsJsonBodyError(err)
    ensures var e := LegacyMiddleware.InvalidJsonBodyHandlerAsWritten(err, req).arg.value;
      var r := Logger.BuildLogEntry(ErrorLoggerInfo(requestLine, e, trace, req.traceId), ctx);
      r.Normal? && Lookup(r.value, "message") == Str("Error: [object Object]")
  {
    var e := LegacyMiddleware.InvalidJsonBodyHandlerAsWritten(err, req).arg.value;
    LegacyMiddleware.AsWrittenErrorLosesStatus(err, req);
    ObjectMessageEntry(requestLine, e, trace, req.traceId, ctx);
  }

  lemma ObjectMessageEntry(requestLine: string, e: JsValue, trace: JsValue, traceId: JsValue, ctx: JsValue)
    requires e.Obj? && Get(e, "name") == Str("Error") && Get(e, "message").Obj?
    ensures var r := Logger.BuildLogEntry(ErrorLoggerInfo(requestLine, e, trace, traceId), ctx);
      r.Normal? && Lookup(r.value, "message") == Str("Error: [object Object]")
  {
    ErrorInfoEntry(requestLine, e, trace, traceId, ctx);
    ObjectErrorText();
  }

  /** The text such an error is logged with, spelled out. */
  lemma ObjectErrorText()
    ensures "Error" + ": " + "[object Object]" == "Error: [object Object]"
  {
  }

  /** The corrected translator's error is logged as KNOWN, with its message and without its stack. */
  lemma CorrectedJsonErrorLoggedKnown(err: JsValue, req: Request, requestLine: string, trace: JsValue, ctx: JsValue)
    requires LegacyMiddleware.IsJsonBodyError(err)
    ensures var e := LegacyMiddleware.InvalidJsonBodyHandler(err, req).arg.value;
      var r := Logger.BuildLogEntry(ErrorLoggerInfo(requestLine, e, trace, req.traceId), ctx);
      && r.Normal?
      && Lookup(r.value, "category") == Str("KNOWN")
      && Lookup(r.value, "message") == Str("Error: " + LegacyMiddleware.InvalidJsonMessage)
      && !Truthy(Lookup(r.value, "stackTrace"))
  {
    var e := LegacyMiddleware.InvalidJsonBodyHandler(err, req).arg.value;
    assert ToStr(Get(e, "name")) + ": " + ToStr(Get(e, "message")) == "Error: " + LegacyMiddleware.InvalidJsonMessage by {
      assert Get(e, "name") == Str("Error") && Get(e, "message") == Str(LegacyMiddleware.InvalidJsonMessage);
    }
    assert Get(e, "shouldLogStack") == Undefined;
    KnownEntry(requestLine, e, trace, req.traceId, ctx);
  }
}
