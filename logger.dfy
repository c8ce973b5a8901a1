/**
 * Log-entry construction in utils/logger.js: `buildLogEntry` turns a
 * winston info object into a flat entry keyed by trace id, and the two
 * printf formatters present it for local development or for production.
 *
 * The request-scoped trace id (`httpContext.get('traceId')`) is passed in
 * explicitly. Output text is left as records: JSON pretty-printing is not
 * modelled.
 */
module Logger {
  import opened Js
  import opened ErrorResponses

  /** The keys of every entry, in order; error entries add `stackTrace` last. */
  const EntryKeys: seq<string> := ["traceId", "message", "file", "method", "category"]
  const ErrorEntryKeys: seq<string> := EntryKeys + ["stackTrace"]

  /** `{ traceId, ...{ message, file, method, category } }` read from source. */
  function BaseEntry(traceId: JsValue, source: JsValue): seq<Prop>
  {
    Assign([Prop("traceId", traceId)], [
      Prop("message", Get(source, "message")),
      Prop("file", Get(source, "file")),
      Prop("method", Get(source, "method")),
      Prop("category", Get(source, "category"))
    ])
  }

  /** `${error.name}: ${error.message}`: never empty, so `|| message` never applies. */
  function ErrorText(error: JsValue): (t: string)
    ensures |t| >= 2
  {
    ToStr(Get(error, "name")) + ": " + ToStr(Get(error, "message"))
  }

  /**
   * `!_.isEmpty(trace) && (!error.statusCode || error.shouldLogStack)`, as a
   * value: the stack is logged exactly for a non-empty trace of an unknown
   * error or of one asking for its stack, and an empty trace gives `false`.
   */
  function StackTraceFlag(error: JsValue, trace: JsValue): (f: JsValue)
    ensures Truthy(f) <==>
      !IsEmpty(trace) && (!Truthy(Get(error, "statusCode")) || Truthy(Get(error, "shouldLogStack")))
    ensures IsEmpty(trace) ==> f == Bool(false)
  {
    if IsEmpty(trace) then Bool(false)
    else if !Truthy(Get(error, "statusCode")) then Bool(true)
    else Get(error, "shouldLogStack")
  }

  /** `!error.statusCode ? 'UNHANDLED' : 'KNOWN'`: an error without a status code is unhandled. */
  function Category(error: JsValue): (c: string)
    ensures c == "UNHANDLED" <==> !Truthy(Get(error, "statusCode"))
    ensures c == "KNOWN" <==> Truthy(Get(error, "statusCode"))
  {
    if !Truthy(Get(error, "statusCode")) then "UNHANDLED" else "KNOWN"
  }

  /** The properties spread over the entry when the info carries an error. */
  function ErrorFields(meta: JsValue, error: JsValue): seq<Prop>
  {
    var text := ErrorText(error);
    [
      Prop("message", if text != "" then Str(text) else Get(meta, "message")),
      Prop("stackTrace", StackTraceFlag(error, Get(meta, "trace"))),
      Prop("category", Str(Category(error)))
    ]
  }

  /** Whether the entry takes its error metadata from `info.meta`. */
  predicate HasErrorMeta(info: JsValue)
  {
    var meta := Get(info, "meta");
    !IsEmpty(meta) && Get(meta, "error") != Undefined
  }

  /** The object the message, file, method and category are read from. */
  function MessageSource(info: JsValue): JsValue
  {
    if Get(info, "message").Str? then info else Get(info, "message")
  }

  /** The trace id of the entry: from `info.meta` when info has one, else from the request context. */
  function ChosenTraceId(info: JsValue, contextTraceId: JsValue): JsValue
  {
    if HasOwn(info, "meta") then Get(Get(info, "meta"), "traceId") else contextTraceId
  }

  /**
   * `buildLogEntry(info)`; a property read on null or undefined throws a
   * TypeError. It throws exactly when own meta is nullish, when the message
   * is nullish, or when meta carries an error that is null; otherwise the
   * entry has the five base keys, plus stackTrace when meta carries an error.
   */
  function BuildLogEntry(info: JsValue, contextTraceId: JsValue): (r: Completion<seq<Prop>>)
    requires info.Obj?
    ensures r.ThrowsTypeError? <==>
      || (HasOwn(info, "meta") && IsNullish(Get(info, "meta")))
      || IsNullish(Get(info, "message"))
      || (HasErrorMeta(info) && Get(Get(info, "meta"), "error") == Null)
    ensures r.Normal? ==> Keys(r.value) == (if HasErrorMeta(info) then ErrorEntryKeys else EntryKeys)
  {
    var meta := Get(info, "meta");
    if HasOwn(info, "meta") && IsNullish(meta) then ThrowsTypeError
    else if IsNullish(MessageSource(info)) then ThrowsTypeError
    else
      var traceId := ChosenTraceId(info, contextTraceId);
      var base := BaseEntry(traceId, MessageSource(info));
      BaseEntryShape(traceId, MessageSource(info));
      if HasErrorMeta(info) then
        var error := Get(meta, "error");
        if IsNullish(error) then ThrowsTypeError
        else
          ErrorEntryKeysShape(base, meta, error);
          Normal(Assign(base, ErrorFields(meta, error)))
      else
        Normal(base)
  }

  // ---------------------------------------------------------------------
  // Shape of the entries

  /** The six entry keys are distinct. */
  lemma ErrorEntryKeysDistinct()
    ensures forall i, j :: 0 <= i < j < |ErrorEntryKeys| ==> ErrorEntryKeys[i] != ErrorEntryKeys[j]
  {
    var ks := ErrorEntryKeys;
    assert ks[0][0] == 't' && ks[1][0] == 'm' && ks[2][0] == 'f' && ks[3][0] == 'm' && ks[4][0] == 'c' && ks[5][0] == 's';
    assert |ks[1]| == 7 && |ks[3]| == 6;
  }

  lemma {:induction false} BaseEntryShape(traceId: JsValue, source: JsValue)
    ensures Keys(BaseEntry(traceId, source)) == EntryKeys
    ensures UniqueKeys(BaseEntry(traceId, source))
    ensures Lookup(BaseEntry(traceId, source), "traceId") == traceId
    ensures Lookup(BaseEntry(traceId, source), "message") == Get(source, "message")
    ensures Lookup(BaseEntry(traceId, source), "file") == Get(source, "file")
    ensures Lookup(BaseEntry(traceId, source), "method") == Get(source, "method")
    ensures Lookup(BaseEntry(traceId, source), "category") == Get(source, "category")
  {
    var ps := [
      Prop("message", Get(source, "message")),
      Prop("file", Get(source, "file")),
      Prop("method", Get(source, "method")),
      Prop("category", Get(source, "category"))
    ];
    ErrorEntryKeysDistinct();
    assert Keys(ps) == EntryKeys[1..];
    assert Keys([Prop("traceId", traceId)]) == ["traceId"];
    AssignFresh([Prop("traceId", traceId)], ps);
    var e := [Prop("traceId", traceId)] + ps;
    assert Keys(e) == EntryKeys;
    assert UniqueKeys(e) by {
      forall i, j | 0 <= i < j < |e| ensures e[i].key != e[j].key {
        assert e[i].key == ErrorEntryKeys[i] && e[j].key == ErrorEntryKeys[j];
      }
    }
    LookupAt(e, 0); LookupAt(e, 1); LookupAt(e, 2); LookupAt(e, 3); LookupAt(e, 4);
  }

  lemma ErrorFieldsShape(meta: JsValue, error: JsValue)
    ensures var ps := ErrorFields(meta, error);
      && Keys(ps) == ["message", "stackTrace", "category"]
      && UniqueKeys(ps)
      && Lookup(ps, "message") == Str(ErrorText(error))
      && Lookup(ps, "stackTrace") == StackTraceFlag(error, Get(meta, "trace"))
      && Lookup(ps, "category") == Str(Category(error))
  {
    var ps := ErrorFields(meta, error);
    ErrorEntryKeysDistinct();
    assert ps[0].key == ErrorEntryKeys[1] && ps[1].key == ErrorEntryKeys[5] && ps[2].key == ErrorEntryKeys[4];
    LookupAt(ps, 0); LookupAt(ps, 1); LookupAt(ps, 2);
  }

  /** Spreading message, stackTrace and category over a base entry appends only stackTrace. */
  lemma {:induction false} ErrorEntryKeysShape(base: seq<Prop>, meta: JsValue, error: JsValue)
    requires Keys(base) == EntryKeys
    ensures Keys(Assign(base, ErrorFields(meta, error))) == ErrorEntryKeys
  {
    var ps := ErrorFields(meta, error);
    ErrorFieldsShape(meta, error);
    assert ps[0].key == "message" && ps[1].key == "stackTrace" && ps[2].key == "category";
    SpreadKeys(base, ps);
  }

  /** Spreading three properties is three assignments in order. */
  lemma SpreadThree(base: seq<Prop>, ps: seq<Prop>)
    requires |ps| == 3
    ensures Assign(base, ps) ==
      SetProp(SetProp(SetProp(base, ps[0].key, ps[0].value), ps[1].key, ps[1].value), ps[2].key, ps[2].value)
  {
    var o1 := SetProp(base, ps[0].key, ps[0].value);
    var o2 := SetProp(o1, ps[1].key, ps[1].value);
    assert Assign(base, ps) == Assign(o1, ps[1..]);
    assert ps[1..][0] == ps[1] && ps[1..][1..] == ps[2..];
    assert Assign(o1, ps[1..]) == Assign(o2, ps[2..]);
    assert ps[2..][0] == ps[2] && ps[2..][1..] == [];
  }

  /** No base key is `stackTrace`. */
  lemma StackTraceIsNew()
    ensures "stackTrace" !in EntryKeys
  {
    forall i | 0 <= i < |EntryKeys| ensures EntryKeys[i] != "stackTrace" {
      assert EntryKeys[i][0] != 's';
    }
  }

  lemma {:induction false} SpreadKeys(base: seq<Prop>, ps: seq<Prop>)
    requires Keys(base) == EntryKeys && |ps| == 3
    requires ps[0].key == "message" && ps[1].key == "stackTrace" && ps[2].key == "category"
    ensures Keys(Assign(base, ps)) == ErrorEntryKeys
  {
    var o1 := SetProp(base, "message", ps[0].value);
    var o2 := SetProp(o1, "stackTrace", ps[1].value);
    var o3 := SetProp(o2, "category", ps[2].value);
    SpreadThree(base, ps);
    SetPropKeys(base, "message", ps[0].value);
    assert EntryKeys[1] == "message";
    assert Keys(o1) == EntryKeys;
    SetPropKeys(o1, "stackTrace", ps[1].value);
    StackTraceIsNew();
    assert Keys(o2) == ErrorEntryKeys;
    SetPropKeys(o2, "category", ps[2].value);
    assert ErrorEntryKeys[4] == "category";
  }

  lemma ErrorEntryLookups(base: seq<Prop>, meta: JsValue, error: JsValue)
    ensures var e := Assign(base, ErrorFields(meta, error));
      && Lookup(e, "message") == Str(ErrorText(error))
      && Lookup(e, "stackTrace") == StackTraceFlag(error, Get(meta, "trace"))
      && Lookup(e, "category") == Str(Category(error))
      && Lookup(e, "traceId") == Lookup(base, "traceId")
  {
    var ps := ErrorFields(meta, error);
    ErrorFieldsShape(meta, error);
    AssignLookup(base, ps, "message");
    AssignLookup(base, ps, "stackTrace");
    AssignLookup(base, ps, "category");
    AssignLookup(base, ps, "traceId");
    assert "traceId" !in Keys(ps);
  }

  /** The trace id comes from `info.meta` whenever info has its own meta, even an undefined one there. */
  lemma TraceIdChoice(info: JsValue, contextTraceId: JsValue)
    requires info.Obj?
    requires BuildLogEntry(info, contextTraceId).Normal?
    ensures Lookup(BuildLogEntry(info, contextTraceId).value, "traceId") ==
      if HasOwn(info, "meta") then Get(Get(info, "meta"), "traceId") else contextTraceId
  {
    var base := BaseEntry(ChosenTraceId(info, contextTraceId), MessageSource(info));
    BaseEntryShape(ChosenTraceId(info, contextTraceId), MessageSource(info));
    if HasErrorMeta(info) {
      ErrorEntryLookups(base, Get(info, "meta"), Get(Get(info, "meta"), "error"));
    }
  }

  /**
   * Without error metadata the entry is the trace id plus message, file,
   * method and category, read from info itself when its message is a string
   * and flattened out of `info.message` otherwise.
   */
  lemma PlainEntryFields(info: JsValue, contextTraceId: JsValue)
    requires info.Obj? && !HasErrorMeta(info)
    requires BuildLogEntry(info, contextTraceId).Normal?
    ensures var e := BuildLogEntry(info, contextTraceId).value;
      var source := if Get(info, "message").Str? then info else Get(info, "message");
      && Keys(e) == EntryKeys
      && Lookup(e, "message") == Get(source, "message")
      && Lookup(e, "file") == Get(source, "file")
      && Lookup(e, "method") == Get(source, "method")
      && Lookup(e, "category") == Get(source, "category")
  {
    BaseEntryShape(ChosenTraceId(info, contextTraceId), MessageSource(info));
  }

  /**
   * With error metadata the message becomes `name: message` of the error, a
   * falsy status code makes it UNHANDLED, and stackTrace is set.
   */
  lemma ErrorEntryFields(info: JsValue, contextTraceId: JsValue)
    requires info.Obj? && HasErrorMeta(info)
    requires BuildLogEntry(info, contextTraceId).Normal?
    ensures var e := BuildLogEntry(info, contextTraceId).value;
      var error := Get(Get(info, "meta"), "error");
      && Keys(e) == ErrorEntryKeys
      && Lookup(e, "message") == Str(ToStr(Get(error, "name")) + ": " + ToStr(Get(error, "message")))
      && (Lookup(e, "category") == Str("UNHANDLED") <==> !Truthy(Get(error, "statusCode")))
      && (Lookup(e, "category") == Str("KNOWN") <==> Truthy(Get(error, "statusCode")))
      && Lookup(e, "stackTrace") == StackTraceFlag(error, Get(Get(info, "meta"), "trace"))
  {
    var base := BaseEntry(ChosenTraceId(info, contextTraceId), MessageSource(info));
    BaseEntryShape(ChosenTraceId(info, contextTraceId), MessageSource(info));
    var meta := Get(info, "meta");
    ErrorEntryKeysShape(base, meta, Get(meta, "error"));
    ErrorEntryLookups(base, meta, Get(meta, "error"));
  }

  /**
   * The logger reads `shouldLogStack`, which the positional ErrorResponse
   * constructor never sets: an error it builds with a status code never
   * has its stack logged, even when given `shouldIncludeStack: true`.
   */
  lemma IncludeStackOptionIsNotRead(message: JsValue, statusCode: JsValue, options: JsValue, trace: JsValue)
    requires Truthy(statusCode)
    ensures !Truthy(StackTraceFlag(NewErrorResponse(message, statusCode, options), trace))
  {
  }

  // ---------------------------------------------------------------------
  // Formatters

  /** The local line: `header : message` alone, or the header and the whole entry. */
  datatype LocalLine = ShortLine(text: string) | PrettyLine(header: string, entry: seq<Prop>)

  /** How many properties are not undefined. */
  function DefinedCount(entry: seq<Prop>): nat
  {
    if entry == [] then 0
    else (if entry[0].value != Undefined then 1 else 0) + DefinedCount(entry[1..])
  }

  /**
   * `formatForLocal(info)`: throws when building the entry does; otherwise
   * prints `timestamp level : message` exactly when the message is truthy
   * and every other property of the entry is undefined, and the header with
   * the whole entry in every other case.
   */
  function FormatForLocal(info: JsValue, contextTraceId: JsValue): (r: Completion<LocalLine>)
    requires info.Obj?
    ensures r.ThrowsTypeError? <==> BuildLogEntry(info, contextTraceId).ThrowsTypeError?
    ensures r.Normal? ==>
      var e := BuildLogEntry(info, contextTraceId).value;
      var header := ToStr(Get(info, "timestamp")) + " " + ToStr(Get(info, "level"));
      && (r.value.ShortLine? <==>
            && Truthy(Lookup(e, "message"))
            && forall i :: 0 <= i < |e| && e[i].key != "message" ==> e[i].value == Undefined)
      && (r.value.ShortLine? ==> r.value.text == header + " : " + ToStr(Lookup(e, "message")))
      && (r.value.PrettyLine? ==> r.value.header == header && r.value.entry == e)
  {
    match BuildLogEntry(info, contextTraceId)
    case ThrowsTypeError => ThrowsTypeError
    case Normal(entry) =>
      var header := ToStr(Get(info, "timestamp")) + " " + ToStr(Get(info, "level"));
      var message := Lookup(entry, "message");
      EntryHasUniqueKeys(info, contextTraceId);
      MessageOnlyTest(entry);
      if Truthy(message) && DefinedCount(entry) == 1 then Normal(ShortLine(header + " : " + ToStr(message)))
      else Normal(PrettyLine(header, entry))
  }

  /** The count test of the local format, read as a statement about the entry's properties. */
  lemma MessageOnlyTest(entry: seq<Prop>)
    requires UniqueKeys(entry)
    ensures Truthy(Lookup(entry, "message")) && DefinedCount(entry) == 1 <==>
      && Truthy(Lookup(entry, "message"))
      && forall i :: 0 <= i < |entry| && entry[i].key != "message" ==> entry[i].value == Undefined
  {
    if Truthy(Lookup(entry, "message")) {
      OnlyDefinedKey(entry, "message");
    }
  }

  /** With distinct keys and k defined, k is the only defined key exactly when all others are undefined. */
  lemma {:induction false} OnlyDefinedKey(entry: seq<Prop>, k: string)
    requires UniqueKeys(entry) && Lookup(entry, k) != Undefined
    ensures DefinedCount(entry) == 1 <==>
      forall i :: 0 <= i < |entry| && entry[i].key != k ==> entry[i].value == Undefined
  {
    var rest := entry[1..];
    assert forall i :: 0 <= i < |rest| ==> rest[i] == entry[i + 1];
    if entry[0].key == k {
      NoneDefined(rest);
      assert forall i :: 0 < i < |entry| ==> entry[i].key != k;
    } else {
      assert UniqueKeys(rest);
      OnlyDefinedKey(rest, k);
      DefinedAtLeastOnce(rest, k);
    }
  }

  lemma {:induction false} DefinedAtLeastOnce(entry: seq<Prop>, k: string)
    requires Lookup(entry, k) != Undefined
    ensures DefinedCount(entry) >= 1
  {
    if entry[0].key != k {
      DefinedAtLeastOnce(entry[1..], k);
    }
  }

  lemma {:induction false} NoneDefined(entry: seq<Prop>)
    ensures DefinedCount(entry) == 0 <==> forall i :: 0 <= i < |entry| ==> entry[i].value == Undefined
  {
    if entry != [] {
      NoneDefined(entry[1..]);
      assert forall i :: 0 <= i < |entry[1..]| ==> entry[1..][i] == entry[i + 1];
    }
  }

  lemma EntryHasUniqueKeys(info: JsValue, contextTraceId: JsValue)
    requires info.Obj? && BuildLogEntry(info, contextTraceId).Normal?
    ensures var e := BuildLogEntry(info, contextTraceId).value;
      UniqueKeys(e) && (Keys(e) == EntryKeys || Keys(e) == ErrorEntryKeys)
  {
    var e := BuildLogEntry(info, contextTraceId).value;
    var base := BaseEntry(ChosenTraceId(info, contextTraceId), MessageSource(info));
    BaseEntryShape(ChosenTraceId(info, contextTraceId), MessageSource(info));
    if HasErrorMeta(info) {
      ErrorEntryKeysShape(base, Get(info, "meta"), Get(Get(info, "meta"), "error"));
      ErrorEntryKeysDistinct();
      forall i, j | 0 <= i < j < |e| ensures e[i].key != e[j].key {
        assert e[i].key == ErrorEntryKeys[i] && e[j].key == ErrorEntryKeys[j];
      }
    }
  }

  /** The info object winston builds for a plain `logger.info(text)`. */
  function PlainInfo(timestamp: JsValue, level: JsValue, text: string): JsValue
  {
    Obj(PlainObject, [Prop("timestamp", timestamp), Prop("level", level), Prop("message", Str(text))])
  }

  lemma PlainInfoReads(timestamp: JsValue, level: JsValue, text: string)
    ensures var info := PlainInfo(timestamp, level, text);
      && Get(info, "timestamp") == timestamp && Get(info, "level") == level
      && Get(info, "message") == Str(text) && !HasOwn(info, "meta") && Get(info, "meta") == Undefined
      && Get(info, "file") == Undefined && Get(info, "method") == Undefined && Get(info, "category") == Undefined
  {
    var props := PlainInfo(timestamp, level, text).props;
    assert Keys(props) == ["timestamp", "level", "message"];
    LookupAt(props, 0); LookupAt(props, 1); LookupAt(props, 2);
  }

  /** Outside any request such an entry has no trace id and only the message set. */
  lemma PlainInfoEntry(timestamp: JsValue, level: JsValue, text: string)
    ensures var info := PlainInfo(timestamp, level, text);
      BuildLogEntry(info, Undefined) == Normal(BaseEntry(Undefined, info))
  {
    PlainInfoReads(timestamp, level, text);
  }

  /** A plain `logger.info(text)` outside any request prints as `timestamp level : text`. */
  lemma PlainMessageIsShort(timestamp: JsValue, level: JsValue, text: string)
    requires text != ""
    ensures FormatForLocal(PlainInfo(timestamp, level, text), Undefined)
        == Normal(ShortLine(ToStr(timestamp) + " " + ToStr(level) + " : " + text))
  {
    var info := PlainInfo(timestamp, level, text);
    PlainInfoReads(timestamp, level, text);
    PlainInfoEntry(timestamp, level, text);
    var e := BaseEntry(Undefined, info);
    BaseEntryShape(Undefined, info);
    forall i | 0 <= i < |e| && e[i].key != "message" ensures e[i].value == Undefined {
      LookupAt(e, i);
      assert Keys(e)[i] == EntryKeys[i];
    }
  }

  /**
   * `formatForProduction(info)`: `{ timestamp, level, ...buildLogEntry(info) }`.
   * It throws when building the entry does; otherwise timestamp and level
   * come first and the entry, which never has those keys, follows unchanged.
   */
  function FormatForProduction(info: JsValue, contextTraceId: JsValue): (r: Completion<seq<Prop>>)
    requires info.Obj?
    ensures r.ThrowsTypeError? <==> BuildLogEntry(info, contextTraceId).ThrowsTypeError?
    ensures r.Normal? ==>
      r.value == [Prop("timestamp", Get(info, "timestamp")), Prop("level", Get(info, "level"))]
                 + BuildLogEntry(info, contextTraceId).value
  {
    match BuildLogEntry(info, contextTraceId)
    case ThrowsTypeError => ThrowsTypeError
    case Normal(entry) =>
      EntryHasUniqueKeys(info, contextTraceId);
      EntryAfterHeader(Get(info, "timestamp"), Get(info, "level"), entry);
      Normal(Assign([Prop("timestamp", Get(info, "timestamp")), Prop("level", Get(info, "level"))], entry))
  }

  /** Spreading an entry over timestamp and level appends it: no entry key is timestamp or level. */
  lemma EntryAfterHeader(timestamp: JsValue, level: JsValue, e: seq<Prop>)
    requires UniqueKeys(e) && (Keys(e) == EntryKeys || Keys(e) == ErrorEntryKeys)
    ensures var head := [Prop("timestamp", timestamp), Prop("level", level)];
      Assign(head, e) == head + e
  {
    var head := [Prop("timestamp", timestamp), Prop("level", level)];
    assert Keys(head) == ["timestamp", "level"];
    forall i | 0 <= i < |e| ensures e[i].key !in Keys(head) {
      assert e[i].key == Keys(e)[i];
      NotAHeaderKey(i);
    }
    AssignFresh(head, e);
  }

  lemma NotAHeaderKey(i: nat)
    requires i < |ErrorEntryKeys|
    ensures ErrorEntryKeys[i] != "timestamp" && ErrorEntryKeys[i] != "level"
  {
    var ks := ErrorEntryKeys;
    assert ks[0][1] == 'r' && ks[1][0] == 'm' && ks[2][0] == 'f' && ks[3][0] == 'm' && ks[4][0] == 'c' && ks[5][0] == 's';
  }

  // ---------------------------------------------------------------------
  // Transport selection

  datatype Formatter = LocalFormat | ProductionFormat

  /** The console transport's options: level, colouring and printf formatter. */
  datatype Transport = Transport(level: string, colorize: bool, formatter: Formatter)

  /** `process.env.NODE_ENV === 'production' ? production : development`. */
  function SelectTransport(nodeEnv: JsValue): (t: Transport)
    ensures t.formatter == ProductionFormat <==> nodeEnv == Str("production")
    ensures t.formatter == ProductionFormat ==> t == Transport("info", false, ProductionFormat)
    ensures t.formatter == LocalFormat ==> t == Transport("debug", true, LocalFormat)
  {
    if nodeEnv == Str("production") then Transport("info", false, ProductionFormat)
    else Transport("debug", true, LocalFormat)
  }
}
