/**
 * Environment-variable handling in config/index.js: the schema's
 * constants, the masking of secret values in the log, the filter that
 * finds variables filled in from defaults, the MONGO_URI pattern, and
 * `validateEnvironmentVariables`, which logs all of this and exits with
 * code 1 on an invalid environment.
 *
 * The schema validator is not modelled: its verdict, the validated
 * variables (after coercion and defaults) and its error messages are
 * inputs.
 */
module Config {
  import opened Js
  import Logger

  // ---------------------------------------------------------------------
  // The schema

  /** The variables the schema defines, in declaration order. */
  const AppEnvVarNames: seq<string> := ["NODE_ENV", "PORT", "MONGO_URI"]
  const NodeEnvValues: seq<string> := ["local", "dev", "qa", "stage", "prod"]
  const DefaultPort: int := 3000
  const DefaultMongoUri: string := "mongodb://127.0.0.1:27017/my-starter-db"

  /** What the code reads from a variable's schema entry: its default (undefined if none) and the mask flag. */
  datatype VarSchema = VarSchema(default: JsValue, shouldMaskValue: bool)

  function Schema(name: string): VarSchema
    requires name in AppEnvVarNames
  {
    if name == "NODE_ENV" then VarSchema(Undefined, false)
    else if name == "PORT" then VarSchema(Num(DefaultPort), false)
    else VarSchema(Str(DefaultMongoUri), true)
  }

  /** NODE_ENV passes the schema only with one of the five listed values. */
  predicate NodeEnvConforms(v: JsValue)
  {
    v.Str? && v.s in NodeEnvValues
  }

  /**
   * The logger's production format needs NODE_ENV to be "production",
   * which the schema rejects: under a passing configuration the
   * development transport is always chosen.
   */
  lemma PassingConfigSelectsDevelopmentTransport(nodeEnv: JsValue)
    requires NodeEnvConforms(nodeEnv)
    ensures Logger.SelectTransport(nodeEnv) == Logger.Transport("debug", true, Logger.LocalFormat)
  {
    assert "production" !in NodeEnvValues by {
      forall i | 0 <= i < |NodeEnvValues| ensures NodeEnvValues[i] != "production" {
        assert |NodeEnvValues[i]| < |"production"|;
      }
    }
  }

  // ---------------------------------------------------------------------
  // Masking

  /** The characters `.` does not match: the four line terminators. */
  predicate IsLineTerminator(c: char)
  {
    c == '\n' || c == '\r' || c == '\U{2028}' || c == '\U{2029}'
  }

  /** `value.replace(/./g, '*')`. */
  function Mask(s: string): (m: string)
    ensures |m| == |s|
    ensures forall i :: 0 <= i < |s| ==> m[i] == if IsLineTerminator(s[i]) then s[i] else '*'
  {
    if s == [] then []
    else [if IsLineTerminator(s[0]) then s[0] else '*'] + Mask(s[1..])
  }

  /** Masking twice masks nothing more. */
  lemma MaskIdempotent(s: string)
    ensures Mask(Mask(s)) == Mask(s)
  {
  }

  /** The masked text tells two values apart only by their length and where their line breaks are. */
  lemma MaskRevealsOnlyShape(s: string, t: string)
    ensures Mask(s) == Mask(t) <==> SameShape(s, t)
  {
    if Mask(s) == Mask(t) {
      MaskedEqualHaveSameShape(s, t);
    }
    if SameShape(s, t) {
      SameShapeMaskEqual(s, t);
    }
  }

  /** Same length, and wherever either has a line break the two agree. */
  predicate SameShape(s: string, t: string)
  {
    |s| == |t| && forall i :: 0 <= i < |s| ==>
      (IsLineTerminator(s[i]) || IsLineTerminator(t[i]) ==> s[i] == t[i])
  }

  lemma MaskedEqualHaveSameShape(s: string, t: string)
    requires Mask(s) == Mask(t)
    ensures SameShape(s, t)
  {
    var ms, mt := Mask(s), Mask(t);
    forall i | 0 <= i < |s| && (IsLineTerminator(s[i]) || IsLineTerminator(t[i])) ensures s[i] == t[i] {
      assert ms[i] == mt[i];
    }
  }

  lemma {:induction false} SameShapeMaskEqual(s: string, t: string)
    requires SameShape(s, t)
    ensures Mask(s) == Mask(t)
  {
    if s != [] {
      assert SameShape(s[1..], t[1..]) by {
        forall i | 0 <= i < |s[1..]| ensures s[1..][i] == s[i + 1] && t[1..][i] == t[i + 1] { }
      }
      SameShapeMaskEqual(s[1..], t[1..]);
    }
  }

  /** `safelyLogValue(name, value)`: the line logged for one variable; `.replace` on a non-string throws. */
  function SafelyLogValue(name: string, value: JsValue): (r: Completion<string>)
    requires name in AppEnvVarNames
    ensures r.ThrowsTypeError? <==> Schema(name).shouldMaskValue && !value.Undefined? && !value.Str?
  {
    if Schema(name).shouldMaskValue then
      if value != Undefined then
        if value.Str? then Normal(name + ": " + Mask(value.s)) else ThrowsTypeError
      else Normal(name + ": " + ToStr(Undefined))
    else Normal(name + ": " + ToStr(value))
  }

  /** Only MONGO_URI is masked. */
  lemma OnlyMongoUriIsMasked(name: string)
    requires name in AppEnvVarNames
    ensures Schema(name).shouldMaskValue <==> name == "MONGO_URI"
  {
  }

  /** An unset variable is logged as `name: undefined`, masked or not. */
  lemma UndefinedIsLoggedAsUndefined(name: string)
    requires name in AppEnvVarNames
    ensures SafelyLogValue(name, Undefined) == Normal(name + ": undefined")
  {
    assert name + ": " + ToStr(Undefined) == name + ": undefined";
  }

  /** The other variables are logged verbatim. */
  lemma UnmaskedValuesAreVerbatim(name: string, value: JsValue)
    requires name in AppEnvVarNames && name != "MONGO_URI"
    ensures SafelyLogValue(name, value) == Normal(name + ": " + ToStr(value))
  {
  }

  /** No character of a connection string but its line breaks reaches the log. */
  lemma MongoUriIsNeverLoggedInClear(uri: string)
    ensures var line := SafelyLogValue("MONGO_URI", Str(uri)).value;
      && |line| == |"MONGO_URI: "| + |uri|
      && line[..|"MONGO_URI: "|] == "MONGO_URI: "
      && forall i :: 0 <= i < |uri| && !IsLineTerminator(uri[i]) ==> line[|"MONGO_URI: "| + i] == '*'
  {
    var line := SafelyLogValue("MONGO_URI", Str(uri)).value;
    assert line == "MONGO_URI: " + Mask(uri);
  }

  // ---------------------------------------------------------------------
  // Defaulted variables

  /** `obj[name]`: undefined for a missing key. */
  function Read(env: map<string, JsValue>, name: string): JsValue
  {
    if name in env then env[name] else Undefined
  }

  /** process.env holds strings only. */
  function AsValues(processEnv: map<string, string>): map<string, JsValue>
  {
    map k | k in processEnv :: Str(processEnv[k])
  }

  /** `default != undefined && ENV_COPY[name] != process.env[name]`, both loose. */
  predicate IsDefaulted(name: string, validated: map<string, JsValue>, processEnv: map<string, JsValue>)
    requires name in AppEnvVarNames
  {
    !LooseEquals(Schema(name).default, Undefined)
    && !LooseEquals(Read(validated, name), Read(processEnv, name))
  }

  /** `names.filter(...)` with the defaulted test: a name survives exactly when it is defaulted. */
  function FilterDefaulted(names: seq<string>, validated: map<string, JsValue>, processEnv: map<string, JsValue>): (r: seq<string>)
    requires forall n :: n in names ==> n in AppEnvVarNames
    ensures forall n :: n in r <==> n in names && IsDefaulted(n, validated, processEnv)
  {
    if names == [] then []
    else
      var rest := FilterDefaulted(names[1..], validated, processEnv);
      assert names == [names[0]] + names[1..];
      (if IsDefaulted(names[0], validated, processEnv) then [names[0]] else []) + rest
  }

  /**
   * `appEnvVarNames.filter(...)`: exactly the schema names with a default
   * whose validated value is loosely unequal to the process value, in
   * schema order.
   */
  function DefaultedNames(validated: map<string, JsValue>, processEnv: map<string, JsValue>): (r: seq<string>)
    ensures forall n :: n in r <==> n in AppEnvVarNames && IsDefaulted(n, validated, processEnv)
    ensures IsSubsequence(r, AppEnvVarNames)
  {
    FilterKeepsOrder(AppEnvVarNames, validated, processEnv);
    FilterDefaulted(AppEnvVarNames, validated, processEnv)
  }

  /** a is b with some elements dropped. */
  predicate IsSubsequence(a: seq<string>, b: seq<string>)
  {
    if a == [] then true
    else if b == [] then false
    else (a[0] == b[0] && IsSubsequence(a[1..], b[1..])) || IsSubsequence(a, b[1..])
  }

  lemma {:induction false} FilterKeepsOrder(names: seq<string>, validated: map<string, JsValue>, processEnv: map<string, JsValue>)
    requires forall m :: m in names ==> m in AppEnvVarNames
    ensures IsSubsequence(FilterDefaulted(names, validated, processEnv), names)
  {
    if names != [] {
      var rest := FilterDefaulted(names[1..], validated, processEnv);
      FilterKeepsOrder(names[1..], validated, processEnv);
      if IsDefaulted(names[0], validated, processEnv) {
        assert ([names[0]] + rest)[1..] == rest;
      } else {
        assert FilterDefaulted(names, validated, processEnv) == rest;
      }
    }
  }

  /** NODE_ENV has no default, so it is never reported as defaulted. */
  lemma NodeEnvIsNeverDefaulted(validated: map<string, JsValue>, processEnv: map<string, JsValue>)
    ensures "NODE_ENV" !in DefaultedNames(validated, processEnv)
  {
  }

  /** A PORT given as text and coerced to the same number is not reported as defaulted. */
  lemma CoercedPortIsNotDefaulted(validated: map<string, JsValue>, processEnv: map<string, string>, port: SafeInt)
    requires Read(validated, "PORT") == Num(port)
    requires "PORT" in processEnv && processEnv["PORT"] == ToStr(Num(port))
    ensures "PORT" !in DefaultedNames(validated, AsValues(processEnv))
  {
    NumberEqualsItsText(port);
  }

  /** A missing PORT filled in with 3000 is reported. */
  lemma MissingPortIsDefaulted(validated: map<string, JsValue>, processEnv: map<string, string>)
    requires Read(validated, "PORT") == Num(DefaultPort)
    requires "PORT" !in processEnv
    ensures "PORT" in DefaultedNames(validated, AsValues(processEnv))
  {
  }

  // ---------------------------------------------------------------------
  // The MONGO_URI pattern `^mongodb:\/\/[^/]+\/[\w-]+$`

  const MongoScheme: string := "mongodb://"

  /** `[\w-]`. */
  predicate IsNameChar(c: char)
  {
    'a' <= c <= 'z' || 'A' <= c <= 'Z' || '0' <= c <= '9' || c == '_' || c == '-'
  }

  /** t splits at k into a host without '/', the '/' itself, and a name of `[\w-]` characters. */
  predicate IsHostNameSplit(t: string, k: nat)
    requires k < |t|
  {
    t[k] == '/' && (forall j :: 0 <= j < k ==> t[j] != '/') && forall j :: k < j < |t| ==> IsNameChar(t[j])
  }

  /** The pattern, stated declaratively: the scheme, a non-empty host, '/', a non-empty name. */
  predicate IsMongoUriText(s: string)
  {
    && |s| > |MongoScheme|
    && s[..|MongoScheme|] == MongoScheme
    && var t := s[|MongoScheme|..];
       exists k: nat :: 0 < k < |t| - 1 && IsHostNameSplit(t, k)
  }

  /** `[\w-]+$` matched one character at a time. */
  function MatchNameRun(t: string): bool
  {
    t != [] && IsNameChar(t[0]) && (|t| == 1 || MatchNameRun(t[1..]))
  }

  /** `[^/]+\/` followed by the name; seen says whether a host character has been consumed. */
  function MatchHostRun(t: string, seen: bool): bool
  {
    if t == [] then false
    else if t[0] == '/' then seen && MatchNameRun(t[1..])
    else MatchHostRun(t[1..], true)
  }

  lemma {:induction false} NameRunIsExact(t: string)
    ensures MatchNameRun(t) <==> t != [] && forall j :: 0 <= j < |t| ==> IsNameChar(t[j])
  {
    if |t| > 1 {
      NameRunIsExact(t[1..]);
      assert forall j :: 0 < j < |t| ==> t[j] == t[1..][j - 1];
    }
  }

  lemma {:induction false} HostRunIsExact(t: string, seen: bool)
    ensures MatchHostRun(t, seen) <==>
      exists k: nat :: k < |t| - 1 && (seen || k > 0) && IsHostNameSplit(t, k)
  {
    if t == [] {
    } else if t[0] == '/' {
      NameRunIsExact(t[1..]);
      assert forall j :: 0 < j < |t| ==> t[j] == t[1..][j - 1];
      if MatchHostRun(t, seen) {
        assert IsHostNameSplit(t, 0);
      }
      if exists k: nat :: k < |t| - 1 && (seen || k > 0) && IsHostNameSplit(t, k) {
        var k: nat :| k < |t| - 1 && (seen || k > 0) && IsHostNameSplit(t, k);
        assert k == 0;
      }
    } else {
      var u := t[1..];
      HostRunIsExact(u, true);
      assert forall j :: 0 < j < |t| ==> t[j] == u[j - 1];
      if MatchHostRun(t, seen) {
        var k: nat :| k < |u| - 1 && IsHostNameSplit(u, k);
        assert IsHostNameSplit(t, k + 1);
      }
      if exists k: nat :: k < |t| - 1 && (seen || k > 0) && IsHostNameSplit(t, k) {
        var k: nat :| k < |t| - 1 && (seen || k > 0) && IsHostNameSplit(t, k);
        assert k > 0;
        assert IsHostNameSplit(u, k - 1);
      }
    }
  }

  /** The hand-written matcher accepts exactly the strings the pattern describes. */
  function MatchesMongoUri(s: string): (ok: bool)
    ensures ok <==> IsMongoUriText(s)
  {
    if |s| > |MongoScheme| && s[..|MongoScheme|] == MongoScheme then
      HostRunIsExact(s[|MongoScheme|..], false);
      MatchHostRun(s[|MongoScheme|..], false)
    else
      false
  }

  /** Every scheme, host without '/', '/' and non-empty name of `[\w-]` characters matches. */
  lemma {:induction false} SchemeHostNameMatches(host: string, name: string)
    requires host != [] && '/' !in host
    requires name != [] && forall c :: c in name ==> IsNameChar(c)
    ensures MatchesMongoUri(MongoScheme + host + "/" + name)
  {
    var s := MongoScheme + host + "/" + name;
    var t := host + "/" + name;
    assert s[..|MongoScheme|] == MongoScheme;
    assert s[|MongoScheme|..] == t;
    var k := |host|;
    assert IsHostNameSplit(t, k) by {
      forall j | 0 <= j < k ensures t[j] != '/' {
        assert t[j] == host[j];
      }
      forall j | k < j < |t| ensures IsNameChar(t[j]) {
        assert t[j] == name[j - k - 1];
      }
    }
  }

  /** The default connection string satisfies the pattern. */
  lemma DefaultMongoUriMatches()
    ensures MatchesMongoUri(DefaultMongoUri)
  {
    assert DefaultMongoUri == MongoScheme + "127.0.0.1:27017" + "/" + "my-starter-db";
    SchemeHostNameMatches("127.0.0.1:27017", "my-starter-db");
  }

  /** A connection string ending in '/' (no database name) does not. */
  lemma TrailingSlashFails(s: string)
    requires s != [] && s[|s| - 1] == '/'
    ensures !MatchesMongoUri(s)
  {
  }

  // ---------------------------------------------------------------------
  // The validation run

  datatype Level = Info | Warn | Error

  /** One call to the logger. */
  datatype LogLine = LogLine(level: Level, text: string)

  const InitialValuesTitle: string := "Env validation: INITIAL VALUES"
  const DefaultsSetTitle: string := "Env validation: DEFAULTS SET"
  const SuccessTitle: string := "Env validation: SUCCESS"
  const FailureTitle: string := "Env validation: FAILURE"

  /** Every variable of env can be logged without a throw: MONGO_URI is a string or unset. */
  predicate Loggable(env: map<string, JsValue>)
  {
    Read(env, "MONGO_URI").Str? || Read(env, "MONGO_URI").Undefined?
  }

  function ValueLine(name: string, env: map<string, JsValue>): LogLine
    requires name in AppEnvVarNames && Loggable(env)
  {
    LogLine(Info, SafelyLogValue(name, Read(env, name)).value)
  }

  /** The lines `safelyLogValue` writes for names, read from env. */
  function ValueLines(names: seq<string>, env: map<string, JsValue>): seq<LogLine>
    requires (forall n :: n in names ==> n in AppEnvVarNames) && Loggable(env)
  {
    seq(|names|, i requires 0 <= i < |names| => ValueLine(names[i], env))
  }

  function ErrorLines(messages: seq<string>): seq<LogLine>
  {
    seq(|messages|, i requires 0 <= i < |messages| => LogLine(Error, messages[i]))
  }

  /** The DEFAULTS SET block: present only when some variable was defaulted. */
  function DefaultsBlock(validated: map<string, JsValue>, processEnv: map<string, JsValue>): seq<LogLine>
    requires Loggable(validated)
  {
    var defaulted := DefaultedNames(validated, processEnv);
    if |defaulted| > 0 then
      assert forall n :: n in defaulted ==> n in AppEnvVarNames;
      [LogLine(Warn, DefaultsSetTitle)] + ValueLines(defaulted, validated)
    else []
  }

  /**
   * Everything `validateEnvironmentVariables` logs, in order: one line per
   * schema variable and title, one per defaulted variable and its title when
   * there are any, and the verdict with one line per validator message.
   */
  function ValidationLog(before: map<string, JsValue>, processEnv: map<string, JsValue>,
                         validated: map<string, JsValue>, isValid: bool, messages: seq<string>): (log: seq<LogLine>)
    requires Loggable(before) && Loggable(validated)
    ensures var defaulted := DefaultedNames(validated, processEnv);
      |log| == 1 + |AppEnvVarNames|
               + (if |defaulted| > 0 then 1 + |defaulted| else 0)
               + (if isValid then 1 else 1 + |messages|)
  {
    InitialBlock(before) + DefaultsBlock(validated, processEnv) + FinalBlock(isValid, messages)
  }

  /** The INITIAL VALUES block: every schema variable as found before validation. */
  function InitialBlock(before: map<string, JsValue>): seq<LogLine>
    requires Loggable(before)
  {
    [LogLine(Info, InitialValuesTitle)] + ValueLines(AppEnvVarNames, before)
  }

  /** SUCCESS, or FAILURE followed by the validator's messages. */
  function FinalBlock(isValid: bool, messages: seq<string>): seq<LogLine>
  {
    if isValid then [LogLine(Info, SuccessTitle)] else [LogLine(Error, FailureTitle)] + ErrorLines(messages)
  }

  /** An error-level line is logged exactly when validation fails. */
  lemma ErrorLoggedIffInvalid(before: map<string, JsValue>, processEnv: map<string, JsValue>,
                              validated: map<string, JsValue>, isValid: bool, messages: seq<string>)
    requires Loggable(before) && Loggable(validated)
    ensures var log := ValidationLog(before, processEnv, validated, isValid, messages);
      (exists i :: 0 <= i < |log| && log[i].level == Error) <==> !isValid
  {
    var log := ValidationLog(before, processEnv, validated, isValid, messages);
    var init, block, final := InitialBlock(before), DefaultsBlock(validated, processEnv), FinalBlock(isValid, messages);
    assert log == init + block + final;
    assert forall i :: 0 <= i < |init| ==> init[i].level == Info;
    assert forall i :: 0 <= i < |block| ==> block[i].level != Error;
    if !isValid {
      assert log[|init| + |block|] == final[0];
    } else {
      assert forall i :: 0 <= i < |log| ==> log[i].level != Error by {
        forall i | 0 <= i < |log| ensures log[i].level != Error {
          if i < |init| { assert log[i] == init[i]; }
          else if i < |init| + |block| { assert log[i] == block[i - |init|]; }
          else { assert log[i] == final[i - |init| - |block|]; }
        }
      }
    }
  }

  /** On failure the log ends with FAILURE followed by every validator message in order. */
  lemma FailureLogsEveryMessage(before: map<string, JsValue>, processEnv: map<string, JsValue>,
                                validated: map<string, JsValue>, messages: seq<string>)
    requires Loggable(before) && Loggable(validated)
    ensures var log := ValidationLog(before, processEnv, validated, false, messages);
      && |log| > |messages|
      && log[|log| - |messages| - 1] == LogLine(Error, FailureTitle)
      && forall i :: 0 <= i < |messages| ==> log[|log| - |messages| + i] == LogLine(Error, messages[i])
  {
  }

  /** A warning is logged exactly when some variable was defaulted. */
  lemma WarningIffDefaulted(before: map<string, JsValue>, processEnv: map<string, JsValue>,
                            validated: map<string, JsValue>, isValid: bool, messages: seq<string>)
    requires Loggable(before) && Loggable(validated)
    ensures var log := ValidationLog(before, processEnv, validated, isValid, messages);
      (exists i :: 0 <= i < |log| && log[i].level == Warn) <==> |DefaultedNames(validated, processEnv)| > 0
  {
    var log := ValidationLog(before, processEnv, validated, isValid, messages);
    var init := [LogLine(Info, InitialValuesTitle)] + ValueLines(AppEnvVarNames, before);
    var block := DefaultsBlock(validated, processEnv);
    var tail := if isValid then [LogLine(Info, SuccessTitle)] else [LogLine(Error, FailureTitle)] + ErrorLines(messages);
    assert log == init + block + tail;
    assert forall i :: 0 <= i < |init| ==> init[i].level != Warn;
    assert forall i :: 0 <= i < |tail| ==> tail[i].level != Warn;
    if |DefaultedNames(validated, processEnv)| > 0 {
      assert log[|init|] == block[0];
    } else {
      assert log == init + tail;
    }
  }

  /** The initial values are logged first, one line per schema variable, in schema order. */
  lemma InitialValuesComeFirst(before: map<string, JsValue>, processEnv: map<string, JsValue>,
                               validated: map<string, JsValue>, isValid: bool, messages: seq<string>)
    requires Loggable(before) && Loggable(validated)
    ensures var log := ValidationLog(before, processEnv, validated, isValid, messages);
      && log[0] == LogLine(Info, InitialValuesTitle)
      && forall i :: 0 <= i < |AppEnvVarNames| ==>
           log[1 + i] == LogLine(Info, SafelyLogValue(AppEnvVarNames[i], Read(before, AppEnvVarNames[i])).value)
  {
  }

  /**
   * Right after the initial block, when some variable was defaulted, come
   * the DEFAULTS SET warning and one line per defaulted variable, read from
   * the validated copy, in schema order.
   */
  lemma DefaultsFollowInitialValues(before: map<string, JsValue>, processEnv: map<string, JsValue>,
                                    validated: map<string, JsValue>, isValid: bool, messages: seq<string>)
    requires Loggable(before) && Loggable(validated)
    ensures var log := ValidationLog(before, processEnv, validated, isValid, messages);
      var defaulted := DefaultedNames(validated, processEnv);
      var k := 1 + |AppEnvVarNames|;
      |defaulted| > 0 ==>
        && log[k] == LogLine(Warn, DefaultsSetTitle)
        && forall i :: 0 <= i < |defaulted| ==>
             log[k + 1 + i] == LogLine(Info, SafelyLogValue(defaulted[i], Read(validated, defaulted[i])).value)
  {
    var defaulted := DefaultedNames(validated, processEnv);
    if |defaulted| > 0 {
      var log := ValidationLog(before, processEnv, validated, isValid, messages);
      var init, block, final := InitialBlock(before), DefaultsBlock(validated, processEnv), FinalBlock(isValid, messages);
      assert log == init + block + final;
      DefaultsBlockLine(validated, processEnv, 0);
      InsideMiddleBlock(init, block, final, 0);
      forall i | 0 <= i < |defaulted| ensures log[|init| + 1 + i] == ValueLine(defaulted[i], validated) {
        DefaultsBlockLine(validated, processEnv, i);
        InsideMiddleBlock(init, block, final, 1 + i);
      }
    }
  }

  /** The DEFAULTS SET block is its title, then the i-th defaulted variable's line at 1 + i. */
  lemma DefaultsBlockLine(validated: map<string, JsValue>, processEnv: map<string, JsValue>, i: nat)
    requires Loggable(validated) && i < |DefaultedNames(validated, processEnv)|
    ensures var block := DefaultsBlock(validated, processEnv);
      && |block| == 1 + |DefaultedNames(validated, processEnv)|
      && block[0] == LogLine(Warn, DefaultsSetTitle)
      && block[1 + i] == ValueLine(DefaultedNames(validated, processEnv)[i], validated)
  {
  }

  lemma InsideMiddleBlock(init: seq<LogLine>, block: seq<LogLine>, final: seq<LogLine>, j: nat)
    requires j < |block|
    ensures (init + block + final)[|init| + j] == block[j]
  {
  }

  /** The log is built block by block; appending the blocks one at a time appends the whole log. */
  lemma ConcatAssociates(a: seq<LogLine>, b: seq<LogLine>, c: seq<LogLine>, d: seq<LogLine>)
    ensures a + b + c + d == a + (b + c + d)
  {
  }

  /**
   * The module's state: the copy of process.env the validator rewrites in
   * place, the log written so far and the exit code once the process exits.
   */
  class EnvValidator {
    var envCopy: map<string, JsValue>
    var log: seq<LogLine>
    var exitCode: Option<int>

    /** `let ENV_COPY = copyProcessEnv()` at module load. */
    constructor (processEnv: map<string, string>)
      ensures envCopy == AsValues(processEnv) && log == [] && exitCode == None
    {
      envCopy := AsValues(processEnv);
      log := [];
      exitCode := None;
    }

    /** One `safelyLogValue` line per name, read from the current copy. */
    method LogValues(names: seq<string>)
      requires (forall n :: n in names ==> n in AppEnvVarNames) && Loggable(envCopy)
      modifies this`log
      ensures log == old(log) + ValueLines(names, envCopy)
    {
      var i := 0;
      while i < |names|
        invariant 0 <= i <= |names|
        invariant log == old(log) + ValueLines(names[..i], envCopy)
      {
        var line := SafelyLogValue(names[i], Read(envCopy, names[i]));
        log := log + [LogLine(Info, line.value)];
        assert ValueLines(names[..i + 1], envCopy) == ValueLines(names[..i], envCopy) + [ValueLine(names[i], envCopy)];
        i := i + 1;
      }
      assert names[..|names|] == names;
    }

    /** `logAndExit(errors)`: FAILURE, each message in order, then exit code 1. */
    method LogAndExit(messages: seq<string>)
      modifies this`log, this`exitCode
      ensures log == old(log) + [LogLine(Error, FailureTitle)] + ErrorLines(messages)
      ensures exitCode == Some(1)
    {
      log := log + [LogLine(Error, FailureTitle)];
      for i := 0 to |messages|
        invariant log == old(log) + [LogLine(Error, FailureTitle)] + ErrorLines(messages[..i])
      {
        log := log + [LogLine(Error, messages[i])];
        assert ErrorLines(messages[..i + 1]) == ErrorLines(messages[..i]) + [LogLine(Error, messages[i])];
      }
      assert messages[..|messages|] == messages;
      exitCode := Some(1);
    }

    /** The INITIAL VALUES block, read from the copy before validation. */
    method LogInitialValues()
      requires Loggable(envCopy)
      modifies this`log
      ensures log == old(log) + InitialBlock(envCopy)
    {
      log := log + [LogLine(Info, InitialValuesTitle)];
      LogValues(AppEnvVarNames);
    }

    /** The DEFAULTS SET block, read from the validated copy. */
    method LogDefaults(processEnv: map<string, string>)
      requires Loggable(envCopy)
      modifies this`log
      ensures log == old(log) + DefaultsBlock(envCopy, AsValues(processEnv))
    {
      var defaulted := DefaultedNames(envCopy, AsValues(processEnv));
      if |defaulted| > 0 {
        log := log + [LogLine(Warn, DefaultsSetTitle)];
        assert forall n :: n in defaulted ==> n in AppEnvVarNames;
        LogValues(defaulted);
      }
    }

    /**
     * `validateEnvironmentVariables()`: log the initial values, let the
     * validator rewrite the copy, log the defaulted variables, then either
     * log SUCCESS or log the errors and exit with code 1.
     */
    method ValidateEnvironmentVariables(processEnv: map<string, string>, isValid: bool,
                                        validated: map<string, JsValue>, messages: seq<string>)
      requires Loggable(envCopy) && Loggable(validated)
      modifies this
      ensures envCopy == validated
      ensures log == old(log) + ValidationLog(old(envCopy), AsValues(processEnv), validated, isValid, messages)
      ensures exitCode == if isValid then old(exitCode) else Some(1)
    {
      ghost var log0, before := log, envCopy;
      LogInitialValues();
      envCopy := validated;
      LogDefaults(processEnv);
      Conclude(isValid, messages);
      ConcatAssociates(log0, InitialBlock(before), DefaultsBlock(validated, AsValues(processEnv)), FinalBlock(isValid, messages));
    }

    /** `if (!isValid) logAndExit(validator.errors) else logger.info('... SUCCESS')`. */
    method Conclude(isValid: bool, messages: seq<string>)
      modifies this`log, this`exitCode
      ensures log == old(log) + FinalBlock(isValid, messages)
      ensures exitCode == if isValid then old(exitCode) else Some(1)
    {
      if !isValid {
        LogAndExit(messages);
      } else {
        log := log + [LogLine(Info, SuccessTitle)];
      }
    }
  }
}
