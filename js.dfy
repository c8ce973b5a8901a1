/**
 * The slice of JavaScript value semantics that the middleware, logger and
 * config code rely on: truthiness, template-string conversion, loose
 * equality, lodash's isEmpty, property reads and object spread.
 *
 * Objects are ordered lists of own properties (insertion order, as in
 * JavaScript); a class tag stands for the prototype chain.
 */
module Js {

  datatype Option<T> = None | Some(value: T)

  /** Largest integer a JavaScript number holds exactly (2^53 - 1). */
  const MaxSafeInteger: int := 0x1F_FFFF_FFFF_FFFF

  /** Numbers are modelled as the exactly representable integers. */
  type SafeInt = n: int | -MaxSafeInteger <= n <= MaxSafeInteger

  /** The prototype an object was built from. */
  datatype Class =
    | PlainObject
    | ErrorClass                // Error
    | SyntaxErrorClass          // SyntaxError (thrown by the JSON body parser)
    | ErrorResponseClass        // the object-taking ErrorResponse of utils/error
    | LegacyErrorResponseClass  // the positional ErrorResponse of utils/error-handling

  datatype JsValue =
    | Undefined
    | Null
    | Bool(b: bool)
    | Num(n: SafeInt)
    | Str(s: string)
    | Obj(cls: Class, props: seq<Prop>)
    | Arr(items: seq<JsValue>)

  datatype Prop = Prop(key: string, value: JsValue)

  /** The outcome of evaluating code that may throw a TypeError. */
  datatype Completion<T> = Normal(value: T) | ThrowsTypeError

  // ---------------------------------------------------------------------
  // Own-property lists

  function Keys(o: seq<Prop>): (ks: seq<string>)
    ensures |ks| == |o| && forall i :: 0 <= i < |o| ==> ks[i] == o[i].key
  {
    if o == [] then [] else [o[0].key] + Keys(o[1..])
  }

  predicate UniqueKeys(o: seq<Prop>)
  {
    forall i, j :: 0 <= i < j < |o| ==> o[i].key != o[j].key
  }

  /** Reading a property that is absent gives undefined. */
  function Lookup(o: seq<Prop>, k: string): JsValue
  {
    if o == [] then Undefined
    else if o[0].key == k then o[0].value
    else Lookup(o[1..], k)
  }

  /** `o[k] = v`: an existing key keeps its position, a new key goes last. */
  function SetProp(o: seq<Prop>, k: string, v: JsValue): seq<Prop>
  {
    if o == [] then [Prop(k, v)]
    else if o[0].key == k then [Prop(k, v)] + o[1..]
    else [o[0]] + SetProp(o[1..], k, v)
  }

  /** `{ ...o, ...ps }` (and `{ ...o, a, b }`): the properties of ps written in order. */
  function Assign(o: seq<Prop>, ps: seq<Prop>): seq<Prop>
    decreases |ps|
  {
    if ps == [] then o else Assign(SetProp(o, ps[0].key, ps[0].value), ps[1..])
  }

  lemma {:induction false} LookupAbsent(o: seq<Prop>, k: string)
    requires k !in Keys(o)
    ensures Lookup(o, k) == Undefined
  {
    if o != [] {
      assert Keys(o)[0] == o[0].key && Keys(o[1..]) == Keys(o)[1..];
      LookupAbsent(o[1..], k);
    }
  }

  /** With distinct keys, each listed property is what a read finds. */
  lemma {:induction false} LookupAt(o: seq<Prop>, i: nat)
    requires UniqueKeys(o) && i < |o|
    ensures o[i].key in Keys(o) && Lookup(o, o[i].key) == o[i].value
  {
    if i > 0 {
      LookupAt(o[1..], i - 1);
    }
  }

  lemma {:induction false} SetPropLookup(o: seq<Prop>, k: string, v: JsValue, j: string)
    ensures Lookup(SetProp(o, k, v), j) == if j == k then v else Lookup(o, j)
  {
    if o != [] && o[0].key != k {
      SetPropLookup(o[1..], k, v, j);
    }
  }

  lemma {:induction false} SetPropKeys(o: seq<Prop>, k: string, v: JsValue)
    ensures Keys(SetProp(o, k, v)) == if k in Keys(o) then Keys(o) else Keys(o) + [k]
  {
    if o == [] {
    } else if o[0].key == k {
      assert Keys(o)[0] == k;
      assert Keys([Prop(k, v)] + o[1..]) == Keys(o);
    } else {
      SetPropKeys(o[1..], k, v);
      assert Keys(o) == [o[0].key] + Keys(o[1..]);
      assert Keys([o[0]] + SetProp(o[1..], k, v)) == [o[0].key] + Keys(SetProp(o[1..], k, v));
    }
  }

  /** Spreading properties with distinct keys: later sources win, key by key. */
  lemma {:induction false} AssignLookup(o: seq<Prop>, ps: seq<Prop>, j: string)
    requires UniqueKeys(ps)
    ensures Lookup(Assign(o, ps), j) == if j in Keys(ps) then Lookup(ps, j) else Lookup(o, j)
    decreases |ps|
  {
    if ps != [] {
      var o' := SetProp(o, ps[0].key, ps[0].value);
      assert Keys(ps) == [ps[0].key] + Keys(ps[1..]);
      AssignLookup(o', ps[1..], j);
      SetPropLookup(o, ps[0].key, ps[0].value, j);
      if j == ps[0].key {
        assert j !in Keys(ps[1..]);
      }
    }
  }

  /** Spreading keys that are all new appends them in order. */
  lemma {:induction false} AssignFresh(o: seq<Prop>, ps: seq<Prop>)
    requires forall i :: 0 <= i < |ps| ==> ps[i].key !in Keys(o)
    requires UniqueKeys(ps)
    ensures Assign(o, ps) == o + ps
    decreases |ps|
  {
    if ps != [] {
      SetPropFresh(o, ps[0].key, ps[0].value);
      var o' := o + [ps[0]];
      assert Keys(o') == Keys(o) + [ps[0].key];
      forall i | 0 <= i < |ps[1..]| ensures ps[1..][i].key !in Keys(o') {
        assert ps[1..][i] == ps[i + 1];
      }
      AssignFresh(o', ps[1..]);
      assert o' + ps[1..] == o + ps;
    }
  }

  lemma {:induction false} SetPropFresh(o: seq<Prop>, k: string, v: JsValue)
    requires k !in Keys(o)
    ensures SetProp(o, k, v) == o + [Prop(k, v)]
  {
    if o != [] {
      assert Keys(o)[0] == o[0].key && Keys(o[1..]) == Keys(o)[1..];
      SetPropFresh(o[1..], k, v);
    }
  }

  // ---------------------------------------------------------------------
  // Values

  /** `!!v`. NaN and -0 are not modelled. */
  predicate Truthy(v: JsValue)
  {
    match v
    case Undefined => false
    case Null => false
    case Bool(b) => b
    case Num(n) => n != 0
    case Str(s) => s != ""
    case Obj(_, _) => true
    case Arr(_) => true
  }

  predicate IsNullish(v: JsValue)
  {
    v.Undefined? || v.Null?
  }

  /** lodash `_.isEmpty`: only strings, arrays and objects with contents are non-empty. */
  predicate IsEmpty(v: JsValue)
  {
    match v
    case Str(s) => s == ""
    case Arr(items) => items == []
    case Obj(_, props) => props == []
    case _ => true
  }

  /** `v instanceof C`: every error class extends Error. */
  predicate InstanceOf(v: JsValue, c: Class)
  {
    v.Obj? && (v.cls == c || (c == ErrorClass && v.cls != PlainObject))
  }

  /** The `name` every Error subclass of the model inherits. */
  function ClassName(c: Class): string
    requires c != PlainObject
  {
    if c == SyntaxErrorClass then "SyntaxError" else "Error"
  }

  /** A property found on the prototype chain rather than on the object. */
  function Inherited(c: Class, k: string): JsValue
  {
    if c != PlainObject && k == "name" then Str(ClassName(c))
    else if c != PlainObject && k == "message" then Str("")
    else Undefined
  }

  /** `v[k]` on a value that is not null or undefined. */
  function Get(v: JsValue, k: string): JsValue
  {
    match v
    case Obj(c, props) => if k in Keys(props) then Lookup(props, k) else Inherited(c, k)
    case _ => Undefined
  }

  /** `k in v` for an object v. */
  predicate HasProperty(v: JsValue, k: string)
  {
    v.Obj? && (k in Keys(v.props) || Inherited(v.cls, k) != Undefined)
  }

  predicate HasOwn(v: JsValue, k: string)
  {
    v.Obj? && k in Keys(v.props)
  }

  // ---------------------------------------------------------------------
  // Decimal text

  function DigitChar(d: nat): char
    requires d < 10
  {
    ((d + '0' as int) as char)
  }

  predicate IsDigit(c: char)
  {
    '0' <= c <= '9'
  }

  function DigitValue(c: char): nat
    requires IsDigit(c)
  {
    (c as int) - ('0' as int)
  }

  /** The decimal text JavaScript prints for a non-negative integer. */
  function NatToDecimal(n: nat): (s: string)
    ensures s != [] && forall i :: 0 <= i < |s| ==> IsDigit(s[i])
  {
    if n < 10 then [DigitChar(n)] else NatToDecimal(n / 10) + [DigitChar(n % 10)]
  }

  function Pow10(k: nat): (p: nat)
    ensures p >= 1
  {
    if k == 0 then 1 else 10 * Pow10(k - 1)
  }

  /** The value a string of decimal digits denotes. */
  function DecimalValue(s: string): nat
    requires forall i :: 0 <= i < |s| ==> IsDigit(s[i])
  {
    if s == [] then 0 else 10 * DecimalValue(s[..|s| - 1]) + DigitValue(s[|s| - 1])
  }

  lemma {:induction false} DecimalRoundTrip(n: nat)
    ensures DecimalValue(NatToDecimal(n)) == n
  {
    var s := NatToDecimal(n);
    if n >= 10 {
      DecimalRoundTrip(n / 10);
      assert s[..|s| - 1] == NatToDecimal(n / 10);
    }
  }

  /** A number below 10^k prints with at most k digits. */
  lemma {:induction false} DecimalLength(n: nat, k: nat)
    requires 0 < k && n < Pow10(k)
    ensures |NatToDecimal(n)| <= k
  {
    if n >= 10 {
      DecimalLength(n / 10, k - 1);
    }
  }

  /** Every modelled number prints as at most 16 digits and a sign. */
  lemma NumberTextLength(n: SafeInt)
    ensures |(if n < 0 then "-" else "") + NatToDecimal(if n < 0 then -n else n)| <= 17
  {
    assert Pow10(4) == 10000 by {
      assert Pow10(1) == 10 && Pow10(2) == 100 && Pow10(3) == 1000;
    }
    assert Pow10(8) == 100000000 by {
      assert Pow10(5) == 100000 && Pow10(6) == 1000000 && Pow10(7) == 10000000;
    }
    assert Pow10(12) == 1000000000000 by {
      assert Pow10(9) == 1000000000 && Pow10(10) == 10000000000 && Pow10(11) == 100000000000;
    }
    assert Pow10(16) == 10000000000000000 by {
      assert Pow10(13) == 10000000000000 && Pow10(14) == 100000000000000;
      assert Pow10(15) == 1000000000000000;
    }
    DecimalLength(if n < 0 then -n else n, 16);
  }

  // ---------------------------------------------------------------------
  // Conversions

  /**
   * Template-string conversion `${v}`. Every object prints as
   * `[object Object]`: a class's own `toString` (Error's `name: message`)
   * is not modelled, since no Error object is stringified here.
   */
  function ToStr(v: JsValue): string
  {
    match v
    case Undefined => "undefined"
    case Null => "null"
    case Bool(b) => if b then "true" else "false"
    case Num(n) => if n < 0 then "-" + NatToDecimal(-n) else NatToDecimal(n)
    case Str(s) => s
    case Obj(_, _) => "[object Object]"
    case Arr(items) => JoinWithCommas(seq(|items|, i requires 0 <= i < |items| =>
                         if IsNullish(items[i]) then "" else ToStr(items[i])))
  }

  function JoinWithCommas(parts: seq<string>): string
  {
    if parts == [] then ""
    else if |parts| == 1 then parts[0]
    else parts[0] + "," + JoinWithCommas(parts[1..])
  }

  /**
   * The white space and line terminators that Number(s) ignores around its
   * digits: tab, the line terminators, vertical tab, form feed, the byte
   * order mark and every space separator of Unicode 15.
   */
  predicate IsNumericSpace(c: char)
  {
    || c == '\t' || c == '\n' || c == '\U{000B}' || c == '\U{000C}' || c == '\r'
    || c == ' ' || c == '\U{00A0}' || c == '\U{1680}'
    || ('\U{2000}' <= c <= '\U{200A}')
    || c == '\U{2028}' || c == '\U{2029}' || c == '\U{202F}' || c == '\U{205F}'
    || c == '\U{3000}' || c == '\U{FEFF}'
  }

  function TrimSpace(s: string): (t: string)
    ensures |t| <= |s|
  {
    if s == [] then s
    else if IsNumericSpace(s[0]) then TrimSpace(s[1..])
    else if IsNumericSpace(s[|s| - 1]) then TrimSpace(s[..|s| - 1])
    else s
  }

  /** Text that starts with a digit or '-' and ends with a digit has no white space to trim. */
  lemma NothingToTrim(t: string)
    requires |t| > 0 && (IsDigit(t[0]) || t[0] == '-') && IsDigit(t[|t| - 1])
    ensures TrimSpace(t) == t
  {
  }

  predicate AllDigits(s: string)
  {
    forall i :: 0 <= i < |s| ==> IsDigit(s[i])
  }

  /**
   * Number(s) for the strings whose value is an integer written in
   * signed decimal; None stands for NaN and for every other numeric syntax.
   */
  function StringToNumber(s: string): Option<int>
  {
    var t := TrimSpace(s);
    if t == "" then Some(0)
    else if AllDigits(t) then Some(DecimalValue(t))
    else if |t| > 1 && t[0] == '-' && AllDigits(t[1..]) then Some(-(DecimalValue(t[1..]) as int))
    else if |t| > 1 && t[0] == '+' && AllDigits(t[1..]) then Some(DecimalValue(t[1..]))
    else None
  }

  /** `a == b` (abstract equality) on the values the core compares. */
  predicate LooseEquals(a: JsValue, b: JsValue)
    decreases (if a.Bool? then 1 else 0) + (if b.Bool? then 1 else 0)
  {
    if IsNullish(a) || IsNullish(b) then IsNullish(a) && IsNullish(b)
    else if a.Num? && b.Str? then StringToNumber(b.s) == Some(a.n)
    else if a.Str? && b.Num? then StringToNumber(a.s) == Some(b.n)
    else if a.Bool? && !b.Bool? then LooseEquals(Num(if a.b then 1 else 0), b)
    else if b.Bool? && !a.Bool? then LooseEquals(a, Num(if b.b then 1 else 0))
    else a == b
  }

  /** The decimal text of a number reads back as that number, so the two are loosely equal. */
  lemma NumberEqualsItsText(n: SafeInt)
    ensures LooseEquals(Num(n), Str(ToStr(Num(n))))
  {
    if n < 0 {
      NegativeTextReadsBack(-n);
    } else {
      DecimalTextReadsBack(n);
    }
  }

  lemma DecimalTextReadsBack(m: nat)
    ensures StringToNumber(NatToDecimal(m)) == Some(m)
  {
    var t := NatToDecimal(m);
    DecimalRoundTrip(m);
    NothingToTrim(t);
  }

  lemma NegativeTextReadsBack(m: nat)
    requires m > 0
    ensures StringToNumber("-" + NatToDecimal(m)) == Some(-(m as int))
  {
    var t := NatToDecimal(m);
    var u := "-" + t;
    DecimalRoundTrip(m);
    NothingToTrim(u);
    assert u[1..] == t;
    assert !AllDigits(u) by { assert !IsDigit(u[0]); }
  }

}
