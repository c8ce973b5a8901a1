/**
 * `validateId(resource)`: the route middleware that checks `req.params.id`
 * first for presence, then for the 24-hex-digit document id format, and
 * reports the two failures with two different status codes.
 */
module Validation {
  import opened Js
  import opened Http
  import opened ErrorResponses

  /** The characters of `[a-f\d]` under the `i` flag: digits and both cases of a-f. */
  predicate IsHexDigit(c: char)
  {
    '0' <= c <= '9' || 'a' <= c <= 'f' || 'A' <= c <= 'F'
  }

  /** Length of a document id. */
  const ObjectIdLength: nat := 24

  /** The id format, stated declaratively: exactly 24 hex digits, either case. */
  predicate IsObjectIdText(s: string)
  {
    |s| == ObjectIdLength && forall i :: 0 <= i < |s| ==> IsHexDigit(s[i])
  }

  /** `^[a-f\d]{n}$` matched against s one character at a time. */
  function MatchesHexRun(s: string, n: nat): bool
  {
    if n == 0 then s == []
    else s != [] && IsHexDigit(s[0]) && MatchesHexRun(s[1..], n - 1)
  }

  /** The matcher accepts exactly the strings of n hex digits. */
  lemma {:induction false} HexRunIsExact(s: string, n: nat)
    ensures MatchesHexRun(s, n) <==> |s| == n && forall i :: 0 <= i < |s| ==> IsHexDigit(s[i])
  {
    if n > 0 && s != [] {
      HexRunIsExact(s[1..], n - 1);
      if IsHexDigit(s[0]) && (forall i :: 0 <= i < |s[1..]| ==> IsHexDigit(s[1..][i])) {
        forall i | 0 <= i < |s| ensures IsHexDigit(s[i]) {
          if i > 0 { assert s[i] == s[1..][i - 1]; }
        }
      }
    }
  }

  /** `VALID_OBJECT_ID_REGEX.test(text)`. */
  function IsValidObjectId(text: string): (ok: bool)
    ensures ok <==> IsObjectIdText(text)
  {
    HexRunIsExact(text, ObjectIdLength);
    MatchesHexRun(text, ObjectIdLength)
  }

  const IdRequiredMessage: string := "'id' is required."

  /** The 404 message for an id of the wrong format: the resource label and the id text, each verbatim at a fixed place. */
  function NotFoundMessage(resource: JsValue, id: JsValue): (m: string)
    ensures var rt, it := ToStr(resource), ToStr(id);
      && |m| == 22 + |rt| + |it|
      && m[..3] == "No "
      && m[3..3 + |rt|] == rt
      && m[3 + |rt|..20 + |rt|] == " found with ID: '"
      && m[20 + |rt|..20 + |rt| + |it|] == it
      && m[20 + |rt| + |it|..] == "'."
  {
    var rt, it := ToStr(resource), ToStr(id);
    var m := "No " + rt + " found with ID: '" + it + "'.";
    assert m == "No " + (rt + (" found with ID: '" + (it + "'.")));
    m
  }

  /** `validateId(resource)(req, res, next)`: a single call to next, with or without an error. */
  function ValidateId(resource: JsValue, req: Request): (r: Effect)
    requires !IsNullish(req.params)
    ensures r.CallNext?
    ensures var id := Get(req.params, "id");
      !Truthy(id) ==>
        && r.arg.Some?
        && InstanceOf(r.arg.value, ErrorResponseClass)
        && Get(r.arg.value, "statusCode") == Num(400)
        && Get(r.arg.value, "message") == Str(IdRequiredMessage)
    ensures var id := Get(req.params, "id");
      Truthy(id) && !IsObjectIdText(ToStr(id)) ==>
        && r.arg.Some?
        && InstanceOf(r.arg.value, ErrorResponseClass)
        && Get(r.arg.value, "statusCode") == Num(404)
        && Get(r.arg.value, "message") == Str(NotFoundMessage(resource, id))
    ensures var id := Get(req.params, "id");
      r.arg.None? <==> Truthy(id) && IsObjectIdText(ToStr(id))
  {
    var id := Get(req.params, "id");
    if !Truthy(id) then
      CallNext(Some(NewErrorResponseFromObject(MessageAndStatus(IdRequiredMessage, 400))))
    else if !IsValidObjectId(ToStr(id)) then
      CallNext(Some(NewErrorResponseFromObject(MessageAndStatus(NotFoundMessage(resource, id), 404))))
    else
      CallNext(None)
  }

  /** The request a route with `:id` receives. */
  function RequestWithId(id: JsValue): Request
  {
    Request(Str("GET"), Str("/"), Undefined, Literal([Prop("id", id)]), Undefined)
  }

  /** Presence is checked before format: an empty id is a 400, never a 404. */
  lemma EmptyIdIsRequiredError(resource: JsValue)
    ensures var r := ValidateId(resource, RequestWithId(Str("")));
      r.arg.Some? && Get(r.arg.value, "statusCode") == Num(400)
  {
    LookupAt([Prop("id", Str(""))], 0);
  }

  /** Case-insensitive format: folding a-f to upper case does not change the verdict. */
  function UpperHex(s: string): (u: string)
    ensures |u| == |s|
  {
    seq(|s|, i requires 0 <= i < |s| =>
      if 'a' <= s[i] <= 'f' then (s[i] as int - 'a' as int + 'A' as int) as char else s[i])
  }

  lemma UpperCaseIdsAccepted(s: string)
    ensures IsObjectIdText(UpperHex(s)) <==> IsObjectIdText(s)
  {
    var u := UpperHex(s);
    assert forall i :: 0 <= i < |s| ==> (IsHexDigit(u[i]) <==> IsHexDigit(s[i]));
  }

  /**
   * The id is stringified first, so a number is judged on its decimal text:
   * 0 is missing (400) and every other number is too short to be an id (404).
   */
  lemma NumericIdIsNeverAccepted(resource: JsValue, n: SafeInt)
    ensures var r := ValidateId(resource, RequestWithId(Num(n)));
      r.arg.Some? && Get(r.arg.value, "statusCode") == (if n == 0 then Num(400) else Num(404))
  {
    LookupAt([Prop("id", Num(n))], 0);
    NumberTextLength(n);
    assert !IsObjectIdText(ToStr(Num(n)));
  }

  /** The resource label only ever appears in the 404 message. */
  lemma ResourceOnlyNamedInNotFound(r1: JsValue, r2: JsValue, req: Request)
    requires !IsNullish(req.params)
    requires var id := Get(req.params, "id"); !Truthy(id) || IsObjectIdText(ToStr(id))
    ensures ValidateId(r1, req) == ValidateId(r2, req)
  {
  }

  /** The valid id the unit tests use. */
  const ValidTestId: string := "54edb381a13ec9142b9bb353"

  /** Hex-digit strings are closed under concatenation. */
  lemma HexDigitsConcat(a: string, b: string)
    requires forall i :: 0 <= i < |a| ==> IsHexDigit(a[i])
    requires forall i :: 0 <= i < |b| ==> IsHexDigit(b[i])
    ensures forall i :: 0 <= i < |a + b| ==> IsHexDigit((a + b)[i])
  {
    forall i | 0 <= i < |a + b| ensures IsHexDigit((a + b)[i]) {
      if i >= |a| { assert (a + b)[i] == b[i - |a|]; }
    }
  }

  lemma ValidTestIdIsObjectId()
    ensures IsObjectIdText(ValidTestId)
  {
    var p, q, r := "54edb381", "a13ec914", "2b9bb353";
    assert forall i :: 0 <= i < |p| ==> IsHexDigit(p[i]);
    assert forall i :: 0 <= i < |q| ==> IsHexDigit(q[i]);
    assert forall i :: 0 <= i < |r| ==> IsHexDigit(r[i]);
    HexDigitsConcat(p, q);
    HexDigitsConcat(p + q, r);
    assert ValidTestId == p + q + r;
  }

  /** The ids the unit tests use: a 24-hex id passes, "1234" is reported as not found. */
  lemma ValidTestIdPasses()
    ensures ValidateId(Str("product"), RequestWithId(Str(ValidTestId))) == CallNext(None)
  {
    LookupAt([Prop("id", Str(ValidTestId))], 0);
    ValidTestIdIsObjectId();
  }

  /** The 404 text for the test's id, spelled out. */
  lemma InvalidTestIdMessage()
    ensures NotFoundMessage(Str("product"), Str("1234")) == "No product found with ID: '1234'."
  {
  }

  lemma InvalidTestIdNotFound()
    ensures var r := ValidateId(Str("product"), RequestWithId(Str("1234")));
      r.arg.Some? && Get(r.arg.value, "statusCode") == Num(404)
      && Get(r.arg.value, "message") == Str("No product found with ID: '1234'.")
  {
    LookupAt([Prop("id", Str("1234"))], 0);
    assert !IsObjectIdText("1234");
    InvalidTestIdMessage();
  }
}
