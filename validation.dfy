/** `validateRequired`: which required body fields are missing, and the error it reports. */
module Validation {
  import opened Wrappers
  import opened JsText

  /** The JSON values a request body field can hold (numbers restricted to integers). */
  datatype JsValue = Undefined | Null | Bool(b: bool) | Num(n: int) | NaN | Str(s: string) | Arr(items: seq<JsValue>) | Obj

  /** JavaScript falsiness. */
  predicate Falsy(v: JsValue) {
    v == Undefined || v == Null || v == Bool(false) || v == Num(0) || v == NaN || v == Str("")
  }

  /** `obj[field]`, undefined when the property is absent. */
  function Get(obj: map<string, JsValue>, field: string): JsValue {
    if field in obj then obj[field] else Undefined
  }

  /** The filter's test: the value is falsy, or a string that is empty once trimmed. */
  predicate IsMissing(obj: map<string, JsValue>, field: string) {
    var v := Get(obj, field);
    Falsy(v) || (v.Str? && IsBlank(v.s))
  }

  /** `fields.filter(field => missing)`: the missing fields, in the order they were asked for. */
  function MissingFields(obj: map<string, JsValue>, fields: seq<string>): (missing: seq<string>)
    ensures forall f :: f in missing <==> f in fields && IsMissing(obj, f)
    ensures |missing| <= |fields|
    ensures missing == [] <==> forall i :: 0 <= i < |fields| ==> !IsMissing(obj, fields[i])
  {
    if |fields| == 0 then []
    else
      var rest := MissingFields(obj, fields[1..]);
      if IsMissing(obj, fields[0]) then [fields[0]] + rest else rest
  }

  /**
   * The missing fields keep the order they were asked for: the missing fields of `a + b` are
   * those of `a` followed by those of `b`.
   */
  lemma {:induction false} MissingFieldsOfConcat(obj: map<string, JsValue>, a: seq<string>, b: seq<string>)
    ensures MissingFields(obj, a + b) == MissingFields(obj, a) + MissingFields(obj, b)
    decreases |a|
  {
    if |a| == 0 {
      assert a + b == b;
    } else {
      assert (a + b)[0] == a[0] && (a + b)[1..] == a[1..] + b;
      MissingFieldsOfConcat(obj, a[1..], b);
    }
  }

  /** A single field is reported exactly when it is missing. */
  lemma MissingFieldsOfOne(obj: map<string, JsValue>, f: string)
    ensures MissingFields(obj, [f]) == if IsMissing(obj, f) then [f] else []
  {
    assert [f][1..] == [];
  }

  /** `validateRequired`: valid exactly when no required field is missing; otherwise the message lists them. */
  function ValidateRequired(obj: map<string, JsValue>, fields: seq<string>): (r: Outcome<string>)
    ensures r.Pass? <==> forall f :: f in fields ==> !IsMissing(obj, f)
    ensures r.Fail? ==> r.error == "Missing required fields: " + Join(MissingFields(obj, fields), ", ")
  {
    var missing := MissingFields(obj, fields);
    if |missing| > 0 then Fail("Missing required fields: " + Join(missing, ", ")) else Pass
  }

  /** A body whose string-valued fields are given as a map. */
  function StringBody(fields: map<string, string>): (obj: map<string, JsValue>)
    ensures forall f :: f in fields ==> Get(obj, f) == Str(fields[f])
    ensures forall f :: f !in fields ==> Get(obj, f) == Undefined
  {
    map f | f in fields :: Str(fields[f])
  }

  /** For string fields, missing means blank. */
  lemma StringFieldMissingIffBlank(fields: map<string, string>, f: string)
    requires f in fields
    ensures IsMissing(StringBody(fields), f) <==> IsBlank(fields[f])
  {
  }
}
