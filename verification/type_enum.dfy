/**
 * `TokenValidationDTO.TypeEnum`: the closed set of token validation kinds,
 * each carrying its string value, and `fromValue`, which maps a string back
 * to the constant that carries it by a linear search over `values()`.
 */
module TokenValidationType {
  import opened Wrappers
  import JavaLang

  datatype TypeEnum = REGEX | JWT | CUSTOM

  /** `value()`: the string the constant was declared with. */
  function Value(t: TypeEnum): string
  {
    match t
    case REGEX => "REGEX"
    case JWT => "JWT"
    case CUSTOM => "CUSTOM"
  }

  /** `toString()`: `String.valueOf` of the carried value. */
  function ToString(t: TypeEnum): string
  {
    JavaLang.StringValueOf(Some(Value(t)))
  }

  /** `values()`: every constant, once each, in declaration order. */
  function Values(): (vs: seq<TypeEnum>)
    ensures REGEX in vs && JWT in vs && CUSTOM in vs
    ensures forall i, j :: 0 <= i < j < |vs| ==> vs[i] != vs[j]
    ensures |vs| == 3
  {
    [REGEX, JWT, CUSTOM]
  }

  /**
   * The first of `candidates` whose value, passed through `String.valueOf`,
   * equals `v`; `None` when there is none.
   */
  function Lookup(candidates: seq<TypeEnum>, v: Option<string>): (r: Option<TypeEnum>)
    ensures r.Some? ==> r.value in candidates && v == Some(Value(r.value))
    ensures r.None? <==> forall b :: b in candidates ==> v != Some(Value(b))
    decreases |candidates|
  {
    if candidates == [] then None
    else if Some(JavaLang.StringValueOf(Some(Value(candidates[0])))) == v then Some(candidates[0])
    else Lookup(candidates[1..], v)
  }

  /** What `fromValue` computes: the search over `values()`. */
  function ValueOf(v: Option<string>): Option<TypeEnum>
  {
    Lookup(Values(), v)
  }

  /**
   * `fromValue(v)`: walks `values()` in order and returns the first constant
   * whose `String.valueOf(value)` equals `v`, or `null` after the last one. A `null` argument
   * equals no value.
   */
  method FromValue(v: Option<string>) returns (r: Option<TypeEnum>)
    ensures r == ValueOf(v)
    ensures r.Some? ==> v == Some(Value(r.value))
    ensures r.None? <==> v !in {Some("REGEX"), Some("JWT"), Some("CUSTOM")}
  {
    var values := Values();
    for i := 0 to |values|
      invariant Lookup(values[i..], v) == Lookup(values, v)
    {
      if Some(JavaLang.StringValueOf(Some(Value(values[i])))) == v {
        return Some(values[i]);
      }
    }
    assert values[|values|..] == [];
    ValueOfNoneIff(v);
    return None;
  }

  /** Distinct constants carry distinct values. */
  lemma ValueInjective(a: TypeEnum, b: TypeEnum)
    ensures Value(a) == Value(b) ==> a == b
  {
  }

  /**
   * `toString()` prints exactly `value()`: `String.valueOf` hands back the
   * carried string, which is never `null`, so no constant prints as `"null"`.
   */
  lemma ToStringIsValue(b: TypeEnum)
    ensures ToString(b) == Value(b)
    ensures ToString(b) != "null"
  {
  }

  /** Round trip: `fromValue(b.value()) == b` and `fromValue(b.toString()) == b` for every constant. */
  lemma FromValueRoundTrip(b: TypeEnum)
    ensures ValueOf(Some(Value(b))) == Some(b)
    ensures ValueOf(Some(ToString(b))) == Some(b)
  {
  }

  /** The other direction: whatever `fromValue` finds carries the string it was given. */
  lemma ValueOfFindsCarrier(s: string, b: TypeEnum)
    requires ValueOf(Some(s)) == Some(b)
    ensures Value(b) == s && ToString(b) == s
  {
  }

  /**
   * `fromValue(v)` is `null` exactly when `v` is `null` or a string other than
   * `"REGEX"`, `"JWT"` and `"CUSTOM"`, compared exactly (case-sensitively).
   */
  lemma ValueOfNoneIff(v: Option<string>)
    ensures ValueOf(v).None? <==> v !in {Some("REGEX"), Some("JWT"), Some("CUSTOM")}
  {
  }
}
