/**
 * The few pieces of the Java platform that TokenValidationDTO relies on:
 * 32-bit `int` arithmetic, `String.valueOf`, `Boolean.toString`, `Boolean.hashCode` and the
 * `Arrays.hashCode` fold that `Objects.hash` delegates to.
 */
module JavaLang {
  import opened Wrappers

  /** 2^32, the modulus of Java `int` arithmetic. */
  const Modulus: int := 0x1_0000_0000

  /** Values of Java's `int`. */
  type Int32 = x: int | -0x8000_0000 <= x < 0x8000_0000

  /** The `int` that an unbounded integer wraps around to. */
  function Wrap32(x: int): (r: Int32)
    ensures (x - r) % Modulus == 0
    ensures -0x8000_0000 <= x < 0x8000_0000 ==> r == x
  {
    (x + 0x8000_0000) % Modulus - 0x8000_0000
  }

  /** Two integers that differ by a multiple of 2^32 wrap to the same `int`. */
  lemma WrapCongruent(a: int, b: int, k: int)
    requires a == b + k * Modulus
    ensures Wrap32(a) == Wrap32(b)
  {
  }

  /** `String.valueOf(Object)` on a string: `"null"` for `null`, otherwise the string itself. */
  function StringValueOf(o: Option<string>): (r: string)
    ensures o.None? ==> r == "null"
    ensures o.Some? ==> r == o.value
  {
    match o
    case None => "null"
    case Some(s) => s
  }

  /** `Boolean.toString` (and `String.valueOf` of a `Boolean`). */
  function BooleanToString(b: bool): (s: string)
    ensures s == "true" <==> b
    ensures s == "false" <==> !b
  {
    if b then "true" else "false"
  }

  /** `Boolean.hashCode`: 1231 for `true`, 1237 for `false`. */
  function BooleanHashCode(b: bool): Int32
  {
    if b then 1231 else 1237
  }

  /** The hash that `Arrays.hashCode` takes for one element: 0 for `null`. */
  function HashOrZero<T>(o: Option<T>, hash: T -> Int32): Int32
  {
    match o
    case None => 0
    case Some(x) => hash(x)
  }

  /**
   * `Arrays.hashCode` over the element hashes `hs`: starting from 1, each
   * element folds in as `31 * result + h` in wrapping `int` arithmetic.
   */
  function ArrayHashCode(hs: seq<Int32>): Int32
    decreases |hs|
  {
    if hs == [] then 1
    else Wrap32(31 * ArrayHashCode(hs[..|hs| - 1]) + hs[|hs| - 1])
  }

  /** The same fold in unbounded arithmetic, with no wrap-around at any step. */
  function HashPolynomial(hs: seq<Int32>): int
    decreases |hs|
  {
    if hs == [] then 1
    else 31 * HashPolynomial(hs[..|hs| - 1]) + hs[|hs| - 1]
  }

  /** Wrapping at every step gives the unbounded polynomial reduced once, at the end. */
  lemma {:induction false} ArrayHashCodeIsWrappedPolynomial(hs: seq<Int32>)
    ensures ArrayHashCode(hs) == Wrap32(HashPolynomial(hs))
    decreases |hs|
  {
    if hs != [] {
      var init, last := hs[..|hs| - 1], hs[|hs| - 1];
      ArrayHashCodeIsWrappedPolynomial(init);
      var p := HashPolynomial(init);
      var w := Wrap32(p);
      var k := (p - w) / Modulus;
      assert p == w + k * Modulus;
      WrapCongruent(31 * p + last, 31 * w + last, 31 * k);
    }
  }
}
