/** `java.lang.String.hashCode()` as the Java SE documentation defines it:
    s[0]*31^(n-1) + s[1]*31^(n-2) + ... + s[n-1] over the UTF-16 code units of
    the string, computed in 32-bit two's-complement `int` arithmetic. */
module JavaString {

  const Int32Modulus: int := 0x1_0000_0000

  predicate IsInt32(x: int) {
    -0x8000_0000 <= x < 0x8000_0000
  }

  /** The 32-bit `int` that `x` wraps around to. */
  function ToInt32(x: int): (r: int)
    ensures IsInt32(r)
    ensures (x - r) % Int32Modulus == 0
  {
    var m := x % Int32Modulus;
    if m >= 0x8000_0000 then m - Int32Modulus else m
  }

  /** Two integers congruent modulo 2^32 wrap to the same `int`. */
  lemma ToInt32Congruent(x: int, y: int, k: int)
    requires x - y == k * Int32Modulus
    ensures ToInt32(x) == ToInt32(y)
  {
    assert x % Int32Modulus == y % Int32Modulus;
  }

  /** The UTF-16 code units of one character (a surrogate pair above U+FFFF). */
  function CharUnits(c: char): (units: seq<int>)
    ensures 1 <= |units| <= 2
    ensures forall i :: 0 <= i < |units| ==> 0 <= units[i] < 0x1_0000
    ensures |units| == 1 <==> c as int < 0x1_0000
    ensures |units| == 1 ==> units[0] == c as int
    ensures |units| == 2 ==> 0xD800 <= units[0] < 0xDC00 <= units[1] < 0xE000
  {
    var v := c as int;
    if v < 0x1_0000 then [v]
    else [0xD800 + (v - 0x1_0000) / 0x400, 0xDC00 + (v - 0x1_0000) % 0x400]
  }

  /** The UTF-16 form in which the JVM stores a string. */
  function Utf16(s: string): (units: seq<int>)
    ensures |s| <= |units| <= 2 * |s|
    ensures forall i :: 0 <= i < |units| ==> 0 <= units[i] < 0x1_0000
  {
    if s == [] then [] else CharUnits(s[0]) + Utf16(s[1..])
  }

  /** The hash as the JDK computes it: `h = 31 * h + c` for each code unit, in `int`. */
  function HashCode(units: seq<int>): (h: int)
    ensures IsInt32(h)
    decreases |units|
  {
    if units == [] then 0
    else ToInt32(31 * HashCode(units[..|units| - 1]) + units[|units| - 1])
  }

  function Pow31(e: nat): (p: int)
    ensures p >= 1
  {
    if e == 0 then 1 else 31 * Pow31(e - 1)
  }

  /** The documented closed form, over unbounded integers. */
  function Polynomial(units: seq<int>): int
    decreases |units|
  {
    if units == [] then 0 else units[0] * Pow31(|units| - 1) + Polynomial(units[1..])
  }

  lemma {:induction false} PolynomialSnoc(units: seq<int>, u: int)
    ensures Polynomial(units + [u]) == 31 * Polynomial(units) + u
    decreases |units|
  {
    if units != [] {
      var n := |units|;
      assert (units + [u])[1..] == units[1..] + [u];
      PolynomialSnoc(units[1..], u);
      calc {
        Polynomial(units + [u]);
        units[0] * Pow31(n) + Polynomial(units[1..] + [u]);
        units[0] * (31 * Pow31(n - 1)) + 31 * Polynomial(units[1..]) + u;
        { assert units[0] * (31 * Pow31(n - 1)) == 31 * (units[0] * Pow31(n - 1)); }
        31 * (units[0] * Pow31(n - 1) + Polynomial(units[1..])) + u;
      }
    }
  }

  /** The wrapping loop of the JDK computes the documented polynomial modulo 2^32. */
  lemma {:induction false} HashCodeIsPolynomial(units: seq<int>)
    ensures HashCode(units) == ToInt32(Polynomial(units))
    decreases |units|
  {
    if units != [] {
      var init, u := units[..|units| - 1], units[|units| - 1];
      assert units == init + [u];
      HashCodeIsPolynomial(init);
      PolynomialSnoc(init, u);
      var p := Polynomial(init);
      var w := ToInt32(p);
      var k := (p - w) / Int32Modulus;
      assert p - w == k * Int32Modulus;
      assert (31 * p + u) - (31 * w + u) == (31 * k) * Int32Modulus;
      ToInt32Congruent(31 * p + u, 31 * w + u, 31 * k);
    }
  }

  /** `String.hashCode()` of a Kotlin string. */
  function StringHashCode(s: string): (h: int)
    ensures IsInt32(h)
    ensures h == ToInt32(Polynomial(Utf16(s)))
  {
    HashCodeIsPolynomial(Utf16(s));
    HashCode(Utf16(s))
  }
}
