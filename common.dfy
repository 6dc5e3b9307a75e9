/** Helpers shared by the models: C integer division and conversions, Option. */
module Arith {

  datatype Option<T> = None | Some(value: T)

  const INT16_MIN: int := -32768
  const INT16_MAX: int := 32767
  const INT32_MIN: int := -0x8000_0000
  const INT32_MAX: int := 0x7FFF_FFFF
  const INT64_MIN: int := -0x8000_0000_0000_0000
  const INT64_MAX: int := 0x7FFF_FFFF_FFFF_FFFF

  type Int16 = x: int | INT16_MIN <= x <= INT16_MAX
  type Int32 = x: int | INT32_MIN <= x <= INT32_MAX

  predicate IsInt64(x: int) { INT64_MIN <= x <= INT64_MAX }

  function Abs(x: int): nat { if x < 0 then -x else x }

  function Min(a: int, b: int): (m: int)
    ensures m <= a && m <= b && (m == a || m == b)
  {
    if a <= b then a else b
  }

  /** C's `/` on integers: the quotient rounded toward zero. */
  function TruncDiv(a: int, b: int): (q: int)
    requires b != 0
    ensures Abs(q) * Abs(b) <= Abs(a) < (Abs(q) + 1) * Abs(b)
    ensures q == 0 || ((q > 0) == ((a > 0) == (b > 0)))
  {
    var m := Abs(a) / Abs(b);
    if (a >= 0) == (b > 0) then m else -m
  }

  lemma TruncDivNonNeg(a: int, b: int)
    requires a >= 0 && b > 0
    ensures TruncDiv(a, b) == a / b
  {
  }

  lemma MulMonotone(a: int, b: int, d: int)
    requires a <= b && d >= 0
    ensures a * d <= b * d
  {
    assert b * d - a * d == (b - a) * d;
  }

  /** A C cast of a `double` to an integer type: truncation toward zero. */
  function TruncReal(x: real): (r: int)
    ensures x >= 0.0 ==> r as real <= x < r as real + 1.0
    ensures x < 0.0 ==> r as real - 1.0 < x <= r as real
  {
    if x >= 0.0 then x.Floor else -((-x).Floor)
  }

  /** Two's complement wrap of an integer into the signed 32-bit range. */
  function Wrap32(x: int): (r: Int32)
    ensures (r - x) % 0x1_0000_0000 == 0
    ensures INT32_MIN <= x <= INT32_MAX ==> r == x
  {
    var m := (x - INT32_MIN) % 0x1_0000_0000;
    m + INT32_MIN
  }
}
