/** The Rust numeric operations the per-sample step relies on, written out over
    Dafny's unbounded integers and reals: `f64::abs`, `f64::round`, the
    saturating `f64 as i32` cast, and `i32` division and remainder, which
    truncate toward zero (Dafny's own `/` and `%` are Euclidean). */
module RustNumerics {

  const I32Min: int := -0x8000_0000
  const I32Max: int := 0x7fff_ffff

  /** `f64::abs`. */
  function Abs(x: real): (r: real)
    ensures r >= 0.0
    ensures r == x || r == -x
  {
    if x < 0.0 then -x else x
  }

  /** The integer part of `x`: rounds toward zero. */
  function Trunc(x: real): (t: int)
    ensures Abs(t as real) <= Abs(x) < Abs(t as real) + 1.0
    ensures x >= 0.0 ==> t >= 0
    ensures x <= 0.0 ==> t <= 0
  {
    if x >= 0.0 then x.Floor else -((-x).Floor)
  }

  /** `f64::round`: the nearest integer, halfway cases away from zero. */
  function Round(x: real): (r: int)
    ensures Abs(r as real - x) <= 0.5
    ensures Abs(r as real - x) == 0.5 ==> Abs(r as real) > Abs(x)
  {
    if x >= 0.0 then (x + 0.5).Floor else -((-x + 0.5).Floor)
  }

  /** Clamps an integer into the range of `i32`. */
  function Saturate(i: int): (r: int)
    ensures I32Min <= r <= I32Max
    ensures I32Min <= i <= I32Max ==> r == i
    ensures i < I32Min ==> r == I32Min
    ensures i > I32Max ==> r == I32Max
  {
    if i < I32Min then I32Min else if i > I32Max then I32Max else i
  }

  /** `x as i32` for a finite `f64`: truncation toward zero, saturating at
      the bounds of `i32`. */
  function AsI32(x: real): (i: int)
    ensures I32Min <= i <= I32Max
    ensures I32Min <= Trunc(x) <= I32Max ==> i == Trunc(x)
    ensures Trunc(x) > I32Max ==> i == I32Max
    ensures Trunc(x) < I32Min ==> i == I32Min
    ensures x >= 0.0 ==> i >= 0
    ensures x <= 0.0 ==> i <= 0
  {
    Saturate(Trunc(x))
  }

  /** `x.round() as i32`. */
  function RoundToI32(x: real): (i: int)
    ensures I32Min <= i <= I32Max
    ensures I32Min <= Round(x) <= I32Max ==> i == Round(x)
    ensures Round(x) > I32Max ==> i == I32Max
    ensures Round(x) < I32Min ==> i == I32Min
  {
    AsI32(Round(x) as real)
  }

  /** Rust's `a / b` on `i32` for a positive divisor: the quotient rounded
      toward zero. */
  function Quot(a: int, b: int): (q: int)
    requires b > 0
    ensures a >= 0 ==> 0 <= q * b <= a < q * b + b
    ensures a < 0 ==> q * b - b < a <= q * b <= 0
  {
    if a >= 0 then
      DivMod(a, b);
      a / b
    else
      DivMod(-a, b);
      -((-a) / b)
  }

  /** Dafny's Euclidean division of a non-negative dividend. */
  lemma DivMod(a: int, b: int)
    requires a >= 0 && b > 0
    ensures 0 <= (a / b) * b <= a < (a / b) * b + b
  {
    var q, m := a / b, a % b;
    assert a == q * b + m && 0 <= m < b;
  }

  /** Rust's `a % b` on `i32` for a positive divisor: the remainder takes the
      sign of the dividend. */
  function Rem(a: int, b: int): (r: int)
    requires b > 0
    ensures a == Quot(a, b) * b + r
    ensures a >= 0 ==> 0 <= r < b
    ensures a < 0 ==> -b < r <= 0
  {
    a - Quot(a, b) * b
  }
}
