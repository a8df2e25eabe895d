/** The pieces of Go integer and floating-point arithmetic the force path relies on:
    truncating division, clamping, and the two roundings of package math.
    Floating-point values are idealised as `real`. */
module GoMath {

  /** Go's `/` on int: truncation toward zero. */
  function TruncDiv(a: int, b: int): (q: int)
    requires b > 0
    ensures 0 <= a ==> 0 <= q && q * b <= a < (q + 1) * b
    ensures a < 0 ==> q <= 0 && (q - 1) * b < a <= q * b
  {
    var m := AbsInt(a);
    EuclideanQuotient(m, b);
    if a >= 0 then m / b else -(m / b)
  }

  lemma EuclideanQuotient(m: nat, b: int)
    requires b > 0
    ensures 0 <= m / b && (m / b) * b <= m < (m / b + 1) * b
    ensures (-(m / b)) * b == -((m / b) * b) && (-(m / b) - 1) * b == -((m / b + 1) * b)
  {
    var q := m / b;
    assert m == b * q + m % b;
    assert (q + 1) * b == q * b + b;
    assert (-q - 1) * b == -(q * b) - b;
  }

  function ClampInt(v: int, lo: int, hi: int): (r: int) {
    if v < lo then lo else if v > hi then hi else v
  }

  function AbsInt(v: int): (r: int) {
    if v < 0 then -v else v
  }

  function Clamp(v: real, lo: real, hi: real): (r: real) {
    if v < lo then lo else if v > hi then hi else v
  }

  function Abs(v: real): (r: real) {
    if v < 0.0 then -v else v
  }

  /** math.RoundToEven: roundTiesToEven of section 4.3.1 of IEEE 754-2019. */
  function RoundToEven(x: real): (r: int)
    ensures r as real - 0.5 <= x <= r as real + 0.5
    ensures x == r as real - 0.5 || x == r as real + 0.5 ==> r % 2 == 0
  {
    var f := x.Floor;
    var d := x - f as real;
    if d < 0.5 then f
    else if d > 0.5 then f + 1
    else if f % 2 == 0 then f
    else f + 1
  }

  /** math.Round: nearest integer, halves away from zero. */
  function Round(x: real): (r: int)
    ensures r as real - 0.5 <= x <= r as real + 0.5
    ensures x == r as real - 0.5 ==> 0 < r
    ensures x == r as real + 0.5 ==> r < 0
  {
    if x >= 0.0 then (x + 0.5).Floor else -((0.5 - x).Floor)
  }

  /** The two clauses of RoundToEven's contract leave no choice. */
  lemma RoundToEvenUnique(x: real, n: int)
    requires n as real - 0.5 <= x <= n as real + 0.5
    requires x == n as real - 0.5 || x == n as real + 0.5 ==> n % 2 == 0
    ensures RoundToEven(x) == n
  {
  }

  lemma RoundToEvenMonotone(x: real, y: real)
    requires x <= y
    ensures RoundToEven(x) <= RoundToEven(y)
  {
  }

  /** Reflection about an even centre, the symmetry the wheel byte depends on. */
  lemma RoundToEvenReflect(x: real, c: int)
    requires c % 2 == 0
    ensures RoundToEven(c as real - x) == c - RoundToEven(x)
  {
    RoundToEvenUnique(c as real - x, c - RoundToEven(x));
  }

  lemma RoundToEvenLipschitz(x: real, y: real)
    ensures Abs((RoundToEven(x) - RoundToEven(y)) as real) <= Abs(x - y) + 1.0
  {
  }

  lemma RoundMonotone(x: real, y: real)
    requires x <= y
    ensures Round(x) <= Round(y)
  {
  }

  lemma MulMonotone(x: int, y: int, b: int)
    ensures x <= y && 0 <= b ==> x * b <= y * b
  {
  }

  lemma TruncDivUnique(a: int, b: int, q: int)
    requires b > 0
    requires 0 <= a ==> 0 <= q && q * b <= a < (q + 1) * b
    requires a < 0 ==> q <= 0 && (q - 1) * b < a <= q * b
    ensures TruncDiv(a, b) == q
  {
    var r := TruncDiv(a, b);
    MulMonotone(r + 1, q, b);
    MulMonotone(q + 1, r, b);
  }

  lemma TruncDivOdd(a: int, b: int)
    requires b > 0
    ensures TruncDiv(-a, b) == -TruncDiv(a, b)
  {
  }

  lemma TruncDivMonotone(a: int, a': int, b: int)
    requires b > 0 && a <= a'
    ensures TruncDiv(a, b) <= TruncDiv(a', b)
  {
    var q, q' := TruncDiv(a, b), TruncDiv(a', b);
    MulMonotone(q' + 1, q, b);
  }

  /** Scaling by a percentage-like factor p/b with 0 <= p <= b never enlarges
      and never changes the sign. */
  lemma TruncScaleShrinks(v: int, p: int, b: int)
    requires b > 0 && 0 <= p <= b
    ensures AbsInt(TruncDiv(v * p, b)) <= AbsInt(v)
    ensures 0 <= v ==> 0 <= TruncDiv(v * p, b)
    ensures v <= 0 ==> TruncDiv(v * p, b) <= 0
  {
    if v < 0 {
      assert (-v) * p == -(v * p);
      TruncDivOdd(v * p, b);
      TruncScaleUp(-v, p, b);
    } else {
      TruncScaleUp(v, p, b);
    }
  }

  lemma TruncScaleUp(v: nat, p: int, b: int)
    requires b > 0 && 0 <= p <= b
    ensures 0 <= TruncDiv(v * p, b) <= v
  {
    MulMonotone(0, p, v);
    MulMonotone(p, b, v);
    assert 0 <= v * p <= v * b;
    TruncDivUnique(v * b, b, v);
    TruncDivMonotone(v * p, v * b, b);
  }
}
