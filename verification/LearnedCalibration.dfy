/** Learned calibrations and their playback: steering captured as three raw positions, pedals
    captured as a rest and a pressed position, and buttons captured as a single new bit. */
module LearnedCalibration {
  import opened Optional
  import opened GoMath
  import opened InputNormalizers

  // ---- Steering ----

  datatype SteeringCalibration = SteeringCalibration(left: nat, center: nat, right: nat, rangeDegrees: int)

  /** The checks SaveSteeringCalibration makes before it stores anything. */
  predicate SaveAccepts(c: SteeringCalibration) {
    && 40 <= c.rangeDegrees <= 1080
    && c.left != c.center && c.right != c.center && c.left != c.right
    && (if c.left < c.right then c.left < c.center < c.right else c.right < c.center < c.left)
    && AbsInt(c.left - c.center) >= 512 && AbsInt(c.right - c.center) >= 512
  }

  /** In short: a range of 40 to 1080 degrees, and Center between the ends, at least 512 from
      each, in either orientation. */
  lemma SaveAcceptsIff(c: SteeringCalibration)
    ensures SaveAccepts(c) <==>
              && 40 <= c.rangeDegrees <= 1080
              && (c.left + 512 <= c.center <= c.right - 512 || c.right + 512 <= c.center <= c.left - 512)
  {
  }

  function HalfRange(c: SteeringCalibration): real {
    c.rangeDegrees as real / 2.0
  }

  /** The signed share of the way to the nearer end, from -1 at Left to 1 at Right. */
  function TurnedShare(c: SteeringCalibration, x: nat): real
    requires c.left != c.center && c.right != c.center
  {
    var dx, dl, dr := x - c.center, c.left - c.center, c.right - c.center;
    if (dl < 0 && dx <= 0) || (dl > 0 && dx >= 0) then -Clamp(Ratio(dx, dl), 0.0, 1.0)
    else Clamp(Ratio(dx, dr), 0.0, 1.0)
  }

  function SteeringDegrees(c: SteeringCalibration, x: nat): (deg: Option<real>) {
    if c.rangeDegrees <= 0 || c.left == c.center || c.right == c.center || c.left == c.right then None
    else Some(TurnedShare(c, x) * HalfRange(c))
  }

  /** No angle is shown exactly for a calibration without range or with coinciding positions. */
  lemma NoSteeringIff(c: SteeringCalibration, x: nat)
    ensures SteeringDegrees(c, x).None? <==>
              c.rangeDegrees <= 0 || c.left == c.center || c.right == c.center || c.left == c.right
  {
  }

  function AsAxis(c: SteeringCalibration): AxisCalibration {
    AxisCalibration(c.left, c.center, c.right)
  }

  /** Playback computes the same clamped position as the native steering normalizer. */
  lemma ShareIsPosition(c: SteeringCalibration, x: nat)
    requires SaveAccepts(c)
    ensures TurnedShare(c, x) == Clamp(Position(x, AsAxis(c)), -1.0, 1.0)
  {
    var dx, dl, dr := x - c.center, c.left - c.center, c.right - c.center;
    RatioNegates(dx, dl);
    RatioNegates(dx, dr);
    RatioMonotone(0, dx, AbsInt(dr));
    RatioMonotone(dx, 0, AbsInt(dr));
    RatioMonotone(0, dx, AbsInt(dl));
    RatioMonotone(dx, 0, AbsInt(dl));
    hide Ratio;
  }

  lemma ShareEnds(c: SteeringCalibration)
    requires SaveAccepts(c)
    ensures TurnedShare(c, c.left) == -1.0 && TurnedShare(c, c.center) == 0.0 && TurnedShare(c, c.right) == 1.0
  {
    RatioNegates(c.left - c.center, c.left - c.center);
    RatioNegates(c.right - c.center, c.right - c.center);
    hide Ratio;
  }

  lemma ShareOrder(c: SteeringCalibration, x: nat, y: nat)
    requires SaveAccepts(c) && Rightward(x, AsAxis(c)) <= Rightward(y, AsAxis(c))
    ensures -1.0 <= TurnedShare(c, x) <= TurnedShare(c, y) <= 1.0 && HalfRange(c) > 0.0
  {
    ShareIsPosition(c, x);
    ShareIsPosition(c, y);
    PositionMonotone(x, y, AsAxis(c));
  }

  lemma ScaledBetween(p: real, q: real, half: real)
    requires half > 0.0 && -1.0 <= p <= q <= 1.0
    ensures -half <= p * half <= q * half <= half
  {
    assert 0.0 <= (q - p) * half && 0.0 <= (1.0 - q) * half && 0.0 <= (p + 1.0) * half;
  }

  /** Any calibration the save accepts plays back exactly: minus half the range at Left, zero
      at Center, plus half at Right, never beyond, and monotone in either orientation. */
  lemma SteeringPlaysBack(c: SteeringCalibration, x: nat, y: nat)
    requires SaveAccepts(c) && Rightward(x, AsAxis(c)) <= Rightward(y, AsAxis(c))
    ensures var half := c.rangeDegrees as real / 2.0;
            && SteeringDegrees(c, c.left) == Some(-half)
            && SteeringDegrees(c, c.center) == Some(0.0)
            && SteeringDegrees(c, c.right) == Some(half)
            && SteeringDegrees(c, x).Some? && SteeringDegrees(c, y).Some?
            && -half <= SteeringDegrees(c, x).value <= SteeringDegrees(c, y).value <= half
  {
    assert HalfRange(c) == c.rangeDegrees as real / 2.0;
    hide SteeringDegrees, HalfRange, Rightward;
    SteeringInHalves(c, x, y);
  }

  lemma SteeringInHalves(c: SteeringCalibration, x: nat, y: nat)
    requires SaveAccepts(c) && Rightward(x, AsAxis(c)) <= Rightward(y, AsAxis(c))
    ensures SteeringDegrees(c, c.left) == Some(-HalfRange(c))
    ensures SteeringDegrees(c, c.center) == Some(0.0)
    ensures SteeringDegrees(c, c.right) == Some(HalfRange(c))
    ensures SteeringDegrees(c, x).Some? && SteeringDegrees(c, y).Some?
    ensures -HalfRange(c) <= SteeringDegrees(c, x).value <= SteeringDegrees(c, y).value <= HalfRange(c)
  {
    hide TurnedShare, HalfRange, Rightward;
    ShareEnds(c);
    ShareOrder(c, x, y);
    ScaledBetween(TurnedShare(c, x), TurnedShare(c, y), HalfRange(c));
  }

  /** Between the ends the share of the way to the nearer end is in proportion to the raw way. */
  lemma ShareProportion(c: SteeringCalibration, x: nat)
    requires SaveAccepts(c)
    ensures 0.0 < TurnedShare(c, x) < 1.0 ==> InProportion(TurnedShare(c, x), x - c.center, c.right - c.center)
    ensures -1.0 < TurnedShare(c, x) < 0.0 ==> InProportion(TurnedShare(c, x), x - c.center, c.center - c.left)
  {
    ShareIsPosition(c, x);
    PositionTimes(x, AsAxis(c));
    hide Position, TurnedShare, InProportion;
  }

  // ---- Pedals ----

  datatype Curve = Linear | Progressive | Soft

  datatype PedalAxis = PedalAxis(min: nat, max: nat, inverted: bool, deadzone: real, curve: Curve)

  /** What the learning dialog stores for a pedal. */
  function AxisCal(rest: nat, pressed: nat, curve: Curve, deadzone: real): (c: PedalAxis)
    ensures c.min <= c.max && (c.inverted <==> pressed < rest) && c.curve == curve && c.deadzone == deadzone
    ensures if c.inverted then c.min == pressed && c.max == rest else c.min == rest && c.max == pressed
  {
    if rest > pressed then PedalAxis(pressed, rest, pressed < rest, deadzone, curve)
    else PedalAxis(rest, pressed, pressed < rest, deadzone, curve)
  }

  function CurveValue(pow: Pow, v: real, curve: Curve): real {
    var u := Clamp(v, 0.0, 1.0);
    match curve
    case Progressive => pow(u, 1.65)
    case Soft => pow(u, 0.65)
    case Linear => u
  }

  function CalibratedAxisPercent(pow: Pow, v: nat, c: PedalAxis): (p: Option<real>) {
    if c.min == c.max then None
    else
      var min, max := if c.min > c.max then c.max else c.min, if c.min > c.max then c.min else c.max;
      var t := Clamp(Ratio(v - min, max - min), 0.0, 1.0);
      var u := if c.inverted then 1.0 - t else t;
      var dz := Clamp(c.deadzone, 0.0, 0.45);
      Some(CurveValue(pow, Rescaled(u, dz), c.curve))
  }

  /** The share of the way from rest to pressed, for either direction of travel. */
  function Pressedness(v: nat, rest: nat, pressed: nat): real
    requires rest != pressed
  {
    if rest < pressed then Ratio(v - rest, pressed - rest) else Ratio(rest - v, rest - pressed)
  }

  lemma PercentIsPressedness(pow: Pow, v: nat, rest: nat, pressed: nat, curve: Curve, deadzone: real)
    requires rest != pressed
    ensures CalibratedAxisPercent(pow, v, AxisCal(rest, pressed, curve, deadzone))
            == Some(CurveValue(pow, Rescaled(Clamp(Pressedness(v, rest, pressed), 0.0, 1.0), Clamp(deadzone, 0.0, 0.45)), curve))
  {
    if pressed < rest {
      RatioComplement(v - pressed, rest - pressed);
    }
    hide Ratio, Rescaled, CurveValue;
  }

  lemma RatioComplement(a: int, d: int)
    requires d > 0
    ensures 1.0 - Clamp(Ratio(a, d), 0.0, 1.0) == Clamp(Ratio(d - a, d), 0.0, 1.0)
  {
    var x, y := a as real, d as real;
    assert (d - a) as real == y - x;
    QuotientOfDifference(x, y);
  }

  lemma QuotientOfDifference(x: real, y: real)
    requires y > 0.0
    ensures (y - x) / y == 1.0 - x / y
  {
    var q := (y - x) / y - (1.0 - x / y);
    assert ((y - x) / y) * y == y - x && (x / y) * y == x;
    assert q * y == 0.0;
    ProductZero(q, y);
  }

  lemma CurveMonotone(pow: Pow, v: real, w: real, curve: Curve)
    requires PowShape(pow) && v <= w
    ensures CurveValue(pow, v, curve) <= CurveValue(pow, w, curve)
    ensures CurveValue(pow, 0.0, curve) == 0.0 && CurveValue(pow, 1.0, curve) == 1.0
  {
  }

  /** Any captured pedal with distinct ends plays back exactly, whatever its curve, deadzone
      and direction: 0 at rest, 1 when pressed, monotone on the way and never outside. */
  lemma PedalPlaysBack(pow: Pow, rest: nat, pressed: nat, curve: Curve, deadzone: real, v: nat, w: nat)
    requires PowShape(pow) && rest != pressed
    requires if rest < pressed then v <= w else w <= v
    ensures var p := x => CalibratedAxisPercent(pow, x, AxisCal(rest, pressed, curve, deadzone));
            && p(rest) == Some(0.0) && p(pressed) == Some(1.0)
            && p(v).Some? && p(w).Some? && 0.0 <= p(v).value <= p(w).value <= 1.0
  {
    var dz := Clamp(deadzone, 0.0, 0.45);
    var d := AbsInt(pressed - rest);
    PercentIsPressedness(pow, rest, rest, pressed, curve, deadzone);
    PercentIsPressedness(pow, pressed, rest, pressed, curve, deadzone);
    PercentIsPressedness(pow, v, rest, pressed, curve, deadzone);
    PercentIsPressedness(pow, w, rest, pressed, curve, deadzone);
    RatioNegates(d, d);
    RatioMonotone(v - rest, w - rest, d);
    RatioMonotone(rest - v, rest - w, d);
    var t, u := Clamp(Pressedness(v, rest, pressed), 0.0, 1.0), Clamp(Pressedness(w, rest, pressed), 0.0, 1.0);
    hide Ratio, CurveValue, CalibratedAxisPercent, Rescaled;
    RescaledMonotone(t, u, dz);
    RescaledRange(t, dz);
    RescaledRange(u, dz);
    CurveMonotone(pow, 0.0, Rescaled(t, dz), curve);
    CurveMonotone(pow, Rescaled(t, dz), Rescaled(u, dz), curve);
    CurveMonotone(pow, Rescaled(u, dz), 1.0, curve);
  }

  /** What a pedal's curve does to the share its deadzone leaves: nothing if it is linear; a
      progressive pedal gives strictly less of it and a soft one strictly more. */
  lemma CurvesAct(pow: Pow, v: nat, rest: nat, pressed: nat, deadzone: real)
    requires PowShape(pow) && rest != pressed
    requires Clamp(deadzone, 0.0, 0.45) < Pressedness(v, rest, pressed) < 1.0
    ensures var p := curve => CalibratedAxisPercent(pow, v, AxisCal(rest, pressed, curve, deadzone));
            var dz := Clamp(deadzone, 0.0, 0.45);
            && p(Linear).Some? && p(Progressive).Some? && p(Soft).Some?
            && var share := p(Linear).value;
               && 0.0 < p(Progressive).value < share < p(Soft).value < 1.0
               && p(Progressive).value == pow(share, 1.65) && p(Soft).value == pow(share, 0.65)
               && InProportion(WithDeadzone(share, dz), v - rest, pressed - rest)
  {
    var dz, t := Clamp(deadzone, 0.0, 0.45), Pressedness(v, rest, pressed);
    hide CalibratedAxisPercent, Pressedness, Rescaled, WithDeadzone, PowShape, InProportion, AxisCal;
    RescaledProportion(t, dz);
    PressednessProportion(v, rest, pressed);
    var share := Rescaled(t, dz);
    CurvePercents(pow, v, rest, pressed, deadzone);
    ExponentActs(pow, share, 1.65);
    ExponentActs(pow, share, 0.65);
    PowerStaysInside(pow, share, 1.65);
    PowerStaysInside(pow, share, 0.65);
  }

  lemma CurvePercents(pow: Pow, v: nat, rest: nat, pressed: nat, deadzone: real)
    requires rest != pressed && Clamp(deadzone, 0.0, 0.45) < Pressedness(v, rest, pressed) < 1.0
    ensures var share := Rescaled(Pressedness(v, rest, pressed), Clamp(deadzone, 0.0, 0.45));
            && CalibratedAxisPercent(pow, v, AxisCal(rest, pressed, Linear, deadzone)) == Some(share)
            && CalibratedAxisPercent(pow, v, AxisCal(rest, pressed, Progressive, deadzone)) == Some(pow(share, 1.65))
            && CalibratedAxisPercent(pow, v, AxisCal(rest, pressed, Soft, deadzone)) == Some(pow(share, 0.65))
  {
    PercentIsPressedness(pow, v, rest, pressed, Linear, deadzone);
    PercentIsPressedness(pow, v, rest, pressed, Progressive, deadzone);
    PercentIsPressedness(pow, v, rest, pressed, Soft, deadzone);
    RescaledProportion(Pressedness(v, rest, pressed), Clamp(deadzone, 0.0, 0.45));
    hide CalibratedAxisPercent, Pressedness, Rescaled, AxisCal;
  }

  lemma PowerStaysInside(pow: Pow, u: real, s: real)
    requires PowShape(pow) && 0.0 < u < 1.0 && s > 0.0
    ensures 0.0 < pow(u, s) < 1.0
  {
    assert pow(0.0, s) < pow(u, s) < pow(1.0, s);
  }

  lemma PressednessProportion(v: nat, rest: nat, pressed: nat)
    requires rest != pressed
    ensures InProportion(Pressedness(v, rest, pressed), v - rest, pressed - rest)
  {
    RatioTimes(v - rest, pressed - rest);
    RatioNegates(v - rest, pressed - rest);
    hide Ratio, InProportion;
  }

  /** A pedal whose ends coincide has no playback, and only such a pedal. */
  lemma NoPlaybackIff(pow: Pow, rest: nat, pressed: nat, curve: Curve, deadzone: real, v: nat)
    ensures CalibratedAxisPercent(pow, v, AxisCal(rest, pressed, curve, deadzone)).None? <==> rest == pressed
  {
  }

  // ---- Buttons ----

  function Bit(i: bv32): bv32
    requires i < 32
  {
    1 << i
  }

  /** The bits are the powers of two. */
  lemma BitsDouble(i: bv32)
    requires i < 31
    ensures Bit(0) == 1 && Bit(i + 1) == 2 * Bit(i)
  {
  }

  /** The index of the one bit that is newly set, if there is exactly one. */
  method FirstPressedBit(before: bv32, after: bv32) returns (bit: Option<bv32>)
    ensures bit.Some? ==> bit.value < 32 && after & !before == Bit(bit.value)
    ensures bit.None? ==> forall i: bv32 | i < 32 :: after & !before != Bit(i)
  {
    var newly := after & !before;
    if newly == 0 || newly & (newly - 1) != 0 {
      return None;
    }
    var i: bv32 := 0;
    while i < 32
      invariant i <= 32
      invariant i < 32 ==> newly & ((1 << i) - 1) == 0
      invariant i == 32 ==> newly == 0
      decreases 32 - i
    {
      if newly & (1 << i) != 0 {
        return Some(i);
      }
      i := i + 1;
    }
    assert false;
    return None;
  }
}
