/** Raw wheel and pedal values to normalised ones: the production normalizers, the reference
    ones they were ported from, and exactly how far the two agree. math.Pow enters as a
    parameter of which only its shape on [0, 1] is assumed. */
module InputNormalizers {
  import opened GoMath

  datatype AxisCalibration = AxisCalibration(left: int, center: int, right: int)

  datatype PedalCalibration = PedalCalibration(rest: int, pressed: int, sensitivity: real, deadzone: real)

  type Pow = (real, real) -> real

  /** For positive exponents, strictly increasing on [0, 1] and fixing 0 and 1; the exponent 1
      changes nothing, and a larger one gives strictly less in between. */
  ghost predicate PowShape(pow: Pow) {
    && (forall s | s > 0.0 :: pow(0.0, s) == 0.0 && pow(1.0, s) == 1.0)
    && (forall x, y, s | s > 0.0 && 0.0 <= x < y <= 1.0 :: pow(x, s) < pow(y, s))
    && (forall x | 0.0 <= x <= 1.0 :: pow(x, 1.0) == x)
    && (forall x, s, t | 0.0 < x < 1.0 && 0.0 < s < t :: pow(x, t) < pow(x, s))
  }

  /** float64(a) / float64(d) */
  function Ratio(a: int, d: int): (q: real)
    requires d != 0
  {
    a as real / d as real
  }

  lemma RatioNegates(a: int, d: int)
    requires d != 0
    ensures Ratio(-a, -d) == Ratio(a, d)
    ensures Ratio(-a, d) == -Ratio(a, d) == Ratio(a, -d)
    ensures Ratio(0, d) == 0.0 && Ratio(d, d) == 1.0
  {
    QuotientNegates(a as real, d as real);
    assert (-a) as real == -(a as real) && (-d) as real == -(d as real);
  }

  lemma QuotientNegates(a: real, d: real)
    requires d != 0.0
    ensures -a / -d == a / d
    ensures -a / d == -(a / d) == a / -d
    ensures d / d == 1.0
  {
    var q := a / d;
    assert a == q * d;
    assert -a == (-q) * d && -a == q * -d && a == (-q) * -d;
  }

  lemma RatioMonotone(a: int, b: int, d: int)
    requires d > 0
    ensures a <= b ==> Ratio(a, d) <= Ratio(b, d)
    ensures Ratio(0, d) == 0.0 && Ratio(d, d) == 1.0
  {
  }

  lemma QuotientRange(a: real, b: real)
    requires 0.0 < a <= b
    ensures 0.0 < a / b <= 1.0
    ensures a < b ==> a / b < 1.0
  {
    var q := a / b;
    assert q * b == a;
    ProductOrder(q, b);
  }

  lemma ProductOrder(q: real, b: real)
    requires b > 0.0
    ensures q >= 1.0 ==> q * b >= b
    ensures q > 1.0 ==> q * b > b
    ensures q <= 0.0 ==> q * b <= 0.0
  {
  }

  // ---- Steering ----

  /** Production: chooses the side by the sign bits, which call zero positive. */
  function NormalizeNativeSteering(raw: int, c: AxisCalibration, deadzone: real): (t: real) {
    var diff, right, left := raw - c.center, c.right - c.center, c.left - c.center;
    var t := if right != 0 && (diff < 0) == (right < 0) then Ratio(diff, right)
             else if left != 0 && (diff < 0) == (left < 0) then -Ratio(diff, left)
             else 0.0;
    var u := Clamp(t, -1.0, 1.0);
    if Abs(u) <= Clamp(deadzone, 0.0, 1.0) then 0.0 else u
  }

  predicate SameSign(a: int, b: int) {
    a != 0 && b != 0 && (a > 0) == (b > 0)
  }

  function NormalizeReferenceSteering(raw: int, c: AxisCalibration, deadzone: real): (t: real) {
    var diff, right, left := raw - c.center, c.right - c.center, c.left - c.center;
    var t := if right != 0 && SameSign(diff, right) then Ratio(diff, right)
             else if left != 0 && SameSign(diff, left) then -Ratio(diff, left)
             else 0.0;
    var u := Clamp(t, -1.0, 1.0);
    if Abs(u) <= (if deadzone < 0.0 then 0.0 else deadzone) then 0.0 else u
  }

  /** For every raw value, calibration and deadzone, however odd. */
  lemma SteeringAgrees(raw: int, c: AxisCalibration, deadzone: real)
    ensures NormalizeNativeSteering(raw, c, deadzone) == NormalizeReferenceSteering(raw, c, deadzone)
  {
    if c.right != c.center { RatioNegates(raw - c.center, c.right - c.center); }
    if c.left != c.center { RatioNegates(raw - c.center, c.left - c.center); }
    hide Ratio;
  }

  /** Center lies strictly between the ends, in either orientation. */
  ghost predicate Proper(c: AxisCalibration) {
    c.left < c.center < c.right || c.right < c.center < c.left
  }

  /** How far a raw value is turned to the right, in the calibration's own orientation. */
  function Rightward(raw: int, c: AxisCalibration): int {
    if c.left < c.right then raw else -raw
  }

  /** The position before the deadzone is applied, without divisions by negative numbers. */
  function Position(raw: int, c: AxisCalibration): real
    requires Proper(c)
  {
    var x, l, m, r := Rightward(raw, c), Rightward(c.left, c), Rightward(c.center, c), Rightward(c.right, c);
    if x >= m then Ratio(x - m, r - m) else Ratio(x - m, m - l)
  }

  lemma SteeringIsPosition(raw: int, c: AxisCalibration, deadzone: real)
    requires Proper(c)
    ensures var u := Clamp(Position(raw, c), -1.0, 1.0);
            NormalizeNativeSteering(raw, c, deadzone) == if Abs(u) <= Clamp(deadzone, 0.0, 1.0) then 0.0 else u
  {
    var diff, right, left := raw - c.center, c.right - c.center, c.left - c.center;
    RatioNegates(diff, right);
    RatioNegates(diff, left);
    hide Ratio;
  }

  lemma PositionMonotone(raw: int, raw': int, c: AxisCalibration)
    requires Proper(c) && Rightward(raw, c) <= Rightward(raw', c)
    ensures Position(raw, c) <= Position(raw', c)
  {
    var x, x' := Rightward(raw, c), Rightward(raw', c);
    var l, m, r := Rightward(c.left, c), Rightward(c.center, c), Rightward(c.right, c);
    RatioMonotone(x - m, x' - m, r - m);
    RatioMonotone(x - m, x' - m, m - l);
    RatioMonotone(0, x' - m, r - m);
    RatioMonotone(x - m, 0, m - l);
    hide Ratio;
  }

  /** Steering never decreases on the way from Left to Right, whatever the deadzone. */
  lemma SteeringMonotone(raw: int, raw': int, c: AxisCalibration, deadzone: real)
    requires Proper(c) && Rightward(raw, c) <= Rightward(raw', c)
    ensures NormalizeNativeSteering(raw, c, deadzone) <= NormalizeNativeSteering(raw', c, deadzone)
  {
    SteeringIsPosition(raw, c, deadzone);
    SteeringIsPosition(raw', c, deadzone);
    PositionMonotone(raw, raw', c);
  }

  lemma SteeringEnds(c: AxisCalibration, deadzone: real)
    requires Proper(c) && deadzone < 1.0
    ensures NormalizeNativeSteering(c.left, c, deadzone) == -1.0
    ensures NormalizeNativeSteering(c.center, c, deadzone) == 0.0
    ensures NormalizeNativeSteering(c.right, c, deadzone) == 1.0
  {
    SteeringIsPosition(c.left, c, deadzone);
    SteeringIsPosition(c.center, c, deadzone);
    SteeringIsPosition(c.right, c, deadzone);
    var l, m, r := Rightward(c.left, c), Rightward(c.center, c), Rightward(c.right, c);
    RatioNegates(m - l, m - l);
    RatioNegates(r - m, r - m);
    hide Ratio, NormalizeNativeSteering;
  }

  /** The 16-bit axis value shown to the rest of the program. */
  function NormSignedToAxis(v: real): (x: int)
    ensures 0 <= x <= 65535
  {
    var u := Clamp(v, -1.0, 1.0);
    RoundMonotone(0.0, (u + 1.0) * 0.5 * 65535.0);
    RoundMonotone((u + 1.0) * 0.5 * 65535.0, 65535.0);
    Round((u + 1.0) * 0.5 * 65535.0)
  }

  function Norm01ToAxis(v: real): (x: int)
    ensures 0 <= x <= 65535
  {
    var u := Clamp(v, 0.0, 1.0);
    RoundMonotone(0.0, u * 65535.0);
    RoundMonotone(u * 65535.0, 65535.0);
    Round(u * 65535.0)
  }

  /** From raw value to axis value: 0 at Left, 32768 at Center, 65535 at Right, monotone
      in between, and the same through the reference normalizer. */
  lemma SteeringAxisFaithful(raw: int, raw': int, c: AxisCalibration, deadzone: real)
    requires Proper(c) && deadzone < 1.0 && Rightward(raw, c) <= Rightward(raw', c)
    ensures var axis := x => NormSignedToAxis(NormalizeNativeSteering(x, c, deadzone));
            && axis(c.left) == 0 && axis(c.center) == 32768 && axis(c.right) == 65535
            && axis(raw) <= axis(raw')
            && axis(raw) == NormSignedToAxis(NormalizeReferenceSteering(raw, c, deadzone))
  {
    SteeringEnds(c, deadzone);
    SteeringMonotone(raw, raw', c, deadzone);
    SteeringAgrees(raw, c, deadzone);
    AxisMonotone(NormalizeNativeSteering(raw, c, deadzone), NormalizeNativeSteering(raw', c, deadzone));
  }

  lemma AxisMonotone(v: real, w: real)
    requires v <= w
    ensures NormSignedToAxis(v) <= NormSignedToAxis(w)
    ensures NormSignedToAxis(-1.0) == 0 && NormSignedToAxis(0.0) == 32768 && NormSignedToAxis(1.0) == 65535
  {
    RoundMonotone((Clamp(v, -1.0, 1.0) + 1.0) * 0.5 * 65535.0, (Clamp(w, -1.0, 1.0) + 1.0) * 0.5 * 65535.0);
    assert (0.0 + 1.0) * 0.5 * 65535.0 == 32767.5;
  }

  /** Both axis values are the nearest to the scaled position, a tie going up. */
  lemma AxisIsNearest(v: real)
    ensures var x := Norm01ToAxis(v); -0.5 < x as real - 65535.0 * Clamp(v, 0.0, 1.0) <= 0.5
    ensures var x := NormSignedToAxis(v); -0.5 < x as real - 65535.0 * (Clamp(v, -1.0, 1.0) + 1.0) / 2.0 <= 0.5
  {
    var y, z := Clamp(v, 0.0, 1.0) * 65535.0, (Clamp(v, -1.0, 1.0) + 1.0) * 0.5 * 65535.0;
    assert y >= 0.0 && z >= 0.0;
    NearestAbove(y);
    NearestAbove(z);
    hide Round, Clamp;
  }

  lemma NearestAbove(y: real)
    requires y >= 0.0
    ensures -0.5 < Round(y) as real - y <= 0.5
  {
  }

  // ---- Pedals ----

  /** The pedal's way from rest, before deadzone and curve. */
  function Travel(raw: int, c: PedalCalibration): (t: real)
    requires c.rest != c.pressed
    ensures 0.0 <= t <= 1.0
  {
    Clamp(Ratio(raw - c.rest, c.pressed - c.rest), 0.0, 1.0)
  }

  function Sensitivity(c: PedalCalibration): (s: real)
    ensures s > 0.0
  {
    if c.sensitivity <= 0.0 then 1.0 else c.sensitivity
  }

  function Curved(pow: Pow, t: real, s: real): real {
    if s != 1.0 then pow(t, s) else t
  }

  function Rescaled(t: real, dz: real): (r: real)
    requires 0.0 <= t <= 1.0 && 0.0 <= dz < 1.0
  {
    if dz > 0.0 then (if t <= dz then 0.0 else (t - dz) / (1.0 - dz)) else t
  }

  function NativeDeadzone(c: PedalCalibration): (dz: real)
    ensures 0.0 <= dz < 1.0
  {
    var dz := if c.deadzone < 0.0 then 0.0 else c.deadzone;
    if dz >= 1.0 then 0.999 else dz
  }

  function ReferenceDeadzone(c: PedalCalibration): (dz: real)
    ensures 0.0 <= dz < 1.0
  {
    Clamp(c.deadzone, 0.0, 0.999999)
  }

  function NormalizeNativePedal(pow: Pow, raw: int, c: PedalCalibration): (t: real) {
    if c.rest == c.pressed then 0.0
    else Curved(pow, Rescaled(Travel(raw, c), NativeDeadzone(c)), Sensitivity(c))
  }

  function NormalizeReferencePedal(pow: Pow, raw: int, c: PedalCalibration): (t: real) {
    if c.rest == c.pressed then 0.0
    else
      var t, dz := Travel(raw, c), ReferenceDeadzone(c);
      var u := if dz > 0.0 && t > dz then Clamp((t - dz) / (1.0 - dz), 0.0, 1.0) else if dz > 0.0 then 0.0 else t;
      Curved(pow, u, Sensitivity(c))
  }

  lemma RescaledRange(t: real, dz: real)
    requires 0.0 <= t <= 1.0 && 0.0 <= dz < 1.0
    ensures 0.0 <= Rescaled(t, dz) <= 1.0
    ensures Rescaled(0.0, dz) == 0.0 && Rescaled(1.0, dz) == 1.0
  {
    if dz > 0.0 && t > dz {
      QuotientRange(t - dz, 1.0 - dz);
    }
  }

  lemma RescaledMonotone(t: real, u: real, dz: real)
    requires 0.0 <= t <= u <= 1.0 && 0.0 <= dz < 1.0
    ensures Rescaled(t, dz) <= Rescaled(u, dz)
  {
    if dz < u {
      QuotientRange(u - dz, 1.0 - dz);
    }
    if dz < t {
      QuotientOrder(t - dz, u - dz, 1.0 - dz);
    }
  }

  lemma QuotientOrder(a: real, b: real, d: real)
    requires d > 0.0 && a <= b
    ensures a / d <= b / d
  {
  }

  lemma CurvedOrder(pow: Pow, t: real, u: real, s: real)
    requires PowShape(pow) && s > 0.0 && 0.0 <= t <= u <= 1.0
    ensures Curved(pow, 0.0, s) == 0.0 <= Curved(pow, t, s) <= Curved(pow, u, s) <= Curved(pow, 1.0, s) == 1.0
  {
  }

  /** From raw pedal to axis value: 0 at rest, 65535 when pressed, monotone on the way, for
      every deadzone and sensitivity and either direction of travel. */
  lemma PedalAxisFaithful(pow: Pow, raw: int, raw': int, c: PedalCalibration)
    requires PowShape(pow) && c.rest != c.pressed
    requires if c.rest < c.pressed then raw <= raw' else raw' <= raw
    ensures var axis := x => Norm01ToAxis(NormalizeNativePedal(pow, x, c));
            axis(c.rest) == 0 && axis(c.pressed) == 65535 && axis(raw) <= axis(raw')
  {
    var t, u, dz, s := Travel(raw, c), Travel(raw', c), NativeDeadzone(c), Sensitivity(c);
    TravelOrder(raw, raw', c);
    RescaledMonotone(t, u, dz);
    RescaledRange(t, dz);
    RescaledRange(u, dz);
    CurvedOrder(pow, Rescaled(t, dz), Rescaled(u, dz), s);
    hide Travel, Rescaled, Curved, NativeDeadzone, Sensitivity, Norm01ToAxis;
    Axis01Order(NormalizeNativePedal(pow, raw, c), NormalizeNativePedal(pow, raw', c));
  }

  lemma TravelOrder(raw: int, raw': int, c: PedalCalibration)
    requires c.rest != c.pressed
    requires if c.rest < c.pressed then raw <= raw' else raw' <= raw
    ensures Travel(c.rest, c) == 0.0 && Travel(c.pressed, c) == 1.0 && Travel(raw, c) <= Travel(raw', c)
  {
    var d := AbsInt(c.pressed - c.rest);
    RatioNegates(c.rest - c.rest, c.pressed - c.rest);
    RatioNegates(raw - c.rest, c.pressed - c.rest);
    RatioNegates(raw' - c.rest, c.pressed - c.rest);
    RatioMonotone(raw - c.rest, raw' - c.rest, d);
    RatioMonotone(c.rest - raw, c.rest - raw', d);
    hide Ratio;
  }

  lemma Axis01Order(v: real, w: real)
    requires v <= w
    ensures Norm01ToAxis(v) <= Norm01ToAxis(w) && Norm01ToAxis(0.0) == 0 && Norm01ToAxis(1.0) == 65535
  {
    RoundMonotone(Clamp(v, 0.0, 1.0) * 65535.0, Clamp(w, 0.0, 1.0) * 65535.0);
  }

  /** Between rest and pressed, beyond the deadzone, the way left after the deadzone is in
      proportion; a sensitivity above 1 makes strictly less of it and one below 1 strictly more,
      while 1, and anything not positive, leaves it as it is. */
  lemma SensitivityActs(pow: Pow, raw: int, c: PedalCalibration)
    requires PowShape(pow) && c.rest != c.pressed && NativeDeadzone(c) < Travel(raw, c) < 1.0
    ensures var t, dz := NormalizeNativePedal(pow, raw, c), NativeDeadzone(c);
            var share := NormalizeNativePedal(pow, raw, c.(sensitivity := 1.0));
            && 0.0 < share < 1.0
            && InProportion(WithDeadzone(share, dz), raw - c.rest, c.pressed - c.rest)
            && (c.sensitivity > 1.0 ==> t < share) && (0.0 < c.sensitivity < 1.0 ==> share < t)
            && (c.sensitivity <= 0.0 || c.sensitivity == 1.0 ==> t == share)
  {
    var t, dz := Travel(raw, c), NativeDeadzone(c);
    var plain := c.(sensitivity := 1.0);
    assert Travel(raw, plain) == t && NativeDeadzone(plain) == dz && Sensitivity(plain) == 1.0;
    RescaledProportion(t, dz);
    TravelProportion(raw, c);
    ExponentActs(pow, Rescaled(t, dz), Sensitivity(c));
    hide Travel, NativeDeadzone, Rescaled, WithDeadzone, PowShape, InProportion;
  }

  lemma ExponentActs(pow: Pow, u: real, s: real)
    requires PowShape(pow) && 0.0 < u < 1.0 && s > 0.0
    ensures pow(u, 1.0) == u && (s > 1.0 ==> pow(u, s) < u) && (s < 1.0 ==> u < pow(u, s))
  {
    assert s > 1.0 ==> pow(u, s) < pow(u, 1.0);
    assert s < 1.0 ==> pow(u, 1.0) < pow(u, s);
  }

  /** The travel of which a deadzone leaves this share. */
  function WithDeadzone(share: real, dz: real): real {
    share * (1.0 - dz) + dz
  }

  /** What the deadzone leaves, and what it takes. */
  lemma RescaledProportion(t: real, dz: real)
    requires 0.0 <= dz < t <= 1.0
    ensures 0.0 < Rescaled(t, dz) <= 1.0 && (t < 1.0 ==> Rescaled(t, dz) < 1.0)
    ensures WithDeadzone(Rescaled(t, dz), dz) == t
  {
    QuotientRange(t - dz, 1.0 - dz);
    assert ((t - dz) / (1.0 - dz)) * (1.0 - dz) == t - dz;
  }

  /** Short of both ends, the travel is in proportion to the raw way. */
  lemma TravelProportion(raw: int, c: PedalCalibration)
    requires c.rest != c.pressed
    ensures 0.0 < Travel(raw, c) < 1.0 ==> InProportion(Travel(raw, c), raw - c.rest, c.pressed - c.rest)
  {
    RatioTimes(raw - c.rest, c.pressed - c.rest);
    hide Ratio, InProportion;
  }

  /** Between Left and Right, outside the deadzone, steering is in proportion to the raw way. */
  lemma SteeringProportion(raw: int, c: AxisCalibration, deadzone: real)
    requires Proper(c)
    ensures var t := NormalizeNativeSteering(raw, c, deadzone);
            && (0.0 < t < 1.0 ==> InProportion(t, raw - c.center, c.right - c.center))
            && (-1.0 < t < 0.0 ==> InProportion(t, raw - c.center, c.center - c.left))
            && (t == 0.0 <==> deadzone >= 1.0 || Abs(Position(raw, c)) <= Clamp(deadzone, 0.0, 1.0))
  {
    var t, p := NormalizeNativeSteering(raw, c, deadzone), Position(raw, c);
    SteeringIsPosition(raw, c, deadzone);
    PositionTimes(raw, c);
    hide NormalizeNativeSteering, Position, InProportion;
  }

  /** t is the share that a way is of a span. */
  predicate InProportion(t: real, way: int, span: int) {
    t * span as real == way as real
  }

  lemma PositionTimes(raw: int, c: AxisCalibration)
    requires Proper(c)
    ensures Position(raw, c) >= 0.0 ==> InProportion(Position(raw, c), raw - c.center, c.right - c.center)
    ensures Position(raw, c) < 0.0 ==> InProportion(Position(raw, c), raw - c.center, c.center - c.left)
  {
    var up := c.left < c.right;
    var x, span := raw - c.center, if Position(raw, c) >= 0.0 then c.right - c.center else c.center - c.left;
    RatioTimes(x, span);
    assert Position(raw, c) == Ratio(x, span) by { RatioNegates(x, span); }
    RatioSign(if up then x else -x, AbsInt(c.right - c.center));
    RatioSign(if up then x else -x, AbsInt(c.center - c.left));
    hide Ratio, InProportion;
  }

  lemma RatioSign(a: int, d: int)
    requires d > 0
    ensures Ratio(a, d) >= 0.0 <==> a >= 0
  {
    RatioMonotone(0, a, d);
    RatioMonotone(a, 0, d);
    RatioTimes(a, d);
  }

  lemma RatioTimes(a: int, d: int)
    requires d != 0
    ensures InProportion(Ratio(a, d), a, d) && Ratio(-a, -d) == Ratio(a, d) && Ratio(a, -d) == -Ratio(a, d)
  {
    RatioNegates(a, d);
    RatioNegates(-a, d);
  }

  /** The deadzones differ, and the travel lies where the difference shows. */
  ghost predicate DeadzonesClash(raw: int, c: PedalCalibration) {
    && c.rest != c.pressed && c.deadzone > 0.999999
    && (if c.deadzone < 1.0 then 0.999999 else 0.999) < Travel(raw, c) < 1.0
  }

  /** Production and reference agree for every raw value, calibration and sensitivity exactly
      outside that clash. */
  lemma PedalsAgreeIff(pow: Pow, raw: int, c: PedalCalibration)
    requires PowShape(pow)
    ensures NormalizeNativePedal(pow, raw, c) == NormalizeReferencePedal(pow, raw, c) <==> !DeadzonesClash(raw, c)
  {
    if c.rest != c.pressed {
      var t, p, q := Travel(raw, c), NativeDeadzone(c), ReferenceDeadzone(c);
      RescaledRange(t, p);
      RescaledRange(t, q);
      if p != q && DeadzonesClash(raw, c) {
        RescaledDiffer(t, p, q);
      }
      var x, y := Rescaled(t, p), Rescaled(t, q);
      assert x < y ==> pow(x, Sensitivity(c)) < pow(y, Sensitivity(c));
      assert y < x ==> pow(y, Sensitivity(c)) < pow(x, Sensitivity(c));
    }
  }

  lemma RescaledDiffer(t: real, p: real, q: real)
    requires 0.0 < p < 1.0 && 0.0 < q < 1.0 && p != q && t < 1.0 && (p < t || q < t)
    ensures 0.0 <= t && Rescaled(t, p) != Rescaled(t, q)
  {
    if p < t {
      QuotientRange(t - p, 1.0 - p);
    }
    if q < t {
      QuotientRange(t - q, 1.0 - q);
    }
    if p < t && q < t {
      var a, b := (t - p) / (1.0 - p), (t - q) / (1.0 - q);
      assert a * (1.0 - p) == t - p && b * (1.0 - q) == t - q;
      assert a == b ==> (1.0 - a) * (q - p) == 0.0;
      ProductZero(1.0 - a, q - p);
    }
  }

  lemma ProductZero(x: real, y: real)
    ensures x * y == 0.0 ==> x == 0.0 || y == 0.0
  {
  }

  /** On real calibrations, whose ends are bytes, they always agree, for any deadzone at all:
      a byte travel short of full is at most 254/255. */
  lemma BytePedalsAgree(pow: Pow, raw: int, c: PedalCalibration)
    requires PowShape(pow) && 0 <= c.rest <= 255 && 0 <= c.pressed <= 255
    ensures NormalizeNativePedal(pow, raw, c) == NormalizeReferencePedal(pow, raw, c)
  {
    PedalsAgreeIff(pow, raw, c);
    if c.rest != c.pressed {
      ByteTravel(raw, c);
    }
  }

  lemma ByteTravel(raw: int, c: PedalCalibration)
    requires 0 <= c.rest <= 255 && 0 <= c.pressed <= 255 && c.rest != c.pressed
    ensures Travel(raw, c) == 1.0 || Travel(raw, c) <= 0.999
  {
    var n := AbsInt(c.pressed - c.rest);
    var k := if c.pressed > c.rest then raw - c.rest else c.rest - raw;
    assert Ratio(raw - c.rest, c.pressed - c.rest) == Ratio(k, n) by {
      RatioNegates(raw - c.rest, c.pressed - c.rest);
    }
    RatioMonotone(n, k, n);
    RatioMonotone(k, n - 1, n);
    ShortOfFull(n);
    hide Ratio;
  }

  lemma ShortOfFull(n: int)
    requires 0 < n <= 255
    ensures Ratio(n - 1, n) <= 0.999
  {
    var q := Ratio(n - 1, n);
    assert q * n as real == n as real - 1.0;
    LargerProduct(q, 0.999, n as real);
    assert n as real - 1.0 <= 0.999 * n as real;
  }

  lemma LargerProduct(q: real, r: real, b: real)
    requires b > 0.0
    ensures q > r ==> q * b > r * b
  {
  }

  /** Outside bytes the clash is real: a deadzone of 1 and a travel of 0.9995. */
  lemma PedalsCanDiffer(pow: Pow)
    requires PowShape(pow)
    ensures var c := PedalCalibration(-1999, 1, 1.0, 1.0);
            NormalizeNativePedal(pow, 0, c) != NormalizeReferencePedal(pow, 0, c)
  {
    var c := PedalCalibration(-1999, 1, 1.0, 1.0);
    assert Travel(0, c) == 0.9995;
    PedalsAgreeIff(pow, 0, c);
  }
}
