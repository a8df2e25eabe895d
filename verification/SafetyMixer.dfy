/** The integer safety mixer that stands between a shaped force request and the
    motor: per-effect user gains, a profile master, a safety master, and a hard
    per-channel ceiling, computed with nested truncating divisions. */
module SafetyMixer {
  import opened GoMath
  import opened GoText

  datatype Profile = Profile(
    name: Text, rotation: int, master: int, constantGain: int, springGain: int, damperGain: int, frictionGain: int)

  datatype Config = Config(
    master: int, constantLimit: int, springLimit: int, damperLimit: int, frictionLimit: int,
    slewPerTick: int, watchdogMs: int)

  datatype Request = Request(constant: int, spring: int, damper: int, friction: int)

  datatype Mix = Mix(constant: int, spring: int, damper: int, friction: int, clipEvents: nat)

  const SUPPORTED_ROTATIONS: seq<int> := [270, 360, 540, 720, 900]

  /** `best` is the supported angle nearest to v; a tie goes to the smaller one. */
  ghost predicate NearestRotation(v: int, best: int) {
    && best in SUPPORTED_ROTATIONS
    && forall x <- SUPPORTED_ROTATIONS :: NoBetter(v, best, x)
  }

  /** x is farther from v than best, or as far and not smaller. */
  predicate NoBetter(v: int, best: int, x: int) {
    AbsInt(v - best) < AbsInt(v - x) || (AbsInt(v - best) == AbsInt(v - x) && best <= x)
  }

  method NormalizeRotationDegrees(v: int) returns (best: int)
    ensures NearestRotation(v, best) && best == Rotation(v)
  {
    best := SUPPORTED_ROTATIONS[0];
    var bestD := AbsInt(v - best);
    for i := 1 to |SUPPORTED_ROTATIONS|
      invariant best in SUPPORTED_ROTATIONS && best <= SUPPORTED_ROTATIONS[i - 1] && bestD == AbsInt(v - best)
      invariant forall j | 0 <= j < i :: NoBetter(v, best, SUPPORTED_ROTATIONS[j])
    {
      var d := AbsInt(v - SUPPORTED_ROTATIONS[i]);
      if d < bestD {
        best, bestD := SUPPORTED_ROTATIONS[i], d;
      }
    }
    NearestRotationUnique(v, best, Rotation(v));
  }

  /** The nearest supported angle, by the midpoints between neighbours. */
  function Rotation(v: int): (r: int)
    ensures NearestRotation(v, r)
  {
    if v <= 315 then 270 else if v <= 450 then 360 else if v <= 630 then 540 else if v <= 810 then 720 else 900
  }

  /** A supported angle survives normalisation unchanged, and no angle is nearest twice. */
  lemma NearestRotationUnique(v: int, a: int, b: int)
    requires NearestRotation(v, a) && NearestRotation(v, b)
    ensures a == b
    ensures v in SUPPORTED_ROTATIONS ==> a == v
  {
  }

  function NormalizedMaster(master: int): (r: int)
    ensures 1 <= r <= 100
  {
    ClampInt(if master == 0 then 75 else master, 1, 100)
  }

  const MAX_NAME: nat := 48

  /** A name is trimmed and cut to 48 bytes, and a blank one replaced. */
  function NormalizedName(name: Text): Text {
    var t := TrimSpace(name);
    if t == [] then BALANCED else Cut(t, MAX_NAME)
  }

  lemma NameFacts(name: Text)
    ensures var r := NormalizedName(name); r != [] && !IsSpaceUnit(r[0]) && |Bytes(r)| <= MAX_NAME
  {
    TrimLeftStarts(name);
    TrimRightIsPrefix(TrimLeft(name));
    BalancedFits();
    CutIsPrefix(TrimSpace(name), MAX_NAME);
  }

  const BALANCED: Text :=
    [Rune('B'), Rune('a'), Rune('l'), Rune('a'), Rune('n'), Rune('c'), Rune('e'), Rune('d')]

  lemma BalancedFits()
    ensures |Bytes(BALANCED)| == 8
  {
    assert Bytes(BALANCED[7..]) == Utf8('d');
    assert |Bytes(BALANCED[6..])| == 2;
    assert |Bytes(BALANCED[5..])| == 3;
    assert |Bytes(BALANCED[4..])| == 4;
    assert |Bytes(BALANCED[3..])| == 5;
    assert |Bytes(BALANCED[2..])| == 6;
    assert |Bytes(BALANCED[1..])| == 7;
    assert BALANCED[0..] == BALANCED;
  }

  /** Normalising a name again changes it exactly if the cut left white space at its end. */
  lemma NameStableIff(name: Text)
    ensures var n := NormalizedName(name); n != [] && (NormalizedName(n) == n <==> !IsSpaceUnit(n[|n| - 1]))
  {
    var n := NormalizedName(name);
    NameFacts(name);
    assert TrimLeft(n) == n;
    TrimRightIsPrefix(n);
    PrefixFits(TrimRight(n), n, MAX_NAME);
    assert TrimSpace(n) == TrimRight(n) != [];
  }

  /** A name that does change: 47 letters, a space and another letter. */
  lemma CutNameEndsInSpace(letters: Text)
    requires letters == seq(47, _ => Rune('a'))
    ensures NormalizedName(letters + [Rune(' '), Rune('b')]) == letters + [Rune(' ')]
    ensures NormalizedName(letters + [Rune(' ')]) == letters
  {
    var spaced, name := letters + [Rune(' ')], letters + [Rune(' '), Rune('b')];
    Letters(47);
    assert name[0] == Rune('a') == spaced[0] && name[48] == Rune('b') && spaced[47] == Rune(' ');
    assert TrimSpace(name) == name;
    assert spaced[..47] == letters && letters[46] == Rune('a');
    assert TrimLeft(spaced) == spaced && TrimRight(letters) == letters;
    assert TrimRight(spaced) == TrimRight(spaced[..47]);
    CutFits(letters, MAX_NAME);
    CutAfter(letters, [Rune(' '), Rune('b')], MAX_NAME);
    SpaceFits();
  }

  lemma SpaceFits()
    ensures Cut([Rune(' '), Rune('b')], 1) == [Rune(' ')]
  {
    assert [Rune(' '), Rune('b')][1..] == [Rune('b')];
    assert Cut([Rune('b')], 0) == Strays(Utf8('b')[..0]) == [];
  }

  /** normalizeNativeEngineProfile; a missing rotation reads as 900 degrees. */
  function NormalizeProfile(p: Profile): (r: Profile)
    ensures 1 <= r.master <= 100
    ensures 0 <= r.constantGain <= 100 && 0 <= r.springGain <= 100
    ensures 0 <= r.damperGain <= 100 && 0 <= r.frictionGain <= 100
    ensures NearestRotation(if p.rotation == 0 then 900 else p.rotation, r.rotation)
    ensures r.name == NormalizedName(p.name)
  {
    p.(name := NormalizedName(p.name),
       rotation := Rotation(if p.rotation == 0 then 900 else p.rotation),
       master := NormalizedMaster(p.master),
       constantGain := ClampInt(p.constantGain, 0, 100),
       springGain := ClampInt(p.springGain, 0, 100),
       damperGain := ClampInt(p.damperGain, 0, 100),
       frictionGain := ClampInt(p.frictionGain, 0, 100))
  }

  /** A non-positive setting falls back to the default, a large one to the ceiling. */
  function Setting(v: int, fallback: int, ceiling: int): (r: int)
    requires 0 < fallback <= ceiling
    ensures 1 <= r <= ceiling
  {
    if v <= 0 then fallback else if v > ceiling then ceiling else v
  }

  function NormalizeConfig(c: Config): (r: Config)
    ensures 1 <= r.master <= 100 && 1 <= r.constantLimit <= 10
    ensures 1 <= r.springLimit <= 30 && 1 <= r.damperLimit <= 30 && 1 <= r.frictionLimit <= 30
    ensures 1 <= r.slewPerTick <= 5 && 500 <= r.watchdogMs <= 2000
  {
    Config(
      Setting(c.master, 100, 100),
      Setting(c.constantLimit, 10, 10),
      Setting(c.springLimit, 20, 30),
      Setting(c.damperLimit, 20, 30),
      Setting(c.frictionLimit, 20, 30),
      Setting(c.slewPerTick, 2, 5),
      ClampInt(if c.watchdogMs <= 0 then 1200 else c.watchdogMs, 500, 2000))
  }

  function ScaleProfileValue(v: int, gain: int, master: int): (r: int) {
    TruncDiv(ClampInt(v, -100, 100) * ClampInt(gain, 0, 100) * ClampInt(master, 0, 100), 10000)
  }

  function SafetyScale(v: int, safetyMaster: int): (r: int) {
    TruncDiv(v * safetyMaster, 100)
  }

  /** What is left of a request after both scalings and before the hard ceiling. */
  function Delivered(v: int, gain: int, master: int, safetyMaster: int): (r: int) {
    SafetyScale(ScaleProfileValue(v, gain, master), safetyMaster)
  }

  function MixNativeEffects(req: Request, profile: Profile, cfg: Config): (out: Mix) {
    var p, c := NormalizeProfile(profile), NormalizeConfig(cfg);
    var constant := Delivered(req.constant, p.constantGain, p.master, c.master);
    var spring := AbsInt(Delivered(req.spring, p.springGain, p.master, c.master));
    var damper := AbsInt(Delivered(req.damper, p.damperGain, p.master, c.master));
    var friction := AbsInt(Delivered(req.friction, p.frictionGain, p.master, c.master));
    var clipped := Mix(
      ClampInt(constant, -c.constantLimit, c.constantLimit),
      ClampInt(spring, 0, c.springLimit),
      ClampInt(damper, 0, c.damperLimit),
      ClampInt(friction, 0, c.frictionLimit),
      0);
    clipped.(clipEvents :=
      Count(clipped.constant != constant) + Count(clipped.spring != spring)
      + Count(clipped.damper != damper) + Count(clipped.friction != friction))
  }

  function Count(b: bool): (n: nat) {
    if b then 1 else 0
  }

  // ---- The two scalings, one channel at a time ----

  lemma DeliveredOdd(v: int, gain: int, master: int, safetyMaster: int)
    ensures Delivered(-v, gain, master, safetyMaster) == -Delivered(v, gain, master, safetyMaster)
  {
    var w, g, m := ClampInt(v, -100, 100), ClampInt(gain, 0, 100), ClampInt(master, 0, 100);
    assert ClampInt(-v, -100, 100) == -w;
    assert (-w) * g * m == -(w * g * m);
    TruncDivOdd(w * g * m, 10000);
    var s := ScaleProfileValue(v, gain, master);
    assert (-s) * safetyMaster == -(s * safetyMaster);
    TruncDivOdd(s * safetyMaster, 100);
  }

  lemma DeliveredMonotone(v: int, v': int, gain: int, master: int, safetyMaster: int)
    requires v <= v' && 0 <= safetyMaster
    ensures Delivered(v, gain, master, safetyMaster) <= Delivered(v', gain, master, safetyMaster)
  {
    var w, w' := ClampInt(v, -100, 100), ClampInt(v', -100, 100);
    var g, m := ClampInt(gain, 0, 100), ClampInt(master, 0, 100);
    MulMonotone(w, w', g);
    MulMonotone(w * g, w' * g, m);
    TruncDivMonotone(w * g * m, w' * g * m, 10000);
    var s, s' := ScaleProfileValue(v, gain, master), ScaleProfileValue(v', gain, master);
    MulMonotone(s, s', safetyMaster);
    TruncDivMonotone(s * safetyMaster, s' * safetyMaster, 100);
  }

  /** Never larger than the clamped request and never of the opposite sign. */
  lemma DeliveredShrinks(v: int, gain: int, master: int, safetyMaster: int)
    requires 0 <= safetyMaster <= 100
    ensures AbsInt(Delivered(v, gain, master, safetyMaster)) <= AbsInt(ClampInt(v, -100, 100))
    ensures 0 <= v ==> 0 <= Delivered(v, gain, master, safetyMaster)
    ensures v <= 0 ==> Delivered(v, gain, master, safetyMaster) <= 0
  {
    var w, g, m := ClampInt(v, -100, 100), ClampInt(gain, 0, 100), ClampInt(master, 0, 100);
    PercentProduct(g, m);
    assert w * g * m == w * (g * m);
    TruncScaleShrinks(w, g * m, 10000);
    TruncScaleShrinks(ScaleProfileValue(v, gain, master), safetyMaster, 100);
  }

  lemma PercentProduct(g: int, m: int)
    requires 0 <= g <= 100 && 0 <= m <= 100
    ensures 0 <= g * m <= 10000
  {
    MulMonotone(g, 100, m);
    MulMonotone(0, g, m);
  }

  /** Lowering any of the three percentages never raises the magnitude. */
  lemma DeliveredGainMonotone(v: int, g: int, g': int, m: int, m': int, s: int, s': int)
    requires g <= g' && m <= m' && 0 <= s <= s' <= 100
    ensures AbsInt(Delivered(v, g, m, s)) <= AbsInt(Delivered(v, g', m', s'))
  {
    if v < 0 {
      DeliveredOdd(-v, g, m, s);
      DeliveredOdd(-v, g', m', s');
      DeliveredGainMonotoneUp(-v, g, g', m, m', s, s');
    } else {
      DeliveredGainMonotoneUp(v, g, g', m, m', s, s');
    }
  }

  lemma DeliveredGainMonotoneUp(v: nat, g: int, g': int, m: int, m': int, s: int, s': int)
    requires g <= g' && m <= m' && 0 <= s <= s' <= 100
    ensures 0 <= Delivered(v, g, m, s) <= Delivered(v, g', m', s')
  {
    ScaleGainMonotone(v, g, g', m, m');
    SafetyGainMonotone(ScaleProfileValue(v, g, m), ScaleProfileValue(v, g', m'), s, s');
  }

  lemma ScaleGainMonotone(v: nat, g: int, g': int, m: int, m': int)
    requires g <= g' && m <= m'
    ensures 0 <= ScaleProfileValue(v, g, m) <= ScaleProfileValue(v, g', m')
  {
    var w := ClampInt(v, -100, 100);
    var a, a' := ClampInt(g, 0, 100), ClampInt(g', 0, 100);
    var b, b' := ClampInt(m, 0, 100), ClampInt(m', 0, 100);
    ProductMonotone(w, a, a', b, b');
    TruncDivMonotone(w * a * b, w * a' * b', 10000);
  }

  lemma ProductMonotone(w: nat, a: nat, a': nat, b: nat, b': nat)
    requires a <= a' && b <= b'
    ensures 0 <= w * a * b <= w * a' * b'
  {
    MulMonotone(a, a', w);
    MulMonotone(w * a, w * a', b);
    MulMonotone(b, b', w * a');
  }

  lemma SafetyGainMonotone(x: nat, y: nat, s: nat, s': nat)
    requires x <= y && s <= s'
    ensures 0 <= SafetyScale(x, s) <= SafetyScale(y, s')
  {
    MulMonotone(x, y, s);
    MulMonotone(s, s', y);
    TruncDivMonotone(x * s, y * s', 100);
  }

  /** Full gains pass a request on, and a zero gain silences it. */
  lemma DeliveredExtremes(v: int, gain: int, master: int, safetyMaster: int)
    ensures Delivered(v, 100, 100, 100) == ClampInt(v, -100, 100)
    ensures gain <= 0 ==> Delivered(v, gain, master, safetyMaster) == 0
  {
    var w := ClampInt(v, -100, 100);
    TruncDivUnique(w * 100 * 100, 10000, w);
    TruncDivUnique(w * 100, 100, w);
    TruncDivUnique(0, 10000, 0);
    TruncDivUnique(0, 100, 0);
    if gain <= 0 {
      assert w * 0 * ClampInt(master, 0, 100) == 0;
    }
  }

  /** The two truncations together lose less than two units of the exact product. */
  lemma DeliveredAccurate(v: nat, gain: int, master: int, safetyMaster: int)
    requires 0 <= safetyMaster <= 100
    ensures var exact := ClampInt(v, -100, 100) * ClampInt(gain, 0, 100) * ClampInt(master, 0, 100) * safetyMaster;
            var d := Delivered(v, gain, master, safetyMaster);
            d * 1000000 <= exact < (d + 2) * 1000000
  {
    var w, g, m := ClampInt(v, -100, 100), ClampInt(gain, 0, 100), ClampInt(master, 0, 100);
    PercentProduct(g, m);
    assert w * g * m == w * (g * m);
    MulMonotone(0, w, g * m);
    NestedTruncation(w * g * m, safetyMaster);
    hide Delivered, ScaleProfileValue, SafetyScale;
    assert Delivered(v, gain, master, safetyMaster) == TruncDiv(TruncDiv(w * g * m, 10000) * safetyMaster, 100) by {
      DeliveredUnfolded(v, gain, master, safetyMaster);
    }
  }

  lemma DeliveredUnfolded(v: int, gain: int, master: int, safetyMaster: int)
    ensures Delivered(v, gain, master, safetyMaster)
            == TruncDiv(TruncDiv(ClampInt(v, -100, 100) * ClampInt(gain, 0, 100) * ClampInt(master, 0, 100), 10000) * safetyMaster, 100)
  {
  }

  lemma NestedTruncation(a: nat, s: int)
    requires 0 <= s <= 100
    ensures var d := TruncDiv(TruncDiv(a, 10000) * s, 100);
            d * 1000000 <= a * s < (d + 2) * 1000000
  {
    var q := TruncDiv(a, 10000);
    MulMonotone(q * 10000, a, s);
    MulMonotone(a, (q + 1) * 10000, s);
    assert (q * 10000) * s == (q * s) * 10000 && ((q + 1) * 10000) * s == (q * s) * 10000 + s * 10000;
    MulMonotone(0, q, s);
    if s > 0 {
      StrictlyLess(a, (q + 1) * 10000, s);
    }
  }

  lemma StrictlyLess(x: int, y: int, b: int)
    ensures x < y && 0 < b ==> x * b < y * b
  {
  }

  /** Normalisation leaves rotations, gains and limits that are in range alone. Normalising
      limits twice is normalising them once, and so it is for profiles, exactly unless the cut
      name ends in white space. */
  lemma NormalisationIsStable(p: Profile, c: Config)
    ensures (p.rotation in SUPPORTED_ROTATIONS && 1 <= p.master <= 100 && 0 <= p.constantGain <= 100 && 0 <= p.springGain <= 100
             && 0 <= p.damperGain <= 100 && 0 <= p.frictionGain <= 100) ==> NormalizeProfile(p) == p.(name := NormalizedName(p.name))
    ensures (1 <= c.master <= 100 && 1 <= c.constantLimit <= 10 && 1 <= c.springLimit <= 30 && 1 <= c.damperLimit <= 30
             && 1 <= c.frictionLimit <= 30 && 1 <= c.slewPerTick <= 5 && 500 <= c.watchdogMs <= 2000) ==> NormalizeConfig(c) == c
    ensures NormalizeProfile(NormalizeProfile(p)) == NormalizeProfile(p) <==>
              var n := NormalizedName(p.name); n == [] || !IsSpaceUnit(n[|n| - 1])
    ensures NormalizeConfig(NormalizeConfig(c)) == NormalizeConfig(c)
  {
    NameStableIff(p.name);
    hide NormalizedName;
  }

  // ---- The mixer ----

  function Negated(req: Request): (r: Request) {
    Request(-req.constant, -req.spring, -req.damper, -req.friction)
  }

  /** Odd in the constant force; the three condition effects ignore the sign. */
  lemma MixOdd(req: Request, profile: Profile, cfg: Config)
    ensures var a, b := MixNativeEffects(req, profile, cfg), MixNativeEffects(Negated(req), profile, cfg);
            b == a.(constant := -a.constant)
  {
    hide NormalizedName;
    var p, c := NormalizeProfile(profile), NormalizeConfig(cfg);
    DeliveredOdd(req.constant, p.constantGain, p.master, c.master);
    DeliveredOdd(req.spring, p.springGain, p.master, c.master);
    DeliveredOdd(req.damper, p.damperGain, p.master, c.master);
    DeliveredOdd(req.friction, p.frictionGain, p.master, c.master);
  }

  lemma MixMonotone(req: Request, req': Request, profile: Profile, cfg: Config)
    requires req.constant <= req'.constant
    ensures MixNativeEffects(req, profile, cfg).constant <= MixNativeEffects(req', profile, cfg).constant
  {
    hide NormalizedName;
    var p, c := NormalizeProfile(profile), NormalizeConfig(cfg);
    DeliveredMonotone(req.constant, req'.constant, p.constantGain, p.master, c.master);
  }

  /** Every output is within both the clamped request and the channel ceiling, and
      the constant force never opposes the request. */
  lemma MixBounded(req: Request, profile: Profile, cfg: Config)
    ensures var out, c := MixNativeEffects(req, profile, cfg), NormalizeConfig(cfg);
            && AbsInt(out.constant) <= c.constantLimit
            && AbsInt(out.constant) <= AbsInt(ClampInt(req.constant, -100, 100))
            && (0 <= req.constant ==> 0 <= out.constant)
            && (req.constant <= 0 ==> out.constant <= 0)
            && 0 <= out.spring <= c.springLimit && out.spring <= AbsInt(ClampInt(req.spring, -100, 100))
            && 0 <= out.damper <= c.damperLimit && out.damper <= AbsInt(ClampInt(req.damper, -100, 100))
            && 0 <= out.friction <= c.frictionLimit && out.friction <= AbsInt(ClampInt(req.friction, -100, 100))
  {
    hide NormalizedName;
    var p, c := NormalizeProfile(profile), NormalizeConfig(cfg);
    DeliveredShrinks(req.constant, p.constantGain, p.master, c.master);
    DeliveredShrinks(req.spring, p.springGain, p.master, c.master);
    DeliveredShrinks(req.damper, p.damperGain, p.master, c.master);
    DeliveredShrinks(req.friction, p.frictionGain, p.master, c.master);
  }

  /** Each channel obeys its own gain and limit: at full gains and masters it passes the
      clamped request up to its limit, and a gain of zero silences it and it alone. */
  lemma MixChannels(req: Request, profile: Profile, cfg: Config)
    ensures var out, p, c := MixNativeEffects(req, profile, cfg), NormalizeProfile(profile), NormalizeConfig(cfg);
            && (p.constantGain == 0 ==> out.constant == 0) && (p.springGain == 0 ==> out.spring == 0)
            && (p.damperGain == 0 ==> out.damper == 0) && (p.frictionGain == 0 ==> out.friction == 0)
            && (p.master == 100 && c.master == 100 ==>
                  && (p.constantGain == 100 ==> out.constant == ClampInt(ClampInt(req.constant, -100, 100), -c.constantLimit, c.constantLimit))
                  && (p.springGain == 100 ==> out.spring == ClampInt(AbsInt(ClampInt(req.spring, -100, 100)), 0, c.springLimit))
                  && (p.damperGain == 100 ==> out.damper == ClampInt(AbsInt(ClampInt(req.damper, -100, 100)), 0, c.damperLimit))
                  && (p.frictionGain == 100 ==> out.friction == ClampInt(AbsInt(ClampInt(req.friction, -100, 100)), 0, c.frictionLimit)))
  {
    hide NormalizedName;
    var p, c := NormalizeProfile(profile), NormalizeConfig(cfg);
    DeliveredExtremes(req.constant, p.constantGain, p.master, c.master);
    DeliveredExtremes(req.spring, p.springGain, p.master, c.master);
    DeliveredExtremes(req.damper, p.damperGain, p.master, c.master);
    DeliveredExtremes(req.friction, p.frictionGain, p.master, c.master);
    hide Delivered, NormalizeProfile, NormalizeConfig;
  }

  ghost predicate ProfileAtMost(p: Profile, q: Profile) {
    && p.master <= q.master && p.constantGain <= q.constantGain && p.springGain <= q.springGain
    && p.damperGain <= q.damperGain && p.frictionGain <= q.frictionGain
  }

  ghost predicate ConfigAtMost(c: Config, d: Config) {
    && c.master <= d.master && c.constantLimit <= d.constantLimit && c.springLimit <= d.springLimit
    && c.damperLimit <= d.damperLimit && c.frictionLimit <= d.frictionLimit
  }

  /** Turning down any gain, master or limit, after normalisation, never makes any
      output stronger. */
  lemma MixNeverAmplifies(req: Request, p: Profile, q: Profile, c: Config, d: Config)
    requires ProfileAtMost(NormalizeProfile(p), NormalizeProfile(q))
    requires ConfigAtMost(NormalizeConfig(c), NormalizeConfig(d))
    ensures var a, b := MixNativeEffects(req, p, c), MixNativeEffects(req, q, d);
            && AbsInt(a.constant) <= AbsInt(b.constant)
            && a.spring <= b.spring && a.damper <= b.damper && a.friction <= b.friction
  {
    hide NormalizedName;
    hide Delivered, NormalizeProfile, NormalizeConfig;
    var p', q' := NormalizeProfile(p), NormalizeProfile(q);
    var c', d' := NormalizeConfig(c), NormalizeConfig(d);
    DeliveredGainMonotone(req.constant, p'.constantGain, q'.constantGain, p'.master, q'.master, c'.master, d'.master);
    DeliveredGainMonotone(req.spring, p'.springGain, q'.springGain, p'.master, q'.master, c'.master, d'.master);
    DeliveredGainMonotone(req.damper, p'.damperGain, q'.damperGain, p'.master, q'.master, c'.master, d'.master);
    DeliveredGainMonotone(req.friction, p'.frictionGain, q'.frictionGain, p'.master, q'.master, c'.master, d'.master);
  }

  // ---- Lowering what is stored, before normalisation ----

  /** No output of x is stronger than the same output of y. */
  ghost predicate NotStronger(x: Mix, y: Mix) {
    && AbsInt(x.constant) <= AbsInt(y.constant)
    && x.spring <= y.spring && x.damper <= y.damper && x.friction <= y.friction
  }

  /** Lowering stored gains never strengthens an output. */
  lemma LoweringStoredGains(req: Request, p: Profile, q: Profile, c: Config)
    requires p.master == q.master && p.constantGain <= q.constantGain && p.springGain <= q.springGain
    requires p.damperGain <= q.damperGain && p.frictionGain <= q.frictionGain
    ensures NotStronger(MixNativeEffects(req, p, c), MixNativeEffects(req, q, c))
  {
    hide NormalizedName;
    MixNeverAmplifies(req, p, q, c, c);
  }

  /** A request, a profile and limits under which nothing but the masters matters. */
  const PROBE_PROFILE := Profile(BALANCED, 900, 100, 100, 100, 100, 100)
  const PROBE_CONFIG := Config(100, 10, 30, 30, 30, 2, 1200)

  /** Lowering the stored profile master from a to b strengthens no output, whatever the
      request and the other settings, except when it goes to 0, which reads as 75. */
  lemma LoweringStoredMaster(a: int, b: int)
    requires b <= a
    ensures (forall req, p: Profile, c ::
               NotStronger(MixNativeEffects(req, p.(master := b), c), MixNativeEffects(req, p.(master := a), c)))
            <==> b != 0 || a == 0 || 75 <= a
  {
    hide NormalizedName;
    if b == 0 && 0 < a < 75 {
      ZeroMasterAmplifies(a);
      assert !NotStronger(
          MixNativeEffects(Request(4, 0, 0, 0), PROBE_PROFILE.(master := b), PROBE_CONFIG),
          MixNativeEffects(Request(4, 0, 0, 0), PROBE_PROFILE.(master := a), PROBE_CONFIG));
    } else {
      forall req, p: Profile, c
        ensures NotStronger(MixNativeEffects(req, p.(master := b), c), MixNativeEffects(req, p.(master := a), c))
      {
        MixNeverAmplifies(req, p.(master := b), p.(master := a), c, c);
      }
    }
  }

  /** The exception is audible for every master it can hit: a request of 4 at full gains
      gives 3 at stored master 0, and at most 2 at any stored master from 1 to 74. */
  lemma ZeroMasterAmplifies(a: int)
    requires 0 < a < 75
    ensures MixNativeEffects(Request(4, 0, 0, 0), PROBE_PROFILE.(master := 0), PROBE_CONFIG).constant == 3
    ensures 0 <= MixNativeEffects(Request(4, 0, 0, 0), PROBE_PROFILE.(master := a), PROBE_CONFIG).constant <= 2
  {
    hide NormalizedName;
    DeliveredUnfolded(4, 100, 75, 100);
    DeliveredUnfolded(4, 100, a, 100);
    TruncDivUnique(30000, 10000, 3);
    TruncDivUnique(300, 100, 3);
    TruncDivMonotone(400 * a, 29999, 10000);
    TruncDivMonotone(0, 400 * a, 10000);
    var q := TruncDiv(400 * a, 10000);
    TruncDivUnique(29999, 10000, 2);
    TruncDivUnique(0, 10000, 0);
    TruncDivUnique(q * 100, 100, q);
    hide Delivered;
  }

  /** The stored safety settings that scale or limit an output. */
  datatype Field = SafetyMaster | ConstantLimit | SpringLimit | DamperLimit | FrictionLimit

  function With(c: Config, field: Field, v: int): Config {
    match field
    case SafetyMaster => c.(master := v)
    case ConstantLimit => c.(constantLimit := v)
    case SpringLimit => c.(springLimit := v)
    case DamperLimit => c.(damperLimit := v)
    case FrictionLimit => c.(frictionLimit := v)
  }

  /** What a non-positive stored value reads as. */
  function Fallback(field: Field): int {
    match field
    case SafetyMaster => 100
    case ConstantLimit => 10
    case SpringLimit => 20
    case DamperLimit => 20
    case FrictionLimit => 20
  }

  /** Lowering a stored safety setting from a to b strengthens no output, whatever the request
      and the other settings, except when b is not positive and a is, below the fallback. */
  lemma LoweringStoredSetting(field: Field, a: int, b: int)
    requires b <= a
    ensures (forall req, p, c ::
               NotStronger(MixNativeEffects(req, p, With(c, field, b)), MixNativeEffects(req, p, With(c, field, a))))
            <==> 0 < b || a <= 0 || Fallback(field) <= a
  {
    hide NormalizedName;
    if b <= 0 < a < Fallback(field) {
      var req := StrongerRequest(field);
      StoredSettingAmplifies(field, a, b);
      assert !NotStronger(
          MixNativeEffects(req, PROBE_PROFILE, With(PROBE_CONFIG, field, b)),
          MixNativeEffects(req, PROBE_PROFILE, With(PROBE_CONFIG, field, a)));
    } else {
      forall req, p, c
        ensures NotStronger(MixNativeEffects(req, p, With(c, field, b)), MixNativeEffects(req, p, With(c, field, a)))
      {
        MixNeverAmplifies(req, p, p, With(c, field, b), With(c, field, a));
      }
    }
  }

  /** The request that shows it: 1 percent for the master, and full requests for the limits. */
  function StrongerRequest(field: Field): Request {
    if field == SafetyMaster then Request(1, 0, 0, 0) else Request(100, 100, 100, 100)
  }

  /** What the affected channel delivers. */
  function Channel(field: Field, m: Mix): int {
    match field
    case SafetyMaster => m.constant
    case ConstantLimit => m.constant
    case SpringLimit => m.spring
    case DamperLimit => m.damper
    case FrictionLimit => m.friction
  }

  lemma StoredSettingAmplifies(field: Field, a: int, b: int)
    requires b <= 0 < a < Fallback(field)
    ensures Channel(field, MixNativeEffects(StrongerRequest(field), PROBE_PROFILE, With(PROBE_CONFIG, field, b)))
            == if field == SafetyMaster then 1 else Fallback(field)
    ensures Channel(field, MixNativeEffects(StrongerRequest(field), PROBE_PROFILE, With(PROBE_CONFIG, field, a)))
            == if field == SafetyMaster then 0 else a
  {
    hide NormalizedName;
    if field == SafetyMaster {
      DeliveredUnfolded(1, 100, 100, a);
      DeliveredUnfolded(1, 100, 100, 100);
      TruncDivUnique(10000, 10000, 1);
      TruncDivUnique(a, 100, 0);
      TruncDivUnique(100, 100, 1);
    } else {
      DeliveredExtremes(100, 100, 100, 100);
    }
    hide Delivered;
  }

  /** The two settings that do not reach the mixer: the slew limit and the watchdog time.
      Lowering a stored one never raises the effective one, with the same exception. */
  lemma LoweringStoredRate(c: Config, a: int, b: int)
    requires b <= a
    ensures NormalizeConfig(c.(slewPerTick := b)).slewPerTick <= NormalizeConfig(c.(slewPerTick := a)).slewPerTick
            <==> 0 < b || a <= 0 || 2 <= a
    ensures NormalizeConfig(c.(watchdogMs := b)).watchdogMs <= NormalizeConfig(c.(watchdogMs := a)).watchdogMs
            <==> 0 < b || a <= 0 || 1200 <= a
  {
  }

  /** No clip event is counted exactly when the ceiling changed nothing. */
  lemma NoClipMeansUncut(req: Request, profile: Profile, cfg: Config)
    ensures var out, p, c := MixNativeEffects(req, profile, cfg), NormalizeProfile(profile), NormalizeConfig(cfg);
            out.clipEvents == 0 <==>
              && AbsInt(Delivered(req.constant, p.constantGain, p.master, c.master)) <= c.constantLimit
              && AbsInt(Delivered(req.spring, p.springGain, p.master, c.master)) <= c.springLimit
              && AbsInt(Delivered(req.damper, p.damperGain, p.master, c.master)) <= c.damperLimit
              && AbsInt(Delivered(req.friction, p.frictionGain, p.master, c.master)) <= c.frictionLimit
  {
    hide NormalizedName;
  }
}
