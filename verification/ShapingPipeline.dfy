/** The signal shaping between a game's force and the safety mixer: gains, deadband, response
    curve, minimum force, a low-pass filter, smoothing and an output limit. It keeps filter
    state from frame to frame. math.Pow enters as a parameter with its shape on [0, 1]. */
module ShapingPipeline {
  import opened Optional
  import opened GoMath
  import opened ForceCore
  import opened InputNormalizers
  import GoText
  import AdvancedTuning

  datatype FFBTuning = FFBTuning(
    enabled: bool, constantGain: real, transientGain: real, deadband: real, minimumForce: real,
    responseExponent: real, lowPassHz: real, smoothing: real, outputLimit: real)

  const DEFAULT_TUNING := FFBTuning(true, 1.0, 1.0, 0.0, 0.0, 1.0, 0.0, 0.0, 1.0)
  const PI := 3.141592653589793
  const TARGET_HZ := 150.0

  predicate InRange(t: FFBTuning) {
    && 0.0 <= t.constantGain <= 1.5 && 0.0 <= t.transientGain <= 1.5
    && 0.0 <= t.deadband <= 0.2 && 0.0 <= t.minimumForce <= 0.2
    && 0.5 <= t.responseExponent <= 2.0 && (t.lowPassHz == 0.0 || 5.0 <= t.lowPassHz <= 100.0)
    && 0.0 <= t.smoothing <= 0.9 && 0.1 <= t.outputLimit <= 1.0
  }

  type SafeTuning = t: FFBTuning | InRange(t) witness DEFAULT_TUNING

  /** Without NaN and infinities this never fails. */
  function NormalizeTuning(t: FFBTuning): (r: FFBTuning)
    ensures InRange(r)
    ensures InRange(t) && t.enabled ==> r == t
  {
    if !t.enabled then DEFAULT_TUNING.(enabled := false)
    else
      FFBTuning(
        true,
        Clamp(t.constantGain, 0.0, 1.5),
        Clamp(t.transientGain, 0.0, 1.5),
        Clamp(t.deadband, 0.0, 0.2),
        Clamp(t.minimumForce, 0.0, 0.2),
        Clamp(if t.responseExponent == 0.0 then 1.0 else t.responseExponent, 0.5, 2.0),
        if t.lowPassHz != 0.0 then Clamp(t.lowPassHz, 5.0, 100.0) else 0.0,
        Clamp(t.smoothing, 0.0, 0.9),
        Clamp(if t.outputLimit == 0.0 then 1.0 else t.outputLimit, 0.1, 1.0))
  }

  /** The stored per-wheel settings as a tuning. */
  function TuningOf(stored: AdvancedTuning.Tuning, name: GoText.Text): FFBTuning {
    var c := AdvancedTuning.Normalize(stored, name);
    FFBTuning(
      c.enabled, c.constantGain as real / 100.0, c.transientGain as real / 100.0, c.deadband as real / 100.0,
      c.minimumForce as real / 100.0, c.responseExponent, c.lowPassHz as real, c.smoothing as real / 100.0,
      c.outputLimit as real / 100.0)
  }

  /** The two ranges fit: what is stored reaches the filters unaltered, unless disabled. */
  lemma StoredTuningUnaltered(stored: AdvancedTuning.Tuning, name: GoText.Text)
    ensures InRange(TuningOf(stored, name))
    ensures NormalizeTuning(TuningOf(stored, name)) ==
            if stored.enabled then TuningOf(stored, name) else DEFAULT_TUNING.(enabled := false)
  {
    hide GoText.Cut, GoText.Blank;
  }

  /** What the filters remember. Times are nanoseconds. */
  datatype Filter = Filter(haveState: bool, lastAt: int, lowPass: real, output: real)

  datatype Pipe = Pipe(
    filter: Filter, frames: nat, inputClips: nat, outputClips: nat, deadbandHits: nat, minimumApplied: nat)

  const FRESH := Pipe(Filter(false, 0, 0.0, 0.0), 0, 0, 0, 0, 0)

  // ---- The stages ----

  function RawForce(cfg: FFBTuning, f: ForceFrame, gain: real): real {
    (f.constant * cfg.constantGain + f.transient * cfg.transientGain) * gain
  }

  function SignedMagnitude(signSource: real, mag: real): real {
    if signSource < 0.0 then -mag else mag
  }

  function AfterDeadband(raw: real, deadband: real): real
    requires 0.0 <= deadband < 1.0
  {
    if Abs(raw) <= deadband then 0.0 else SignedMagnitude(raw, (Abs(raw) - deadband) / (1.0 - deadband))
  }

  function AfterCurve(pow: Pow, dead: real, exponent: real): real {
    if dead != 0.0 then SignedMagnitude(dead, pow(Abs(dead), exponent)) else 0.0
  }

  /** A magnitude lifted above a minimum, full scale staying full scale. */
  function Lifted(c: real, m: real): real {
    m + c * (1.0 - m)
  }

  function AfterMinimum(curved: real, minimum: real): real {
    if curved != 0.0 && minimum > 0.0 then SignedMagnitude(curved, Lifted(Abs(curved), minimum)) else curved
  }

  /** The low-pass weight of a new sample; an implausible time step counts as one tick. */
  function Alpha(hz: real, elapsed: int): (alpha: real)
    requires hz > 0.0
    ensures 0.0 < alpha < 1.0
  {
    var seconds := elapsed as real / 1000000000.0;
    var dt := if seconds <= 0.0 || seconds > 0.5 then 1.0 / TARGET_HZ else seconds;
    var rc := 1.0 / (2.0 * PI * hz);
    WeightRange(dt, rc);
    dt / (rc + dt)
  }

  /** The weight of a sample is that of a first-order filter with the given cutoff, over the time
      since the last sample or, if that is implausible, over a tick of a 150th of a second. */
  lemma AlphaWeighs(hz: real, elapsed: int)
    requires hz > 0.0
    ensures var seconds := if 0 < elapsed <= 500000000 then elapsed as real / 1000000000.0 else 1.0 / 150.0;
            var turns := 2.0 * 3.141592653589793 * hz * seconds;
            Alpha(hz, elapsed) * (1.0 + turns) == turns
  {
    var dt := if 0 < elapsed <= 500000000 then elapsed as real / 1000000000.0 else 1.0 / 150.0;
    var w := 2.0 * PI * hz;
    FirstOrder(dt, w);
    assert Alpha(hz, elapsed) == dt / (1.0 / w + dt);
  }

  lemma FirstOrder(dt: real, w: real)
    requires dt > 0.0 && w > 0.0
    ensures (dt / (1.0 / w + dt)) * (1.0 + w * dt) == w * dt
  {
    var rc := 1.0 / w;
    assert rc * w == 1.0;
    var a := dt / (rc + dt);
    assert a * (rc + dt) == dt;
    assert a * (rc + dt) * w == a * (rc * w + dt * w);
  }

  lemma WeightRange(dt: real, rc: real)
    requires dt > 0.0 && rc > 0.0
    ensures 0.0 < dt / (rc + dt) < 1.0
  {
    QuotientRange(dt, rc + dt);
  }

  /** What is left of `was` where `sample` weighs `weight`. */
  function Blend(was: real, sample: real, weight: real): real {
    was + weight * (sample - was)
  }

  function AfterLowPass(cfg: FFBTuning, m: Filter, forced: real, now: int): real {
    if cfg.lowPassHz > 0.0 && m.haveState then Blend(m.lowPass, forced, Alpha(cfg.lowPassHz, now - m.lastAt)) else forced
  }

  function AfterSmoothing(cfg: FFBTuning, m: Filter, low: real): real {
    if cfg.smoothing > 0.0 && m.haveState then Smoothed(m.output, low, cfg.smoothing) else low
  }

  function Smoothed(output: real, low: real, smoothing: real): real {
    output * smoothing + low * (1.0 - smoothing)
  }

  /** Deadband, curve and minimum force: the part without memory. */
  function Forced(pow: Pow, cfg: FFBTuning, raw: real): real
    requires InRange(cfg)
  {
    AfterMinimum(AfterCurve(pow, AfterDeadband(raw, cfg.deadband), cfg.responseExponent), cfg.minimumForce)
  }

  function One(b: bool): nat {
    if b then 1 else 0
  }

  /** One frame through the pipeline: the new state and the shaped force. */
  function Processed(pow: Pow, cfg: FFBTuning, p: Pipe, f: ForceFrame, gain: real, now: int): (Pipe, real)
    requires InRange(cfg)
  {
    var unclamped := RawForce(cfg, f, gain);
    var raw := Clamp(unclamped, -1.0, 1.0);
    var counted := p.(frames := p.frames + 1, inputClips := p.inputClips + One(raw != unclamped));
    if !cfg.enabled then (counted, Clamp(raw, -cfg.outputLimit, cfg.outputLimit))
    else
      var curved := AfterCurve(pow, AfterDeadband(raw, cfg.deadband), cfg.responseExponent);
      Filtered(
        cfg,
        counted.(deadbandHits := p.deadbandHits + One(0.0 < Abs(raw) <= cfg.deadband),
                 minimumApplied := p.minimumApplied + One(curved != 0.0 && cfg.minimumForce > 0.0)),
        Forced(pow, cfg, raw), now)
  }

  /** Its second half: both filters, the output limit, and what they remember. */
  function Filtered(cfg: FFBTuning, p: Pipe, forced: real, now: int): (Pipe, real)
    requires InRange(cfg)
  {
    var low := AfterLowPass(cfg, p.filter, forced, now);
    var out := AfterSmoothing(cfg, p.filter, low);
    var limited := Clamp(out, -cfg.outputLimit, cfg.outputLimit);
    (p.(filter := Filter(true, now, low, limited), outputClips := p.outputClips + One(limited != out)), limited)
  }

  class FFBPipeline {
    const pow: Pow
    var cfg: FFBTuning
    var haveState: bool
    var lastAt: int
    var lowPass: real
    var output: real
    var frames: nat
    var inputClips: nat
    var outputClips: nat
    var deadbandHits: nat
    var minimumApplied: nat

    ghost predicate Valid() reads this {
      InRange(cfg)
    }

    ghost function View(): Pipe reads this {
      Pipe(Filter(haveState, lastAt, lowPass, output), frames, inputClips, outputClips, deadbandHits, minimumApplied)
    }

    constructor (pow: Pow, tuning: FFBTuning)
      ensures Valid() && this.pow == pow && cfg == NormalizeTuning(tuning) && View() == FRESH
    {
      this.pow := pow;
      cfg := NormalizeTuning(tuning);
      haveState, lastAt, lowPass, output := false, 0, 0.0, 0.0;
      frames, inputClips, outputClips, deadbandHits, minimumApplied := 0, 0, 0, 0, 0;
    }

    /** New settings start with empty filters. */
    method SetTuning(tuning: FFBTuning)
      modifies this
      ensures Valid() && cfg == NormalizeTuning(tuning) && View() == FRESH
    {
      cfg := NormalizeTuning(tuning);
      haveState, lastAt, lowPass, output := false, 0, 0.0, 0.0;
      frames, inputClips, outputClips, deadbandHits, minimumApplied := 0, 0, 0, 0, 0;
    }

    method ProcessFrame(frame: ForceFrame, masterGain: real, now: int) returns (shaped: real)
      requires Valid()
      modifies this
      ensures Valid() && cfg == old(cfg)
      ensures (View(), shaped) == Processed(pow, cfg, old(View()), frame, masterGain, now)
    {
      hide RawForce, Filtered, Lifted, AfterDeadband, AfterCurve, SignedMagnitude;
      var unclamped := RawForce(cfg, frame, masterGain);
      var raw := Clamp(unclamped, -1.0, 1.0);
      frames := frames + 1;
      if raw != unclamped {
        inputClips := inputClips + 1;
      }
      if !cfg.enabled {
        return Clamp(raw, -cfg.outputLimit, cfg.outputLimit);
      }
      if 0.0 < Abs(raw) <= cfg.deadband {
        deadbandHits := deadbandHits + 1;
      }
      var dead := AfterDeadband(raw, cfg.deadband);
      var curved := AfterCurve(pow, dead, cfg.responseExponent);
      var forced := curved;
      if curved != 0.0 && cfg.minimumForce > 0.0 {
        forced := SignedMagnitude(curved, Lifted(Abs(curved), cfg.minimumForce));
        minimumApplied := minimumApplied + 1;
      }
      shaped := FilterLocked(forced, now);
    }

    method FilterLocked(forced: real, now: int) returns (limited: real)
      requires Valid()
      modifies this
      ensures Valid() && cfg == old(cfg)
      ensures (View(), limited) == Filtered(cfg, old(View()), forced, now)
    {
      hide Alpha, Blend, Smoothed, Clamp;
      var low := forced;
      if cfg.lowPassHz > 0.0 && haveState {
        low := Blend(lowPass, forced, Alpha(cfg.lowPassHz, now - lastAt));
      }
      lowPass := low;
      var out := low;
      if cfg.smoothing > 0.0 && haveState {
        out := Smoothed(output, low, cfg.smoothing);
      }
      limited := Clamp(out, -cfg.outputLimit, cfg.outputLimit);
      if limited != out {
        outputClips := outputClips + 1;
      }
      output := limited;
      haveState := true;
      lastAt := now;
    }
  }

  // ---- The memoryless part ----

  /** The magnitude that deadband, curve and minimum force make of a magnitude. */
  function Magnitude(pow: Pow, cfg: FFBTuning, a: real): real
    requires InRange(cfg) && 0.0 <= a <= 1.0
  {
    var d := Rescaled(a, cfg.deadband);
    if d == 0.0 then 0.0 else Lifted(pow(d, cfg.responseExponent), cfg.minimumForce)
  }

  lemma LiftedOrder(c: real, c': real, m: real)
    requires 0.0 <= c <= c' <= 1.0 && 0.0 <= m <= 0.2
    ensures m <= Lifted(c, m) <= Lifted(c', m) <= 1.0
    ensures c > 0.0 ==> Lifted(c, m) > 0.0
  {
    var k := 1.0 - m;
    assert 0.0 <= c * k && (c' - c) * k >= 0.0 && (1.0 - c') * k >= 0.0;
    assert c > 0.0 ==> c * k > 0.0;
  }

  /** The three stages act on the magnitude and keep the sign. */
  lemma ForcedIsMagnitude(pow: Pow, cfg: FFBTuning, raw: real)
    requires PowShape(pow) && InRange(cfg) && -1.0 <= raw <= 1.0
    ensures Forced(pow, cfg, raw) == SignedMagnitude(raw, Magnitude(pow, cfg, Abs(raw)))
  {
    var a, d := Abs(raw), Rescaled(Abs(raw), cfg.deadband);
    DeadbandIsRescaled(raw, cfg.deadband);
    RescaledRange(a, cfg.deadband);
    hide Rescaled, AfterDeadband;
    if d > 0.0 {
      PowerRange(pow, d, cfg.responseExponent);
    }
  }

  lemma DeadbandIsRescaled(raw: real, deadband: real)
    requires -1.0 <= raw <= 1.0 && 0.0 <= deadband < 1.0
    ensures AfterDeadband(raw, deadband) == SignedMagnitude(raw, Rescaled(Abs(raw), deadband))
  {
  }

  lemma PowerRange(pow: Pow, d: real, e: real)
    requires PowShape(pow) && e > 0.0 && 0.0 < d <= 1.0
    ensures 0.0 < pow(d, e) <= 1.0
  {
    assert pow(0.0, e) < pow(d, e);
  }

  lemma MagnitudeOrder(pow: Pow, cfg: FFBTuning, a: real, b: real)
    requires PowShape(pow) && InRange(cfg) && 0.0 <= a <= b <= 1.0
    ensures Magnitude(pow, cfg, 0.0) == 0.0 <= Magnitude(pow, cfg, a) <= Magnitude(pow, cfg, b) <= Magnitude(pow, cfg, 1.0) == 1.0
  {
    var e, m := cfg.responseExponent, cfg.minimumForce;
    MagnitudeStep(pow, cfg, 0.0, a);
    MagnitudeStep(pow, cfg, a, b);
    MagnitudeStep(pow, cfg, b, 1.0);
    RescaledRange(1.0, cfg.deadband);
    assert pow(1.0, e) == 1.0 && Lifted(1.0, m) == 1.0;
  }

  lemma MagnitudeStep(pow: Pow, cfg: FFBTuning, a: real, b: real)
    requires PowShape(pow) && InRange(cfg) && 0.0 <= a <= b <= 1.0
    ensures 0.0 <= Magnitude(pow, cfg, a) <= Magnitude(pow, cfg, b) <= 1.0
    ensures Magnitude(pow, cfg, 0.0) == 0.0
  {
    var e, m := cfg.responseExponent, cfg.minimumForce;
    var c, d := Rescaled(a, cfg.deadband), Rescaled(b, cfg.deadband);
    RescaledMonotone(a, b, cfg.deadband);
    RescaledRange(a, cfg.deadband);
    RescaledRange(b, cfg.deadband);
    hide Rescaled, Lifted;
    if d > 0.0 {
      PowerRange(pow, d, e);
      LiftedOrder(0.0, pow(d, e), m);
      if c > 0.0 {
        PowerRange(pow, c, e);
        assert c < d ==> pow(c, e) < pow(d, e);
        LiftedOrder(pow(c, e), pow(d, e), m);
      }
    }
  }

  lemma ForcedOdd(pow: Pow, cfg: FFBTuning, raw: real)
    requires PowShape(pow) && InRange(cfg) && -1.0 <= raw <= 1.0
    ensures Forced(pow, cfg, -raw) == -Forced(pow, cfg, raw)
  {
    ForcedIsMagnitude(pow, cfg, raw);
    ForcedIsMagnitude(pow, cfg, -raw);
    MagnitudeOrder(pow, cfg, 0.0, 0.0);
    hide Forced, Magnitude;
  }

  lemma ForcedMonotone(pow: Pow, cfg: FFBTuning, raw: real, raw': real)
    requires PowShape(pow) && InRange(cfg) && -1.0 <= raw <= raw' <= 1.0
    ensures -1.0 <= Forced(pow, cfg, raw) <= Forced(pow, cfg, raw') <= 1.0
    ensures Forced(pow, cfg, 0.0) == 0.0
  {
    ForcedIsMagnitude(pow, cfg, raw);
    ForcedIsMagnitude(pow, cfg, raw');
    ForcedIsMagnitude(pow, cfg, 0.0);
    var a, a' := Abs(raw), Abs(raw');
    MagnitudeOrder(pow, cfg, a, a);
    MagnitudeOrder(pow, cfg, a', a');
    if a <= a' { MagnitudeOrder(pow, cfg, a, a'); } else { MagnitudeOrder(pow, cfg, a', a); }
    hide Forced, Magnitude;
  }

  // ---- The filters ----

  function OtherSide(m: Filter): Filter {
    m.(lowPass := -m.lowPass, output := -m.output)
  }

  lemma BlendBetween(was: real, sample: real, w: real)
    requires 0.0 < w < 1.0
    ensures if was <= sample then was <= Blend(was, sample, w) <= sample else sample <= Blend(was, sample, w) <= was
    ensures Blend(-was, -sample, w) == -Blend(was, sample, w)
  {
    var d := sample - was;
    assert Blend(was, sample, w) == was + w * d;
    assert d >= 0.0 ==> 0.0 <= w * d <= d;
    assert d <= 0.0 ==> d <= w * d <= 0.0;
    assert w * (-d) == -(w * d);
  }

  lemma BlendMonotone(was: real, sample: real, sample': real, w: real)
    requires 0.0 < w < 1.0 && sample <= sample'
    ensures Blend(was, sample, w) <= Blend(was, sample', w)
  {
    var d := sample' - sample;
    assert w * d >= 0.0;
    assert w * (sample' - was) == w * (sample - was) + w * d;
  }

  /** Smoothing is a blend as well, the new sample weighing 1 - smoothing. */
  lemma SmoothingIsBlend(cfg: FFBTuning, m: Filter, low: real)
    requires cfg.smoothing > 0.0 && m.haveState
    ensures AfterSmoothing(cfg, m, low) == Blend(m.output, low, 1.0 - cfg.smoothing)
  {
    var s, o := cfg.smoothing, m.output;
    assert (1.0 - s) * (low - o) == (low - o) - s * (low - o);
    assert s * (low - o) == s * low - s * o;
    assert low * (1.0 - s) == low - s * low;
  }

  /** No filter overshoots: each result lies between its memory and its new sample. */
  lemma FiltersBetween(cfg: FFBTuning, m: Filter, forced: real, now: int)
    requires InRange(cfg)
    ensures var low := AfterLowPass(cfg, m, forced, now); var out := AfterSmoothing(cfg, m, low);
            && Abs(low) <= Larger(Abs(m.lowPass), Abs(forced))
            && Abs(out) <= Larger(Abs(m.output), Abs(low))
  {
    hide Blend, Alpha;
    if cfg.lowPassHz > 0.0 && m.haveState {
      BlendBetween(m.lowPass, forced, Alpha(cfg.lowPassHz, now - m.lastAt));
    }
    var low := AfterLowPass(cfg, m, forced, now);
    if cfg.smoothing > 0.0 && m.haveState {
      SmoothingIsBlend(cfg, m, low);
      BlendBetween(m.output, low, 1.0 - cfg.smoothing);
    }
    hide AfterLowPass, AfterSmoothing;
  }

  function Larger(a: real, b: real): real {
    if a < b then b else a
  }

  lemma FiltersMonotone(cfg: FFBTuning, m: Filter, forced: real, forced': real, now: int)
    requires InRange(cfg) && forced <= forced'
    ensures AfterLowPass(cfg, m, forced, now) <= AfterLowPass(cfg, m, forced', now)
    ensures AfterSmoothing(cfg, m, AfterLowPass(cfg, m, forced, now)) <= AfterSmoothing(cfg, m, AfterLowPass(cfg, m, forced', now))
  {
    hide Blend, Alpha;
    if cfg.lowPassHz > 0.0 && m.haveState {
      BlendMonotone(m.lowPass, forced, forced', Alpha(cfg.lowPassHz, now - m.lastAt));
    }
    var low, low' := AfterLowPass(cfg, m, forced, now), AfterLowPass(cfg, m, forced', now);
    assert low <= low';
    if cfg.smoothing > 0.0 && m.haveState {
      SmoothingIsBlend(cfg, m, low);
      SmoothingIsBlend(cfg, m, low');
      BlendMonotone(m.output, low, low', 1.0 - cfg.smoothing);
    }
    hide AfterLowPass;
  }

  lemma FiltersOdd(cfg: FFBTuning, m: Filter, forced: real, now: int)
    requires InRange(cfg)
    ensures AfterLowPass(cfg, OtherSide(m), -forced, now) == -AfterLowPass(cfg, m, forced, now)
    ensures var low := AfterLowPass(cfg, m, forced, now);
            AfterSmoothing(cfg, OtherSide(m), -low) == -AfterSmoothing(cfg, m, low)
  {
    hide Blend, Alpha;
    if cfg.lowPassHz > 0.0 && m.haveState {
      BlendBetween(m.lowPass, forced, Alpha(cfg.lowPassHz, now - m.lastAt));
    }
    var low := AfterLowPass(cfg, m, forced, now);
    if cfg.smoothing > 0.0 && m.haveState {
      SmoothingIsBlend(cfg, m, low);
      SmoothingIsBlend(cfg, OtherSide(m), -low);
      BlendBetween(m.output, low, 1.0 - cfg.smoothing);
    }
    hide AfterLowPass;
  }

  // ---- Whole frames ----

  /** The same filters with everything they remember turned to the other side. */
  function Opposite(p: Pipe): Pipe {
    p.(filter := OtherSide(p.filter))
  }

  lemma RawForceOdd(cfg: FFBTuning, f: ForceFrame, gain: real)
    ensures RawForce(cfg, ForceFrame(-f.constant, f.spring, f.damper, -f.transient), gain) == -RawForce(cfg, f, gain)
  {
    var x, y := f.constant * cfg.constantGain, f.transient * cfg.transientGain;
    assert (-f.constant) * cfg.constantGain == -x && (-f.transient) * cfg.transientGain == -y;
    assert (-x - y) * gain == -((x + y) * gain);
  }

  /** The pipeline treats left and right alike: from opposite memories, the opposite force
      gives the opposite answer, the opposite memories and the same counters. */
  lemma ProcessedOdd(pow: Pow, cfg: FFBTuning, p: Pipe, f: ForceFrame, gain: real, now: int)
    requires PowShape(pow) && InRange(cfg)
    ensures var (p', out) := Processed(pow, cfg, p, f, gain, now);
            Processed(pow, cfg, Opposite(p), ForceFrame(-f.constant, f.spring, f.damper, -f.transient), gain, now)
            == (Opposite(p'), -out)
  {
    hide Forced, AfterLowPass, AfterSmoothing, RawForce;
    RawForceOdd(cfg, f, gain);
    var raw := Clamp(RawForce(cfg, f, gain), -1.0, 1.0);
    ForcedOdd(pow, cfg, raw);
    CurvedOdd(pow, cfg, raw);
    FiltersOdd(cfg, p.filter, Forced(pow, cfg, raw), now);
    hide AfterCurve, AfterDeadband;
  }

  lemma CurvedOdd(pow: Pow, cfg: FFBTuning, raw: real)
    requires InRange(cfg)
    ensures AfterCurve(pow, AfterDeadband(-raw, cfg.deadband), cfg.responseExponent)
            == -AfterCurve(pow, AfterDeadband(raw, cfg.deadband), cfg.responseExponent)
  {
    var q := (Abs(raw) - cfg.deadband) / (1.0 - cfg.deadband);
    assert Abs(raw) > cfg.deadband ==> q > 0.0 by {
      if Abs(raw) > cfg.deadband {
        assert q * (1.0 - cfg.deadband) > 0.0;
      }
    }
  }

  /** More force never comes out as less, frame by frame, whatever the filters remember. */
  lemma ProcessedMonotone(pow: Pow, cfg: FFBTuning, p: Pipe, force: real, more: real, gain: real, now: int)
    requires PowShape(pow) && InRange(cfg) && gain >= 0.0 && force <= more
    ensures Processed(pow, cfg, p, ForceFrame(force, 0.0, 0.0, 0.0), gain, now).1
            <= Processed(pow, cfg, p, ForceFrame(more, 0.0, 0.0, 0.0), gain, now).1
  {
    hide Forced, AfterLowPass, AfterSmoothing, RawForce;
    var raw := Clamp(RawForce(cfg, ForceFrame(force, 0.0, 0.0, 0.0), gain), -1.0, 1.0);
    var raw' := Clamp(RawForce(cfg, ForceFrame(more, 0.0, 0.0, 0.0), gain), -1.0, 1.0);
    RawForceMonotone(cfg, force, more, gain);
    ForcedMonotone(pow, cfg, raw, raw');
    FiltersMonotone(cfg, p.filter, Forced(pow, cfg, raw), Forced(pow, cfg, raw'), now);
    hide AfterCurve, AfterDeadband;
  }

  lemma RawForceMonotone(cfg: FFBTuning, force: real, more: real, gain: real)
    requires cfg.constantGain >= 0.0 && gain >= 0.0 && force <= more
    ensures RawForce(cfg, ForceFrame(force, 0.0, 0.0, 0.0), gain) <= RawForce(cfg, ForceFrame(more, 0.0, 0.0, 0.0), gain)
    ensures RawForce(cfg, ForceFrame(0.0, 0.0, 0.0, 0.0), gain) == 0.0
  {
    var x, y := force * cfg.constantGain, more * cfg.constantGain;
    assert (more - force) * cfg.constantGain >= 0.0;
    assert y - x >= 0.0;
    assert (y - x) * gain >= 0.0;
    assert 0.0 * cfg.transientGain == 0.0;
  }

  ghost predicate Bounded(p: Pipe) {
    -1.0 <= p.filter.lowPass <= 1.0 && -1.0 <= p.filter.output <= 1.0
  }

  /** The shaped force never exceeds the output limit, nor anything the filters remember or
      the frame asks for; the memories stay within full scale. */
  lemma ProcessedBounded(pow: Pow, cfg: FFBTuning, p: Pipe, f: ForceFrame, gain: real, now: int)
    requires PowShape(pow) && InRange(cfg)
    ensures var (p', out) := Processed(pow, cfg, p, f, gain, now);
            var forced := Forced(pow, cfg, Clamp(RawForce(cfg, f, gain), -1.0, 1.0));
            && Abs(out) <= cfg.outputLimit <= 1.0
            && (Bounded(p) ==> Bounded(p'))
            && (cfg.enabled ==> Abs(out) <= Larger(Abs(p.filter.output), Larger(Abs(p.filter.lowPass), Abs(forced))))
  {
    hide Forced, AfterLowPass, AfterSmoothing, RawForce;
    var raw := Clamp(RawForce(cfg, f, gain), -1.0, 1.0);
    ForcedMonotone(pow, cfg, raw, raw);
    FiltersBetween(cfg, p.filter, Forced(pow, cfg, raw), now);
    hide AfterCurve, AfterDeadband;
  }

  ghost predicate AtRest(p: Pipe) {
    p.filter.lowPass == 0.0 && p.filter.output == 0.0
  }

  /** In one silent frame the low-pass memory shrinks or is dropped, the answer never exceeds
      the larger of the two memories, and filters at rest answer nothing. The smoothing memory
      itself may grow, towards the low-pass one. */
  lemma SilenceDecays(pow: Pow, cfg: FFBTuning, p: Pipe, gain: real, now: int)
    requires PowShape(pow) && InRange(cfg) && cfg.enabled && gain >= 0.0
    ensures var (p', out) := Processed(pow, cfg, p, ForceFrame(0.0, 0.0, 0.0, 0.0), gain, now);
            && (p.filter.lowPass != 0.0 ==> Abs(p'.filter.lowPass) < Abs(p.filter.lowPass))
            && Abs(out) <= Larger(Abs(p.filter.output), Abs(p.filter.lowPass))
            && (AtRest(p) ==> AtRest(p') && out == 0.0)
  {
    hide Forced, RawForce, AfterSmoothing, Blend, Alpha;
    RawForceMonotone(cfg, 0.0, 0.0, gain);
    ForcedMonotone(pow, cfg, 0.0, 0.0);
    FiltersBetween(cfg, p.filter, 0.0, now);
    if cfg.lowPassHz > 0.0 && p.filter.haveState {
      BlendToZero(p.filter.lowPass, Alpha(cfg.lowPassHz, now - p.filter.lastAt));
    }
    hide AfterCurve, AfterDeadband;
  }

  /** Filters at rest answer silence with silence, enabled or not. */
  lemma SilenceAtRest(pow: Pow, cfg: FFBTuning, p: Pipe, gain: real, now: int)
    requires PowShape(pow) && InRange(cfg) && AtRest(p)
    ensures var (p', out) := Processed(pow, cfg, p, ForceFrame(0.0, 0.0, 0.0, 0.0), gain, now);
            AtRest(p') && out == 0.0
  {
    hide Forced, RawForce, AfterSmoothing, Blend, Alpha;
    SilentRaw(cfg, gain);
    ForcedMonotone(pow, cfg, 0.0, 0.0);
    FiltersBetween(cfg, p.filter, 0.0, now);
    hide AfterCurve, AfterDeadband;
  }

  lemma SilentRaw(cfg: FFBTuning, gain: real)
    ensures RawForce(cfg, ForceFrame(0.0, 0.0, 0.0, 0.0), gain) == 0.0
  {
    assert 0.0 * cfg.constantGain + 0.0 * cfg.transientGain == 0.0;
  }

  lemma BlendToZero(was: real, w: real)
    requires 0.0 < w < 1.0
    ensures was != 0.0 ==> Abs(Blend(was, 0.0, w)) < Abs(was)
  {
    BlendBetween(was, 0.0, w);
    PositiveProduct(w, Abs(was));
    assert Blend(was, 0.0, w) == was + w * (-was);
  }

  lemma PositiveProduct(x: real, y: real)
    ensures x > 0.0 && y > 0.0 ==> x * y > 0.0
  {
  }

  /** With no filter on, a full request comes out as the full output limit, whatever the
      deadband, curve and minimum force, and one inside the deadband as nothing. */
  lemma FullScalePreserved(pow: Pow, cfg: FFBTuning, p: Pipe, f: ForceFrame, gain: real, now: int)
    requires PowShape(pow) && InRange(cfg) && cfg.enabled && (p.filter.haveState ==> cfg.lowPassHz == 0.0 && cfg.smoothing == 0.0)
    ensures RawForce(cfg, f, gain) >= 1.0 ==> Processed(pow, cfg, p, f, gain, now).1 == cfg.outputLimit
    ensures RawForce(cfg, f, gain) <= -1.0 ==> Processed(pow, cfg, p, f, gain, now).1 == -cfg.outputLimit
    ensures Abs(RawForce(cfg, f, gain)) <= cfg.deadband ==> Processed(pow, cfg, p, f, gain, now).1 == 0.0
  {
    hide RawForce, Blend, Alpha, Magnitude;
    var raw := Clamp(RawForce(cfg, f, gain), -1.0, 1.0);
    ForcedIsMagnitude(pow, cfg, raw);
    MagnitudeOrder(pow, cfg, 1.0, 1.0);
    if Abs(raw) <= cfg.deadband { InDeadband(pow, cfg, raw); }
    hide Forced, AfterCurve, AfterDeadband;
  }

  lemma InDeadband(pow: Pow, cfg: FFBTuning, raw: real)
    requires InRange(cfg) && Abs(raw) <= cfg.deadband
    ensures Forced(pow, cfg, raw) == 0.0
  {
  }

  // ---- What each setting is for ----

  function Sum(f: ForceFrame, h: ForceFrame): ForceFrame {
    ForceFrame(f.constant + h.constant, f.spring + h.spring, f.damper + h.damper, f.transient + h.transient)
  }

  /** The raw force is linear in the frame and in the gain; a unit of constant force weighs the
      constant gain, a unit of transient force the transient gain, spring and damper nothing. */
  lemma RawForceIsLinear(cfg: FFBTuning, f: ForceFrame, h: ForceFrame, k: real, gain: real)
    ensures RawForce(cfg, Sum(f, h), gain) == RawForce(cfg, f, gain) + RawForce(cfg, h, gain)
    ensures RawForce(cfg, f, k * gain) == k * RawForce(cfg, f, gain)
    ensures RawForce(cfg, ForceFrame(k, 0.0, 0.0, 0.0), 1.0) == k * cfg.constantGain
    ensures RawForce(cfg, ForceFrame(0.0, 0.0, 0.0, k), 1.0) == k * cfg.transientGain
    ensures RawForce(cfg, ForceFrame(0.0, k, k, 0.0), gain) == 0.0
  {
    var c, t := cfg.constantGain, cfg.transientGain;
    var x, y := f.constant * c + f.transient * t, h.constant * c + h.transient * t;
    assert (f.constant + h.constant) * c == f.constant * c + h.constant * c;
    assert (f.transient + h.transient) * t == f.transient * t + h.transient * t;
    assert (x + y) * gain == x * gain + y * gain;
    assert x * (k * gain) == k * (x * gain);
    assert 0.0 * c == 0.0 && 0.0 * t == 0.0 && 0.0 * gain == 0.0;
  }

  /** The neutral settings of a wheel are the neutral tuning, and that, like a disabled one,
      passes every force on as it is, only clamped to full scale. */
  lemma NeutralPassesThrough(pow: Pow, name: GoText.Text, enabled: bool, p: Pipe, force: real, gain: real, now: int)
    requires PowShape(pow)
    ensures TuningOf(AdvancedTuning.Default(name), name) == DEFAULT_TUNING
    ensures Processed(pow, NormalizeTuning(DEFAULT_TUNING.(enabled := enabled)), p, ForceFrame(force, 0.0, 0.0, 0.0), gain, now).1
            == Clamp(force * gain, -1.0, 1.0)
  {
    var cfg := NormalizeTuning(DEFAULT_TUNING.(enabled := enabled));
    DefaultIsNeutral(name);
    NeutralRaw(force, gain, enabled);
    var raw := Clamp(force * gain, -1.0, 1.0);
    NeutralForced(pow, raw);
    hide Forced, RawForce, Blend, Alpha, Smoothed, AfterCurve, AfterDeadband, PowShape, TuningOf;
  }

  lemma DefaultIsNeutral(name: GoText.Text)
    ensures TuningOf(AdvancedTuning.Default(name), name) == DEFAULT_TUNING
  {
    hide GoText.Cut, GoText.Blank;
  }

  lemma NeutralRaw(force: real, gain: real, enabled: bool)
    ensures RawForce(NormalizeTuning(DEFAULT_TUNING.(enabled := enabled)), ForceFrame(force, 0.0, 0.0, 0.0), gain) == force * gain
  {
  }

  lemma NeutralForced(pow: Pow, raw: real)
    requires PowShape(pow) && -1.0 <= raw <= 1.0
    ensures Forced(pow, DEFAULT_TUNING, raw) == raw
  {
    ForcedIsMagnitude(pow, DEFAULT_TUNING, raw);
    assert Abs(raw) > 0.0 ==> pow(Abs(raw), 1.0) == Abs(raw);
    hide Forced;
  }

  /** What the stored percentages do to the first frame of a session: no answer within the
      deadband, at least the minimum force beyond it (as far as the output limit lets it), and
      never more than the output limit. A curve above 1 gives less than a linear one. */
  lemma StoredSettingsAct(pow: Pow, stored: AdvancedTuning.Tuning, name: GoText.Text, f: ForceFrame, gain: real, now: int)
    requires PowShape(pow) && stored.enabled
    ensures var cfg, c := TuningOf(stored, name), AdvancedTuning.Normalize(stored, name);
            var raw := Clamp(RawForce(cfg, f, gain), -1.0, 1.0);
            var out := Processed(pow, cfg, FRESH, f, gain, now).1;
            && cfg.constantGain == c.constantGain as real / 100.0 && cfg.transientGain == c.transientGain as real / 100.0
            && cfg.smoothing == c.smoothing as real / 100.0 && cfg.lowPassHz == c.lowPassHz as real
            && (Abs(raw) <= c.deadband as real / 100.0 ==> out == 0.0)
            && (Abs(raw) > c.deadband as real / 100.0 ==>
                  && Abs(out) >= Smaller(c.minimumForce as real / 100.0, c.outputLimit as real / 100.0)
                  && (out > 0.0 <==> raw > 0.0) && (out < 0.0 <==> raw < 0.0))
            && Abs(out) <= c.outputLimit as real / 100.0
  {
    var cfg, c := TuningOf(stored, name), AdvancedTuning.Normalize(stored, name);
    var raw := Clamp(RawForce(cfg, f, gain), -1.0, 1.0);
    StoredTuningUnaltered(stored, name);
    FieldsStored(stored, name);
    ForcedIsMagnitude(pow, cfg, raw);
    MagnitudeAtLeast(pow, cfg, Abs(raw));
    FreshFilters(cfg, Forced(pow, cfg, raw), now);
    hide Forced, RawForce, AfterLowPass, AfterSmoothing, AfterCurve, AfterDeadband, PowShape, TuningOf, Magnitude, InRange;
    hide AdvancedTuning.Normalize;
  }

  function Smaller(a: real, b: real): real {
    if a < b then a else b
  }

  lemma FieldsStored(stored: AdvancedTuning.Tuning, name: GoText.Text)
    ensures var cfg, c := TuningOf(stored, name), AdvancedTuning.Normalize(stored, name);
            && cfg.enabled == stored.enabled
            && cfg.constantGain == c.constantGain as real / 100.0 && cfg.transientGain == c.transientGain as real / 100.0
            && cfg.deadband == c.deadband as real / 100.0 && cfg.minimumForce == c.minimumForce as real / 100.0
            && cfg.smoothing == c.smoothing as real / 100.0 && cfg.lowPassHz == c.lowPassHz as real
            && 0.1 <= cfg.outputLimit == c.outputLimit as real / 100.0
  {
    hide GoText.Cut, GoText.Blank;
  }

  lemma MagnitudeAtLeast(pow: Pow, cfg: FFBTuning, a: real)
    requires PowShape(pow) && InRange(cfg) && 0.0 <= a <= 1.0
    ensures if a <= cfg.deadband then Magnitude(pow, cfg, a) == 0.0
            else Magnitude(pow, cfg, a) >= cfg.minimumForce && Magnitude(pow, cfg, a) > 0.0
  {
    if a > cfg.deadband {
      RescaledProportion(a, cfg.deadband);
      hide Rescaled, Lifted;
      var d := Rescaled(a, cfg.deadband);
      PowerRange(pow, d, cfg.responseExponent);
      LiftedOrder(0.0, pow(d, cfg.responseExponent), cfg.minimumForce);
      LiftedOrder(pow(d, cfg.responseExponent), pow(d, cfg.responseExponent), cfg.minimumForce);
    }
  }

  lemma FreshFilters(cfg: FFBTuning, forced: real, now: int)
    ensures AfterLowPass(cfg, FRESH.filter, forced, now) == forced && AfterSmoothing(cfg, FRESH.filter, forced) == forced
  {
  }

  /** A response exponent above 1 softens what lies between the deadband and full scale, one
      below 1 boosts it. */
  lemma ExponentShapes(pow: Pow, cfg: FFBTuning, raw: real)
    requires PowShape(pow) && InRange(cfg) && cfg.deadband < raw < 1.0
    ensures var linear := Forced(pow, cfg.(responseExponent := 1.0), raw);
            && (cfg.responseExponent > 1.0 ==> Forced(pow, cfg, raw) < linear)
            && (cfg.responseExponent < 1.0 ==> linear < Forced(pow, cfg, raw))
  {
    var cfg1 := cfg.(responseExponent := 1.0);
    ForcedIsMagnitude(pow, cfg, raw);
    ForcedIsMagnitude(pow, cfg1, raw);
    RescaledProportion(raw, cfg.deadband);
    var d := Rescaled(raw, cfg.deadband);
    ExponentActs(pow, d, cfg.responseExponent);
    LiftedStrict(pow(d, cfg.responseExponent), d, cfg.minimumForce);
    LiftedStrict(d, pow(d, cfg.responseExponent), cfg.minimumForce);
    hide Forced, Rescaled, Lifted, PowShape;
  }

  lemma LiftedStrict(c: real, c': real, m: real)
    requires 0.0 <= m <= 0.2
    ensures c < c' ==> Lifted(c, m) < Lifted(c', m)
  {
    LargerProduct(c', c, 1.0 - m);
  }

  /** A wheel without stored settings is shaped neutrally, under its neutral preset. */
  lemma MissingEntryIsNeutral(file: Option<AdvancedTuning.TuningFile>, key: AdvancedTuning.Key, name: GoText.Text)
    requires file.None? || file.value.wheels.None? || key !in file.value.wheels.value
    ensures var t := AdvancedTuning.Effective(file, key, name);
            t.preset == name && TuningOf(t, name) == DEFAULT_TUNING
  {
    DefaultIsNeutral(name);
    hide TuningOf;
  }
}
