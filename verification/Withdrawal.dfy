/** What a live session does once its game withdraws the authorisation to apply force (a
    pause, a replay, physics or the game's own force feedback off) while its snapshots keep
    coming. The shaping filters still hold force, so the motor is not silent at once. The laws
    here say exactly what the next frame sends, how fast the filters drain, and when the
    motor is at neutral for good. */
module Withdrawal {
  import opened Optional
  import opened GoMath
  import opened ForceCore
  import opened SafetyMixer
  import opened WheelOutputLayer
  import opened ForceEngine
  import opened InputNormalizers
  import opened ShapingPipeline
  import opened GameOutput
  import opened LiveSession

  /** Nothing in these events authorises a force. */
  ghost predicate Unauthorised(g: Game, events: seq<LiveEvent>) {
    forall e <- events :: e.Frame? ==> Powerless(e.telemetry, g.needs)
  }

  /** The event is a frame of a snapshot the session accepts. */
  predicate Answered(g: Game, e: LiveEvent) {
    e.Frame? && Accepts(e.active, g.profile, e.telemetry)
  }

  function AnsweredCount(g: Game, events: seq<LiveEvent>): (n: nat)
    ensures n <= |events|
  {
    if events == [] then 0
    else AnsweredCount(g, events[..|events| - 1]) + if Answered(g, events[|events| - 1]) then 1 else 0
  }

  // ---- What the filters of a session can hold ----

  /** Filters of a session: nothing before their first frame or while disabled, and nothing
      beyond full scale and the output limit. */
  ghost predicate LiveInv(l: Live) {
    var m := l.pipe.filter;
    && (!m.haveState || !l.tuning.enabled ==> AtRest(l.pipe))
    && Abs(m.lowPass) <= 1.0 && Abs(m.output) <= l.tuning.outputLimit
  }

  lemma FreshIsInv(engine: Profile, tuning: FFBTuning)
    ensures LiveInv(Live(engine, NormalizeTuning(tuning), FRESH))
  {
  }

  lemma FrameKeepsInv(g: Game, l: Live, t: Telemetry, now: int)
    requires PowShape(g.pow) && LiveInv(l)
    ensures LiveInv(l.(pipe := Shaping(g, l, t, now).0))
  {
    hide Forced, AfterLowPass, AfterSmoothing, RawForce, AfterCurve, AfterDeadband, GameGain, SourceForce;
    var cfg, f := l.tuning, SourceFrame(g.profile, g.needs, t);
    var raw := Clamp(RawForce(cfg, f, GameGain(g.profile)), -1.0, 1.0);
    ForcedMonotone(g.pow, cfg, raw, raw);
    FiltersBetween(cfg, l.pipe.filter, Forced(g.pow, cfg, raw), now);
  }

  lemma StepKeepsInv(g: Game, l: Live, e: LiveEvent)
    requires PowShape(g.pow) && LiveInv(l)
    ensures LiveInv(LiveStep(g, l, e))
  {
    hide Shaping, LiveInv, PowShape;
    match e
    case Frame(_, t, _, now, _, _) => FrameKeepsInv(g, l, t, now);
    case Retune(tuning) => FreshIsInv(l.engine, tuning);
    case Reprofile(engine) => assert LiveInv(l.(engine := engine)) by { ProfileIrrelevant(l, engine); }
    case Panic =>
  }

  lemma ProfileIrrelevant(l: Live, engine: Profile)
    requires LiveInv(l)
    ensures LiveInv(l.(engine := engine))
  {
  }

  lemma {:induction false} LiveInvHolds(g: Game, l: Live, events: seq<LiveEvent>)
    requires PowShape(g.pow) && LiveInv(l)
    ensures LiveInv(LiveAfter(g, l, events))
  {
    hide LiveInv, LiveStep, PowShape;
    if events != [] {
      LiveInvHolds(g, l, events[..|events| - 1]);
      StepKeepsInv(g, LiveAfter(g, l, events[..|events| - 1]), events[|events| - 1]);
    }
  }

  // ---- The next frame ----

  /** What the low-pass filter is left with after a silent frame, and what is answered. */
  function LowLeft(cfg: FFBTuning, m: Filter, now: int): real {
    if cfg.lowPassHz > 0.0 && m.haveState then Blend(m.lowPass, 0.0, Alpha(cfg.lowPassHz, now - m.lastAt)) else 0.0
  }

  function Residual(cfg: FFBTuning, m: Filter, now: int): real {
    if !cfg.enabled then 0.0
    else Clamp(AfterSmoothing(cfg, m, LowLeft(cfg, m, now)), -cfg.outputLimit, cfg.outputLimit)
  }

  lemma SilentFrame(g: Game, l: Live, t: Telemetry, now: int)
    requires PowShape(g.pow) && Powerless(t, g.needs)
    ensures var m, (p', out) := l.pipe.filter, Shaping(g, l, t, now);
            && out == Residual(l.tuning, m, now)
            && p'.filter == if l.tuning.enabled then Filter(true, now, LowLeft(l.tuning, m, now), out) else m
  {
    hide Forced, RawForce, AfterSmoothing, Blend, Alpha, AfterCurve, AfterDeadband, GameGain, Powerless;
    SilentRaw(l.tuning, GameGain(g.profile));
    ForcedMonotone(g.pow, l.tuning, 0.0, 0.0);
    assert SourceFrame(g.profile, g.needs, t) == ForceFrame(0.0, 0.0, 0.0, 0.0) by { BitsDecideForce(g.profile, g.needs, t); }
  }

  /** The mixer makes nothing of a nominal request: its magnitude does not survive the two
      truncating divisions. */
  predicate MixedToNothing(nominal: int, engine: Profile, cfg: Config) {
    var p, c := NormalizeProfile(engine), NormalizeConfig(cfg);
    TruncDiv(AbsInt(ClampInt(nominal, -100, 100)) * p.constantGain * p.master, 10000) * c.master < 100
  }

  lemma MixedToNothingIff(nominal: int, engine: Profile, cfg: Config)
    ensures MixNativeEffects(Request(nominal, 0, 0, 0), engine, cfg).constant == 0 <==> MixedToNothing(nominal, engine, cfg)
  {
    var p, c := NormalizeProfile(engine), NormalizeConfig(cfg);
    var size := if nominal < 0 then -nominal else nominal;
    DeliveredOdd(size, p.constantGain, p.master, c.master);
    DeliveredUnfolded(size, p.constantGain, p.master, c.master);
    assert ClampInt(p.constantGain, 0, 100) == p.constantGain && ClampInt(p.master, 0, 100) == p.master;
    assert ClampInt(size, -100, 100) == AbsInt(ClampInt(nominal, -100, 100));
    var q := TruncDiv(ClampInt(size, -100, 100) * p.constantGain * p.master, 10000);
    NonNegativeQuotient(ClampInt(size, -100, 100), p.constantGain, p.master, c.master);
    hide Delivered, NormalizeProfile, NormalizeConfig, TruncDiv;
    assert TruncDiv(q * c.master, 100) == 0 <==> q * c.master < 100;
  }

  lemma NonNegativeQuotient(w: nat, gain: nat, master: nat, safety: nat)
    ensures var q := TruncDiv(w * gain * master, 10000);
            q >= 0 && q * safety >= 0 && (TruncDiv(q * safety, 100) == 0 <==> q * safety < 100)
  {
    ProductOfNats(w, gain);
    ProductOfNats(w * gain, master);
    var q := TruncDiv(w * gain * master, 10000);
    ProductOfNats(q, safety);
    if q * safety < 100 {
      TruncDivUnique(q * safety, 100, 0);
    }
  }

  lemma ProductOfNats(a: nat, b: nat)
    ensures a * b >= 0
  {
  }

  /** The frame after withdrawal: an accepted snapshot sends no force exactly when the
      residual its filters are left with is mixed to nothing. */
  lemma UnauthorisedSendsNothingIff(g: Game, l: Live, active: bool, t: Telemetry, now: int)
    requires PowShape(g.pow) && Powerless(t, g.needs) && Accepts(active, g.profile, t)
    ensures LiveFrame(g, l, active, t, now) == Some(ForceFrame(0.0, 0.0, 0.0, 0.0))
            <==> MixedToNothing(Round(Residual(l.tuning, l.pipe.filter, now) * 100.0), l.engine, g.cfg)
  {
    var nominal := Round(Residual(l.tuning, l.pipe.filter, now) * 100.0);
    MixedToNothingIff(nominal, l.engine, g.cfg);
    hide Residual, Round, MixNativeEffects, MixedToNothing, PowShape, Powerless, Accepts, LiveFrame;
    UnauthorisedFrame(g, l, active, t, now);
    QuotientInOrder(MixNativeEffects(Request(nominal, 0, 0, 0), l.engine, g.cfg).constant, 0);
    QuotientInOrder(0, MixNativeEffects(Request(nominal, 0, 0, 0), l.engine, g.cfg).constant);
  }

  lemma UnauthorisedFrame(g: Game, l: Live, active: bool, t: Telemetry, now: int)
    requires PowShape(g.pow) && Powerless(t, g.needs) && Accepts(active, g.profile, t)
    ensures var nominal := Round(Residual(l.tuning, l.pipe.filter, now) * 100.0);
            LiveFrame(g, l, active, t, now)
            == Some(ForceFrame(MixNativeEffects(Request(nominal, 0, 0, 0), l.engine, g.cfg).constant as real / 100.0, 0.0, 0.0, 0.0))
  {
    hide Shaping, Residual, Round, MixNativeEffects, PowShape, Powerless, SourceForce, Accepts, InRange;
    SilentFrame(g, l, t, now);
  }

  /** Half a percent is what the nominal request is rounded at, and nothing is mixed to nothing. */
  lemma SmallIsNothing(x: real, engine: Profile, cfg: Config)
    ensures Round(x * 100.0) == 0 <==> -0.005 < x < 0.005
    ensures MixedToNothing(0, engine, cfg)
  {
    MixedToNothingIff(0, engine, cfg);
    SilenceIsZero(engine, cfg);
    hide MixedToNothing;
  }

  lemma SmallFrameIsZero(g: Game, l: Live, active: bool, t: Telemetry, now: int)
    requires PowShape(g.pow) && Powerless(t, g.needs)
    requires Abs(Residual(l.tuning, l.pipe.filter, now)) < 0.005
    ensures var f := LiveFrame(g, l, active, t, now); f.Some? ==> f.value == ForceFrame(0.0, 0.0, 0.0, 0.0)
  {
    hide Residual, MixedToNothing, PowShape, Powerless, LiveFrame, Accepts;
    SmallIsNothing(Residual(l.tuning, l.pipe.filter, now), l.engine, g.cfg);
    if Accepts(active, g.profile, t) {
      UnauthorisedSendsNothingIff(g, l, active, t, now);
    } else {
      RefusedSendsNothing(g, l, active, t, now);
    }
  }

  lemma RefusedSendsNothing(g: Game, l: Live, active: bool, t: Telemetry, now: int)
    requires !Accepts(active, g.profile, t)
    ensures LiveFrame(g, l, active, t, now) == None
  {
  }

  // ---- Powers ----

  function Power(b: real, k: nat): real {
    if k == 0 then 1.0 else Power(b, k - 1) * b
  }

  lemma ProductInOrder(a: real, b: real, c: real, d: real)
    requires 0.0 <= a <= b && 0.0 <= c <= d
    ensures 0.0 <= a * c <= b * d
  {
    assert a * c <= b * c <= b * d;
  }

  lemma {:induction false} PowerOrder(b: real, c: real, k: nat)
    requires 0.0 <= b <= c <= 1.0
    ensures 0.0 <= Power(b, k) <= Power(c, k) <= 1.0
  {
    if k > 0 {
      PowerOrder(b, c, k - 1);
      ProductInOrder(Power(b, k - 1), Power(c, k - 1), b, c);
      ProductInOrder(Power(c, k - 1), 1.0, c, 1.0);
    }
  }

  lemma {:induction false} PowerSum(b: real, j: nat, k: nat)
    ensures Power(b, j + k) == Power(b, j) * Power(b, k)
  {
    if k > 0 {
      PowerSum(b, j, k - 1);
      assert j + k - 1 == j + (k - 1);
      Associate(Power(b, j), Power(b, k - 1), b);
    }
  }

  lemma Associate(x: real, y: real, z: real)
    ensures (x * y) * z == x * (y * z)
  {
  }

  lemma {:induction false} PowerFalls(b: real, j: nat, k: nat)
    requires 0.0 <= b <= 1.0 && j <= k
    ensures 0.0 <= Power(b, k) <= Power(b, j)
    decreases k - j
  {
    PowerOrder(b, b, j);
    if j < k {
      PowerOrder(b, b, k - 1);
      PowerFalls(b, j, k - 1);
      ProductInOrder(Power(b, k - 1), Power(b, j), b, 1.0);
    }
  }

  /** Bounds on a product of two numbers known to six digits or so. */
  lemma ProductBounds(x: real, xLo: real, xHi: real, y: real, yLo: real, yHi: real)
    requires 0.0 <= xLo <= x <= xHi && 0.0 <= yLo <= y <= yHi
    ensures xLo * yLo <= x * y <= xHi * yHi
  {
    ProductInOrder(xLo, x, yLo, y);
    ProductInOrder(x, xHi, y, yHi);
  }

  lemma PowerNext(b: real, k: nat)
    ensures Power(b, k + 1) == Power(b, k) * b == Scaled(Power(b, k), b)
  {
  }

  /** How often a factor of 0.9 must be applied to fall below half a percent. */
  lemma NineTenths()
    ensures 0.005 < Power(0.9, 50) && Power(0.9, 51) < 0.005
    ensures 96.0 * Power(0.9, 95) < 0.005
  {
    hide Power;
    FirstPowers();
    Squares();
    PowerSum(0.9, 40, 10);
    ProductBounds(Power(0.9, 40), 0.014779, 0.014782, Power(0.9, 10), 0.34867, 0.34868);
    PowerNext(0.9, 50);
    PowerSum(0.9, 10, 5);
    ProductBounds(Power(0.9, 10), 0.34867, 0.34868, Power(0.9, 5), 0.59049, 0.59049);
    PowerSum(0.9, 80, 15);
    ProductBounds(Power(0.9, 80), 0.0, 0.00021851, Power(0.9, 15), 0.0, 0.20589206);
  }

  lemma Squares()
    ensures 0.014779 <= Power(0.9, 40) <= 0.014782 && 0.0 <= Power(0.9, 80) <= 0.00021851
  {
    hide Power;
    FirstPowers();
    PowerSum(0.9, 10, 10);
    ProductBounds(Power(0.9, 10), 0.34867, 0.34868, Power(0.9, 10), 0.34867, 0.34868);
    PowerSum(0.9, 20, 20);
    ProductBounds(Power(0.9, 20), 0.12157, 0.12158, Power(0.9, 20), 0.12157, 0.12158);
    PowerSum(0.9, 40, 40);
    ProductBounds(Power(0.9, 40), 0.014779, 0.014782, Power(0.9, 40), 0.014779, 0.014782);
  }

  lemma FirstPowers()
    ensures Power(0.9, 5) == 0.59049 && Power(0.9, 10) == 0.3486784401
  {
    assert Power(0.9, 1) == 0.9;
    assert Power(0.9, 2) == 0.81;
    assert Power(0.9, 3) == 0.729;
    assert Power(0.9, 4) == 0.6561;
    assert Power(0.9, 5) == 0.59049;
    PowerSum(0.9, 5, 5);
  }

  // ---- Draining through the smoothing alone ----

  /** Every event is a frame of an accepted, unauthorised snapshot. */
  ghost predicate SilentFrames(g: Game, events: seq<LiveEvent>) {
    forall e <- events :: Answered(g, e) && Powerless(e.telemetry, g.needs)
  }

  /** With the low-pass off, k silent frames multiply what the filters answer by exactly the
      k-th power of the smoothing. */
  lemma {:induction false} SmoothingDrainsExactly(g: Game, l: Live, events: seq<LiveEvent>)
    requires PowShape(g.pow) && LiveInv(l) && SilentFrames(g, events) && l.tuning.lowPassHz == 0.0
    ensures var l' := LiveAfter(g, l, events);
            && l'.tuning == l.tuning && l'.engine == l.engine && LiveInv(l')
            && l'.pipe.filter.output == Scaled(l.pipe.filter.output, Power(l.tuning.smoothing, |events|))
  {
    hide PowShape, LiveStep, LiveInv, Answered, Powerless, InRange, Power, Scaled;
    PowerZero(l.tuning.smoothing);
    if events == [] {
      ScaledOnce(l.pipe.filter.output);
    } else {
      var n := |events| - 1;
      SilentPrefix(g, events);
      SmoothingDrainsExactly(g, l, events[..n]);
      StepKeepsInv(g, LiveAfter(g, l, events[..n]), events[n]);
      OneSmoothing(g, LiveAfter(g, l, events[..n]), events[n]);
      PowerNext(l.tuning.smoothing, n);
      ScaledTwice(l.pipe.filter.output, Power(l.tuning.smoothing, n), l.tuning.smoothing);
    }
  }

  lemma ScaledOnce(x: real)
    ensures Scaled(x, 1.0) == x
  {
  }

  lemma ScaledTwice(x: real, y: real, z: real)
    ensures Scaled(Scaled(x, y), z) == Scaled(x, Scaled(y, z))
  {
    Associate(x, y, z);
  }

  lemma PowerZero(b: real)
    ensures Power(b, 0) == 1.0
  {
  }

  lemma SilentPrefix(g: Game, events: seq<LiveEvent>)
    requires SilentFrames(g, events) && events != []
    ensures SilentFrames(g, events[..|events| - 1])
    ensures Answered(g, events[|events| - 1]) && Powerless(events[|events| - 1].telemetry, g.needs)
  {
    assert events[|events| - 1] in events && forall x <- events[..|events| - 1] :: x in events;
  }

  lemma OneSmoothing(g: Game, l: Live, e: LiveEvent)
    requires PowShape(g.pow) && LiveInv(l) && l.tuning.lowPassHz == 0.0
    requires Answered(g, e) && Powerless(e.telemetry, g.needs)
    ensures var l' := LiveStep(g, l, e);
            && l'.tuning == l.tuning && l'.engine == l.engine
            && l'.pipe.filter.output == Scaled(l.pipe.filter.output, l.tuning.smoothing)
            && (l.tuning.enabled ==> l'.pipe.filter.output == Residual(l.tuning, l.pipe.filter, e.shapeNow))
  {
    SilentFrame(g, l, e.telemetry, e.shapeNow);
    SmoothedToZero(l.pipe.filter.output, l.tuning.smoothing, l.tuning.outputLimit);
    hide Scaled, Shaping, Blend, Alpha, Smoothed, Powerless, Accepts, PowShape;
  }

  lemma SmoothedToZero(out: real, s: real, limit: real)
    requires 0.0 <= s <= 0.9 && Abs(out) <= limit
    ensures Smoothed(out, 0.0, s) == Scaled(out, s)
    ensures Scaled(0.0, s) == 0.0 == Scaled(out, 0.0)
    ensures Clamp(Scaled(out, s), -limit, limit) == Scaled(out, s)
  {
    ProductBounded(out, s, limit, 1.0);
    assert 0.0 * (1.0 - s) == 0.0;
  }

  /** The frame the last of these events sends, if it is a frame event. */
  function LastFrame(g: Game, l: Live, events: seq<LiveEvent>): Option<ForceFrame> {
    if events == [] || !events[|events| - 1].Frame? then None
    else
      var e := events[|events| - 1];
      LiveFrame(g, LiveAfter(g, l, events[..|events| - 1]), e.active, e.telemetry, e.shapeNow)
  }

  /** What the last of k silent frames is made of. */
  lemma LastResidual(g: Game, l: Live, events: seq<LiveEvent>)
    requires PowShape(g.pow) && LiveInv(l) && SilentFrames(g, events) && events != []
    requires l.tuning.lowPassHz == 0.0 && l.tuning.enabled
    ensures var e, before := events[|events| - 1], LiveAfter(g, l, events[..|events| - 1]);
            && before.engine == l.engine
            && e.Frame? && Residual(before.tuning, before.pipe.filter, e.shapeNow)
                           == Scaled(l.pipe.filter.output, Power(l.tuning.smoothing, |events|))
  {
    hide PowShape, LiveStep, LiveInv, Powerless, InRange, Power, Scaled, Residual;
    var n := |events| - 1;
    SilentPrefix(g, events);
    SmoothingDrainsExactly(g, l, events[..n]);
    SmoothingDrainsExactly(g, l, events);
    OneSmoothing(g, LiveAfter(g, l, events[..n]), events[n]);
  }

  /** For every tuning without low-pass, the 51st silent frame sends nothing, and so does every
      later one, whatever the filters held and whatever the gains are. */
  lemma FiftyOneFramesSilence(g: Game, l: Live, events: seq<LiveEvent>)
    requires PowShape(g.pow) && LiveInv(l) && SilentFrames(g, events) && l.tuning.lowPassHz == 0.0
    requires |events| >= 51
    ensures LastFrame(g, l, events) == Some(ForceFrame(0.0, 0.0, 0.0, 0.0))
  {
    hide PowShape, LiveStep, LiveFrame, Powerless, Power, Scaled, Residual, SilentFrames;
    var n := |events| - 1;
    var e, before := events[n], LiveAfter(g, l, events[..n]);
    SilentPrefix(g, events);
    SmallPower(l.pipe.filter.output, l.tuning.smoothing, |events|);
    hide LiveInv, InRange;
    SmoothingDrainsExactly(g, l, events[..n]);
    if l.tuning.enabled {
      LastResidual(g, l, events);
    } else {
      DisabledIsSilent(before.tuning, before.pipe.filter, e.shapeNow);
    }
    SmallAnswer(g, before, e);
  }

  lemma SmallPower(out: real, s: real, k: nat)
    requires -1.0 <= out <= 1.0 && 0.0 <= s <= 0.9 && k >= 51
    ensures Abs(Scaled(out, Power(s, k))) < 0.005
  {
    hide Power, Scaled;
    NineTenthsAt(0.9, 51);
    PowerOrder(s, 0.9, k);
    PowerFalls(0.9, 51, k);
    ShrunkBelow(out, Power(s, k), Power(0.9, 51));
  }

  lemma ShrunkBelow(x: real, p: real, q: real)
    requires -1.0 <= x <= 1.0 && 0.0 <= p <= q
    ensures Abs(Scaled(x, p)) <= q
  {
    ProductBounded(x, p, 1.0, q);
    assert 1.0 * q == q;
  }

  lemma NineTenthsAt(b: real, k: nat)
    requires b == 0.9
    ensures k == 50 ==> 0.005 < Power(b, k) < 0.006
    ensures k == 51 ==> 0.0 <= Power(b, k) < 0.005
    ensures k == 95 ==> 0.0 <= 96.0 * Power(b, k) < 0.005
  {
    hide Power;
    NineTenths();
    PowerNext(0.9, 50);
    PowerOrder(b, b, k);
  }

  lemma DisabledIsSilent(cfg: FFBTuning, m: Filter, now: int)
    requires !cfg.enabled
    ensures Residual(cfg, m, now) == 0.0
  {
  }

  lemma SmallAnswer(g: Game, l: Live, e: LiveEvent)
    requires PowShape(g.pow) && Answered(g, e) && Powerless(e.telemetry, g.needs)
    requires Abs(Residual(l.tuning, l.pipe.filter, e.shapeNow)) < 0.005
    ensures LiveFrame(g, l, e.active, e.telemetry, e.shapeNow) == Some(ForceFrame(0.0, 0.0, 0.0, 0.0))
  {
    hide PowShape, Powerless, Residual, MixedToNothing;
    SmallIsNothing(Residual(l.tuning, l.pipe.filter, e.shapeNow), l.engine, g.cfg);
    UnauthorisedSendsNothingIff(g, l, e.active, e.telemetry, e.shapeNow);
  }

  // ---- A withdrawal that is not silent ----

  const HEAVY := FFBTuning(true, 1.0, 1.0, 0.0, 0.0, 1.0, 0.0, 0.9, 1.0)
  const FULL_GAME := GameProfile(true, false, 100, 100, 100)
  const DRIVING := Telemetry(true, true, false, true, 1.0, true, true, true)

  /** The same telemetry with the physics stopped. */
  const PAUSED := DRIVING.(physics := false)

  /** Filters as heavy as the settings allow, after one frame of full force. */
  const LOADED := Live(PROBE_PROFILE, HEAVY, FRESH.(filter := Filter(true, 0, 1.0, 1.0), frames := 1))

  /** One frame of full force loads them. */
  lemma FullForceLoads(g: Game)
    requires PowShape(g.pow) && g.profile == FULL_GAME
    ensures LiveStep(g, Live(PROBE_PROFILE, HEAVY, FRESH), Frame(true, DRIVING, 1.0, 0, 0, 0)) == LOADED
  {
    hide RawForce, Forced, GameGain, AfterLowPass, AfterSmoothing, AfterCurve, AfterDeadband, PowShape, SourceForce, InRange;
    FullForceRaw(g);
    FullForceForced(g.pow);
    FullForceFilters();
  }

  lemma FullForceRaw(g: Game)
    ensures GameGain(FULL_GAME) == 1.0 && RawForce(HEAVY, ForceFrame(1.0, 0.0, 0.0, 0.0), 1.0) == 1.0
    ensures SourceFrame(FULL_GAME, g.needs, DRIVING) == ForceFrame(1.0, 0.0, 0.0, 0.0)
  {
    FullGain();
    FullRaw();
    FullSource(g.needs);
  }

  lemma FullGain()
    ensures GameGain(FULL_GAME) == 1.0
  {
  }

  lemma FullRaw()
    ensures RawForce(HEAVY, ForceFrame(1.0, 0.0, 0.0, 0.0), 1.0) == 1.0
  {
  }

  lemma FullSource(needs: bool)
    ensures SourceFrame(FULL_GAME, needs, DRIVING) == ForceFrame(1.0, 0.0, 0.0, 0.0)
  {
  }

  lemma FullForceForced(pow: Pow)
    requires PowShape(pow)
    ensures Forced(pow, HEAVY, 1.0) == 1.0
    ensures AfterCurve(pow, AfterDeadband(1.0, 0.0), 1.0) == 1.0
  {
    ForcedIsMagnitude(pow, HEAVY, 1.0);
    MagnitudeOrder(pow, HEAVY, 1.0, 1.0);
    hide Forced, Magnitude;
  }

  lemma FullForceFilters()
    ensures AfterLowPass(HEAVY, FRESH.filter, 1.0, 0) == 1.0 && AfterSmoothing(HEAVY, FRESH.filter, 1.0) == 1.0
  {
  }

  /** The next snapshot is paused, and authorises nothing: the motor still gets the full
      ceiling. */
  lemma WithdrawalIsHeard(g: Game)
    requires PowShape(g.pow) && g.profile == FULL_GAME && g.cfg == PROBE_CONFIG
    ensures Powerless(PAUSED, g.needs)
    ensures LiveFrame(g, LOADED, true, PAUSED, 6000000) == Some(ForceFrame(0.1, 0.0, 0.0, 0.0))
  {
    PausedIsUnauthorised(g);
    hide Residual, Round, MixNativeEffects, PowShape, Powerless, Accepts, LiveFrame;
    UnauthorisedFrame(g, LOADED, true, PAUSED, 6000000);
    LoadedResidual(6000000);
    FullCeiling();
  }

  lemma PausedIsUnauthorised(g: Game)
    requires g.profile == FULL_GAME
    ensures Powerless(PAUSED, g.needs) && Accepts(true, g.profile, PAUSED)
  {
  }

  lemma LoadedResidual(now: int)
    ensures Residual(HEAVY, LOADED.pipe.filter, now) == 0.9
  {
  }

  lemma FullCeiling()
    ensures MixNativeEffects(Request(Round(0.9 * 100.0), 0, 0, 0), PROBE_PROFILE, PROBE_CONFIG).constant == 10
    ensures MixNativeEffects(Request(1, 0, 0, 0), PROBE_PROFILE, PROBE_CONFIG).constant == 1
  {
    assert Round(90.0) == 90;
    DeliveredExtremes(90, 100, 100, 100);
    DeliveredExtremes(1, 100, 100, 100);
    hide Delivered, Round;
  }

  /** Fifty frames of it are not always enough: at full gains the last of them sends a percent. */
  lemma FiftyFramesMaySpeak(g: Game, events: seq<LiveEvent>)
    requires PowShape(g.pow) && g.cfg == PROBE_CONFIG && SilentFrames(g, events) && |events| == 50
    ensures LastFrame(g, LOADED, events) == Some(ForceFrame(0.01, 0.0, 0.0, 0.0))
  {
    assert LiveInv(LOADED);
    hide PowShape, LiveStep, LiveInv, LiveFrame, Powerless, Power, Scaled, Residual;
    LastResidual(g, LOADED, events);
    SilentPrefix(g, events);
    NineTenthsAt(0.9, 50);
    ScaledFromOne(Power(0.9, 50));
    OnePercent(g, LiveAfter(g, LOADED, events[..49]), events[49], Power(0.9, 50));
  }

  lemma ScaledFromOne(p: real)
    ensures Scaled(1.0, p) == p
  {
  }

  lemma RoundsToOne(x: real)
    requires 0.005 < x < 0.006
    ensures Round(x * 100.0) == 1
  {
  }

  lemma OnePercent(g: Game, l: Live, e: LiveEvent, x: real)
    requires PowShape(g.pow) && g.cfg == PROBE_CONFIG && l.engine == PROBE_PROFILE && 0.005 < x < 0.006
    requires Answered(g, e) && Powerless(e.telemetry, g.needs)
    ensures Residual(l.tuning, l.pipe.filter, e.shapeNow) == x ==>
              LiveFrame(g, l, e.active, e.telemetry, e.shapeNow) == Some(ForceFrame(0.01, 0.0, 0.0, 0.0))
  {
    hide PowShape, Powerless, Residual, MixNativeEffects, Round, LiveFrame, Accepts, InRange;
    RoundsToOne(x);
    UnauthorisedFrame(g, l, e.active, e.telemetry, e.shapeNow);
    FullCeiling();
  }

  // ---- Draining through both filters ----

  const FRAME_SPACING := 4000000  // 4 ms

  /** A frame comes at least 4 ms after the one before it, or so late or out of order that it
      counts as a whole tick. This matters only while the low-pass remembers anything. */
  predicate Spaced(g: Game, l: Live, e: LiveEvent) {
    Answered(g, e) && l.tuning.lowPassHz > 0.0 && l.pipe.filter.lowPass != 0.0 ==>
      e.shapeNow <= l.pipe.filter.lastAt || l.pipe.filter.lastAt + FRAME_SPACING <= e.shapeNow
  }

  ghost predicate SpacedRun(g: Game, l: Live, events: seq<LiveEvent>) {
    events != [] ==>
      var n := |events| - 1;
      SpacedRun(g, l, events[..n]) && Spaced(g, LiveAfter(g, l, events[..n]), events[n])
  }

  /** At that spacing a new sample weighs at least a tenth, at any cutoff the settings allow. */
  lemma AlphaAtLeast(hz: real, elapsed: int)
    requires hz >= 5.0 && (elapsed <= 0 || FRAME_SPACING <= elapsed)
    ensures 0.1 <= Alpha(hz, elapsed) < 1.0
  {
    var seconds := elapsed as real / 1000000000.0;
    var dt := if seconds <= 0.0 || seconds > 0.5 then 1.0 / TARGET_HZ else seconds;
    var rc := 1.0 / (2.0 * PI * hz);
    assert dt >= 0.004;
    SlowestCutoff(hz);
    WeightAtLeast(dt, rc);
  }

  lemma SlowestCutoff(hz: real)
    requires hz >= 5.0
    ensures 0.0 < 1.0 / (2.0 * PI * hz) <= 0.032
  {
    var d := 2.0 * PI * hz;
    assert d >= 31.4;
    QuotientRange(1.0, d);
    var q := 1.0 / d;
    assert q * d == 1.0;
    LargerProduct(q, 0.032, d);
  }

  lemma WeightAtLeast(dt: real, rc: real)
    requires dt >= 0.004 && 0.0 < rc <= 0.032
    ensures 0.1 <= dt / (rc + dt)
  {
    AtLeastTenth(dt, rc + dt);
  }

  lemma AtLeastTenth(x: real, d: real)
    requires d > 0.0 && 0.1 * d <= x
    ensures 0.1 <= x / d
  {
    assert (x / d) * d == x;
    LargerProduct(0.1, x / d, d);
  }

  /** A bound on what both filters hold after k silent frames, from full scale. */
  function Drain(k: nat): real {
    Scaled((1 + k) as real, Power(0.9, k))
  }

  ghost predicate Drained(p: Pipe, k: nat) {
    Abs(p.filter.lowPass) <= Power(0.9, k) && Abs(p.filter.output) <= Drain(k)
  }

  lemma DrainNext(k: nat)
    ensures Power(0.9, k + 1) == 0.9 * Power(0.9, k) && 0.0 <= Power(0.9, k) <= 1.0
    ensures Drain(k + 1) == 0.9 * Drain(k) + Power(0.9, k + 1) && Power(0.9, k + 1) <= Drain(k + 1)
    ensures Drain(0) == 1.0 == Power(0.9, 0)
    ensures k >= 8 ==> Drain(k + 1) <= Drain(k)
  {
    PowerNext(0.9, k);
    PowerOrder(0.9, 0.9, k);
    DrainArithmetic(k as real, Power(0.9, k));
    assert (1 + k) as real == 1.0 + k as real && (1 + (k + 1)) as real == 2.0 + k as real;
  }

  lemma DrainArithmetic(k: real, p: real)
    requires k >= 0.0 && p >= 0.0
    ensures Scaled(2.0 + k, 0.9 * p) == 0.9 * Scaled(1.0 + k, p) + 0.9 * p
    ensures 0.9 * p <= Scaled(2.0 + k, 0.9 * p)
    ensures k >= 8.0 ==> Scaled(2.0 + k, 0.9 * p) <= Scaled(1.0 + k, p)
  {
    assert k * p >= 0.0;
    assert Scaled(1.0 + k, p) == p + k * p;
    assert Scaled(2.0 + k, 0.9 * p) == 1.8 * p + 0.9 * (k * p);
    assert k >= 8.0 ==> (k - 8.0) * p >= 0.0;
  }

  lemma {:induction false} DrainFalls(j: nat, k: nat)
    requires 8 <= j <= k
    ensures 0.0 <= Power(0.9, k) <= Power(0.9, j) && 0.0 <= Drain(k) <= Drain(j)
    decreases k - j
  {
    hide Power, Drain;
    DrainNext(k);
    if j < k {
      DrainFalls(j, k - 1);
      DrainNext(k - 1);
    } else {
      DrainIsPositive(k);
    }
  }

  lemma DrainIsPositive(k: nat)
    ensures 0.0 <= Drain(k)
  {
    PowerOrder(0.9, 0.9, k);
    ProductInOrder(0.0, (1 + k) as real, 0.0, Power(0.9, k));
  }

  /** After 95 silent frames nothing is left that would round to a percent. */
  lemma NinetyFive(k: nat)
    requires k >= 95
    ensures 0.0 <= Power(0.9, k) <= Drain(k) < 0.005
  {
    DrainFalls(95, k);
    NineTenths();
    DrainNext(k - 1);
    hide Power;
  }

  /** One silent frame takes both bounds a step further. */
  lemma FrameDrains(g: Game, l: Live, e: LiveEvent, k: nat)
    requires PowShape(g.pow) && LiveInv(l) && Spaced(g, l, e) && Drained(l.pipe, k)
    requires Answered(g, e) && Powerless(e.telemetry, g.needs)
    ensures Drained(LiveStep(g, l, e).pipe, k + 1)
    ensures Abs(Residual(l.tuning, l.pipe.filter, e.shapeNow)) <= Drain(k + 1)
  {
    hide Shaping, PowShape, Powerless, Power, Drain, Residual, LowLeft;
    SilentFrame(g, l, e.telemetry, e.shapeNow);
    ResidualDrains(l, e.shapeNow, k);
  }

  lemma ResidualDrains(l: Live, now: int, k: nat)
    requires LiveInv(l) && Drained(l.pipe, k)
    requires l.tuning.lowPassHz > 0.0 && l.pipe.filter.lowPass != 0.0 ==>
               now <= l.pipe.filter.lastAt || l.pipe.filter.lastAt + FRAME_SPACING <= now
    ensures var cfg, m := l.tuning, l.pipe.filter;
            && Abs(Residual(cfg, m, now)) <= Drain(k + 1)
            && (cfg.enabled ==> Abs(LowLeft(cfg, m, now)) <= Power(0.9, k + 1))
            && (!cfg.enabled ==> Drained(l.pipe, k + 1))
  {
    var cfg, m := l.tuning, l.pipe.filter;
    LowDrains(cfg, m, now, Power(0.9, k));
    hide Power, Drain, Blend, Alpha, LowLeft, Smoothed;
    DrainNext(k);
    var low := LowLeft(cfg, m, now);
    DrainIsPositive(k + 1);
    SmoothedBound(m.output, low, cfg.smoothing, Drain(k), Power(0.9, k + 1));
  }

  lemma LowDrains(cfg: FFBTuning, m: Filter, now: int, p: real)
    requires InRange(cfg) && Abs(m.lowPass) <= p && p >= 0.0
    requires cfg.lowPassHz > 0.0 && m.lowPass != 0.0 ==> now <= m.lastAt || m.lastAt + FRAME_SPACING <= now
    ensures Abs(LowLeft(cfg, m, now)) <= 0.9 * p
  {
    hide Blend, Alpha;
    if cfg.lowPassHz > 0.0 && m.haveState {
      var alpha := Alpha(cfg.lowPassHz, now - m.lastAt);
      if m.lowPass != 0.0 {
        AlphaAtLeast(cfg.lowPassHz, now - m.lastAt);
      }
      BlendShrinks(m.lowPass, alpha, p);
    }
  }

  lemma BlendShrinks(was: real, w: real, p: real)
    requires Abs(was) <= p && 0.0 < w < 1.0 && (was != 0.0 ==> 0.1 <= w)
    ensures Abs(Blend(was, 0.0, w)) <= 0.9 * p
  {
    assert Blend(was, 0.0, w) == Scaled(was, 1.0 - w) by { assert w * (0.0 - was) == -(was * w); }
    if was == 0.0 {
      assert Scaled(was, 1.0 - w) == 0.0;
    } else {
      ProductBounded(was, 1.0 - w, p, 0.9);
      assert p * 0.9 == 0.9 * p;
    }
  }

  lemma SmoothedBound(out: real, low: real, s: real, d: real, p: real)
    requires 0.0 <= s <= 0.9 && Abs(out) <= d && Abs(low) <= p
    ensures Abs(Smoothed(out, low, s)) <= 0.9 * d + p
  {
    assert Smoothed(out, low, s) == Scaled(out, s) + Scaled(low, 1.0 - s);
    ScaledBound(out, s, d, 0.9);
    ScaledBound(low, 1.0 - s, p, 1.0);
    hide Scaled, Smoothed;
  }

  lemma ScaledBound(x: real, g: real, c: real, bound: real)
    requires Abs(x) <= c && 0.0 <= g <= bound
    ensures Abs(Scaled(x, g)) <= bound * c
  {
    ProductBounded(x, g, c, bound);
  }

  /** Every other event leaves the bounds as they are, or starts with empty filters. */
  lemma EventKeepsDrained(g: Game, l: Live, e: LiveEvent, k: nat)
    requires Drained(l.pipe, k) && !Answered(g, e)
    ensures Drained(LiveStep(g, l, e).pipe, k)
  {
    hide Shaping, Power, Drain;
    if e.Retune? {
      PowerOrder(0.9, 0.9, k);
      DrainIsPositive(k);
    }
  }

  lemma {:induction false} FiltersDrain(g: Game, l: Live, events: seq<LiveEvent>, k: nat)
    requires PowShape(g.pow) && LiveInv(l) && Drained(l.pipe, k)
    requires Unauthorised(g, events) && SpacedRun(g, l, events)
    ensures Drained(LiveAfter(g, l, events).pipe, k + AnsweredCount(g, events))
  {
    hide PowShape, LiveInv, Drained, LiveStep, Spaced, Answered, Powerless;
    if events != [] {
      var n := |events| - 1;
      var e, before := events[n], LiveAfter(g, l, events[..n]);
      UnauthorisedPrefix(g, events);
      FiltersDrain(g, l, events[..n], k);
      LiveInvHolds(g, l, events[..n]);
      if Answered(g, e) {
        FrameDrains(g, before, e, k + AnsweredCount(g, events[..n])) by { AnsweredIsFrame(g, e); }
      } else {
        EventKeepsDrained(g, before, e, k + AnsweredCount(g, events[..n]));
      }
    }
  }

  lemma AnsweredIsFrame(g: Game, e: LiveEvent)
    ensures Answered(g, e) ==> e.Frame?
  {
  }

  lemma UnauthorisedPrefix(g: Game, events: seq<LiveEvent>)
    requires Unauthorised(g, events) && events != []
    ensures Unauthorised(g, events[..|events| - 1])
    ensures events[|events| - 1].Frame? ==> Powerless(events[|events| - 1].telemetry, g.needs)
  {
    assert events[|events| - 1] in events && forall x <- events[..|events| - 1] :: x in events;
  }

  lemma InvIsDrained(l: Live)
    requires LiveInv(l)
    ensures Drained(l.pipe, 0)
  {
    DrainNext(0);
    hide Power, Drain;
  }

  // ---- Why the spacing matters ----

  /** The slowest low-pass, holding full force. */
  const SLOW := DEFAULT_TUNING.(lowPassHz := 5.0)
  const SLOW_LOADED := Live(PROBE_PROFILE, SLOW, FRESH.(filter := Filter(true, 0, 1.0, 1.0), frames := 1))

  /** Silent frames a nanosecond apart. */
  ghost predicate Rushed(g: Game, events: seq<LiveEvent>) {
    SilentFrames(g, events) && forall i | 0 <= i < |events| && events[i].Frame? :: events[i].shapeNow == i + 1
  }

  /** A filter weighs samples by time, not by number: of full force, k such frames take away
      less than k times 0.00000004. */
  lemma {:induction false} RushedFramesDrainLittle(g: Game, events: seq<LiveEvent>)
    requires PowShape(g.pow) && Rushed(g, events)
    ensures var l' := LiveAfter(g, SLOW_LOADED, events); var m := l'.pipe.filter;
            && l'.tuning == SLOW && m.haveState && m.lastAt == |events| && 0.0 <= m.output == m.lowPass <= 1.0
            && m.lowPass >= 1.0 - |events| as real * 0.00000004
    decreases |events|
  {
    hide PowShape, LiveStep, Answered, Powerless, InRange;
    if events != [] {
      var n := |events| - 1;
      RushedPrefix(g, events);
      RushedFramesDrainLittle(g, events[..n]);
      OneRushed(g, LiveAfter(g, SLOW_LOADED, events[..n]), events[n], n as real);
      assert (n + 1) as real == n as real + 1.0;
    }
  }

  lemma RushedPrefix(g: Game, events: seq<LiveEvent>)
    requires Rushed(g, events) && events != []
    ensures var n := |events| - 1;
            && Rushed(g, events[..n]) && Answered(g, events[n]) && Powerless(events[n].telemetry, g.needs)
            && events[n].shapeNow == n + 1
  {
    SilentPrefix(g, events);
  }

  lemma OneRushed(g: Game, l: Live, e: LiveEvent, k: real)
    requires PowShape(g.pow) && Answered(g, e) && Powerless(e.telemetry, g.needs) && l.tuning == SLOW
    requires var m := l.pipe.filter;
             && m.haveState && 0.0 <= m.output == m.lowPass <= 1.0
             && m.lowPass >= 1.0 - k * 0.00000004 && e.shapeNow == m.lastAt + 1
    ensures var l' := LiveStep(g, l, e); var m := l'.pipe.filter;
            && l'.tuning == SLOW && m.haveState && m.lastAt == e.shapeNow && 0.0 <= m.output == m.lowPass <= 1.0
            && m.lowPass >= 1.0 - (k + 1.0) * 0.00000004
  {
    SilentFrame(g, l, e.telemetry, e.shapeNow);
    var m := l.pipe.filter;
    AlphaAtMost();
    BlendLittle(m.lowPass, Alpha(5.0, 1));
    hide Shaping, PowShape, Powerless, Accepts, Alpha, Blend;
  }

  lemma AlphaAtMost()
    ensures 0.0 < Alpha(5.0, 1) <= 0.00000004
  {
    var rc := 1.0 / (2.0 * PI * 5.0);
    assert rc * 31.41592653589793 == 1.0;
    assert rc >= 0.03;
    AtMostQuotient(0.000000001, rc + 0.000000001, 0.00000004);
  }

  lemma AtMostQuotient(x: real, d: real, q: real)
    requires d > 0.0 && x <= q * d
    ensures x / d <= q
  {
    assert (x / d) * d == x;
    LargerProduct(x / d, q, d);
  }

  lemma BlendLittle(was: real, w: real)
    requires 0.0 <= was <= 1.0 && 0.0 < w <= 0.00000004
    ensures 0.0 <= Blend(was, 0.0, w) <= was && Blend(was, 0.0, w) >= was - 0.00000004
  {
    BlendBetween(was, 0.0, w);
    assert w * (0.0 - was) == -(w * was);
    ProductInOrder(w, 0.00000004, was, 1.0);
  }

  // ---- The motor ----

  /** What an event does to the output. */
  function Drives(g: Game, l: Live, o: Output, opt: Options, accepts: nat -> bool, e: LiveEvent): Output
    requires opt.maxSlew > 0.0
  {
    match e
    case Frame(active, t, gain, now, setNow, tickNow) =>
      AfterPump(o, opt, Pump(LiveFrame(g, l, active, t, now), gain, setNow, tickNow))
    case Panic => AfterPanic(o, opt, accepts)
    case _ => o
  }

  lemma PlayedStep(g: Game, l: Live, o: Output, opt: Options, accepts: nat -> bool, events: seq<LiveEvent>)
    requires opt.maxSlew > 0.0 && events != []
    ensures var n := |events| - 1;
            Played(g, l, o, opt, accepts, events)
            == Drives(g, LiveAfter(g, l, events[..n]), Played(g, l, o, opt, accepts, events[..n]), opt, accepts, events[n])
  {
    hide Shaping, AfterPump, AfterPanic, FrameOf, LiveStep;
    var n := |events| - 1;
    var driven, driving := Driven(g, l, events[..n]), Driving(g, LiveAfter(g, l, events[..n]), events[n]);
    if driving == [] {
      assert driven + driving == driven;
    } else {
      assert (driven + driving)[..|driven|] == driven && (driven + driving)[|driven|] == driving[0];
    }
  }

  /** The event sends no force: its frame is zero, or there is none. */
  ghost predicate SendsNothing(g: Game, l: Live, e: LiveEvent) {
    e.Frame? ==>
      var f := LiveFrame(g, l, e.active, e.telemetry, e.shapeNow);
      && (f.Some? ==> f.value == ForceFrame(0.0, 0.0, 0.0, 0.0))
      && (f.Some? <==> Answered(g, e))
  }

  lemma DrainedSendsNothing(g: Game, l: Live, e: LiveEvent, k: nat)
    requires PowShape(g.pow) && LiveInv(l) && Spaced(g, l, e) && Drained(l.pipe, k) && k >= 95
    requires e.Frame? ==> Powerless(e.telemetry, g.needs)
    ensures SendsNothing(g, l, e)
  {
    hide PowShape, LiveInv, Spaced, Drained, LiveStep, LiveFrame, Powerless, Residual, Power, Drain, Accepts;
    if Answered(g, e) {
      FrameDrains(g, l, e, k);
      NinetyFive(k + 1);
      SmallAnswer(g, l, e);
    } else if e.Frame? {
      RefusedSendsNothing(g, l, e.active, e.telemetry, e.shapeNow);
    }
  }

  /** The force is gone, or n more calls towards zero will take it there. */
  ghost predicate Due(o: Output, n: nat, slew: real) {
    o.force == 0.0 || (n > 0 && Abs(o.force) < Steps(n, slew) + SNAP)
  }

  lemma DueStep(g: Game, l: Live, o: Output, opt: Options, accepts: nat -> bool, e: LiveEvent, n: nat)
    requires opt.maxSlew > 0.0 && Due(o, n, opt.maxSlew) && SendsNothing(g, l, e)
    ensures Due(Drives(g, l, o, opt, accepts, e), if Answered(g, e) && n > 0 then n - 1 else n, opt.maxSlew)
  {
    hide StepToward, StepIsLimited, TorqueToWheelByte, ConstantForce, LiveFrame, Steps, Answered, AfterPanic;
    assert Answered(g, e) ==> e.Frame? by { AnsweredIsFrame(g, e); }
    if e.Frame? {
      NothingResolved(e.gain);
      StepDistance(o.force, 0.0, opt.maxSlew);
      if n > 0 { StepsGrow(n, opt.maxSlew); }
      StepsGrow(0, opt.maxSlew);
      hide ResolveForceFrame;
    } else if e.Panic? {
      PanicReports(o, opt, accepts);
    }
  }

  lemma NothingResolved(gain: real)
    ensures ResolveForceFrame(ForceFrame(0.0, 0.0, 0.0, 0.0), gain) == 0.0
  {
    assert 0.0 * gain == 0.0;
  }

  lemma {:induction false} ForceSettles(
    g: Game, l: Live, o: Output, opt: Options, accepts: nat -> bool, events: seq<LiveEvent>, k: nat, n: nat)
    requires PowShape(g.pow) && opt.maxSlew > 0.0 && LiveInv(l) && Drained(l.pipe, k) && k >= 95
    requires Unauthorised(g, events) && SpacedRun(g, l, events) && Due(o, n, opt.maxSlew)
    ensures var c := AnsweredCount(g, events);
            Due(Played(g, l, o, opt, accepts, events), if c < n then n - c else 0, opt.maxSlew)
  {
    hide PowShape, LiveInv, Drained, LiveStep, Spaced, Answered, Powerless, Due, SendsNothing, Played, Drives;
    if events == [] {
      NothingPlayed(g, l, o, opt, accepts);
    } else {
      var m := |events| - 1;
      var e, before, played := events[m], LiveAfter(g, l, events[..m]), Played(g, l, o, opt, accepts, events[..m]);
      UnauthorisedPrefix(g, events);
      ForceSettles(g, l, o, opt, accepts, events[..m], k, n);
      FiltersDrain(g, l, events[..m], k);
      LiveInvHolds(g, l, events[..m]);
      DrainedSendsNothing(g, before, e, k + AnsweredCount(g, events[..m]));
      var c := AnsweredCount(g, events[..m]);
      DueStep(g, before, played, opt, accepts, e, if c < n then n - c else 0);
      PlayedStep(g, l, o, opt, accepts, events);
    }
  }

  lemma NothingPlayed(g: Game, l: Live, o: Output, opt: Options, accepts: nat -> bool)
    requires opt.maxSlew > 0.0
    ensures Played(g, l, o, opt, accepts, []) == o
  {
  }

  /** Withdrawal, end to end: whatever the filters and the motor hold, 95 accepted snapshots
      without authorisation drain the filters, and n more bring the motor to neutral, where n
      slew limits cover the ceiling. Panics, refused snapshots and live swaps in between do no
      harm, and neither do more snapshots than that. */
  lemma WithdrawalReachesNeutral(
    g: Game, l: Live, o: Output, opt: Options, accepts: nat -> bool,
    drain: seq<LiveEvent>, settle: seq<LiveEvent>, n: nat)
    requires PowShape(g.pow) && opt.maxSlew > 0.0 && LiveInv(l)
    requires Abs(o.force) <= Ceiling(g.cfg) && AllUnderCeiling(o.attempts, g.cfg)
    requires Unauthorised(g, drain) && SpacedRun(g, l, drain) && AnsweredCount(g, drain) >= 95
    requires forall e <- drain :: e.Frame? ==> -1.0 <= e.gain <= 1.0
    requires var l' := LiveAfter(g, l, drain); Unauthorised(g, settle) && SpacedRun(g, l', settle)
    requires AnsweredCount(g, settle) >= n > 0 && Ceiling(g.cfg) < Steps(n, opt.maxSlew) + SNAP
    ensures var l', o' := LiveAfter(g, l, drain), Played(g, l, o, opt, accepts, drain);
            Played(g, l', o', opt, accepts, settle).force == 0.0
  {
    hide PowShape, LiveStep, Spaced, Answered, Powerless, Played, Drained, LiveInv, AllUnderCeiling, Ceiling, Steps;
    var l', o' := LiveAfter(g, l, drain), Played(g, l, o, opt, accepts, drain);
    InvIsDrained(l);
    FiltersDrain(g, l, drain, 0);
    LiveInvHolds(g, l, drain);
    LiveMotorCeiling(g, l, o, opt, accepts, drain);
    ForceSettles(g, l', o', opt, accepts, settle, AnsweredCount(g, drain), n);
  }

  // ---- Neutral for good ----

  /** From number n on the reports carry no force, or neutral. */
  ghost predicate NeutralFrom(rs: seq<Report>, n: nat) {
    forall i | n <= i < |rs| :: ForceByteOf(rs[i]) == None || ForceByteOf(rs[i]) == Some(NEUTRAL)
  }

  lemma QuietStep(g: Game, l: Live, o: Output, opt: Options, accepts: nat -> bool, e: LiveEvent, n: nat)
    requires opt.maxSlew > 0.0 && SendsNothing(g, l, e) && o.force == 0.0 && NeutralFrom(o.attempts, n)
    ensures var r := Drives(g, l, o, opt, accepts, e); r.force == 0.0 && NeutralFrom(r.attempts, n)
  {
    hide AfterPump, AfterPanic, LiveFrame, NeutralFrom, Answered;
    match e
    case Frame(active, t, gain, now, setNow, tickNow) =>
      QuietPump(o, opt, Pump(LiveFrame(g, l, active, t, now), gain, setNow, tickNow), n);
    case Panic => QuietPanic(o, opt, accepts, n);
    case _ =>
  }

  lemma NeutralAppend(rs: seq<Report>, n: nat)
    requires NeutralFrom(rs, n)
    ensures NeutralFrom(rs + [ForceReport(0.0)], n) && NeutralFrom(rs + [STOP], n)
    ensures ForceReport(0.0) == ConstantForce(NEUTRAL)
  {
    ReportsDistinct(NEUTRAL, 0);
    WheelByteNeutral(0.0);
    hide ForceByteOf, ConstantForce, TorqueToWheelByte;
  }

  lemma QuietPump(o: Output, opt: Options, p: Pump, n: nat)
    requires opt.maxSlew > 0.0 && o.force == 0.0 && NeutralFrom(o.attempts, n)
    requires p.frame.Some? ==> p.frame.value == ForceFrame(0.0, 0.0, 0.0, 0.0)
    ensures var r := AfterPump(o, opt, p); r.force == 0.0 && NeutralFrom(r.attempts, n)
  {
    hide StepToward, StepIsLimited, TorqueToWheelByte, ConstantForce, NeutralFrom, ResolveForceFrame;
    NothingResolved(p.gain);
    StepStaysBetween(0.0, 0.0, opt.maxSlew);
    NeutralAppend(o.attempts, n);
    NeutralAppend(o.attempts + [ForceReport(0.0)], n);
  }

  lemma QuietPanic(o: Output, opt: Options, accepts: nat -> bool, n: nat)
    requires opt.maxSlew > 0.0 && o.force == 0.0 && NeutralFrom(o.attempts, n)
    ensures var r := AfterPanic(o, opt, accepts); r.force == 0.0 && NeutralFrom(r.attempts, n)
  {
    PanicReports(o, opt, accepts);
    assert RampForces(0.0, opt.maxSlew, accepts, |o.attempts| + 1, 0) == [];
    assert ForceReports([]) == [];
    hide AfterPanic, NeutralFrom, ForceReports, RampForces, ConstantForce, TorqueToWheelByte;
    NeutralAppend(o.attempts, n);
    NeutralAppend(o.attempts + [STOP], n);
    assert o.attempts + [STOP] + [] == o.attempts + [STOP];
  }

  /** With the filters drained and the motor at neutral, a session that is not authorised stays
      there, whatever stale force its telemetry still carries and whatever is swapped: each
      further report is neutral or stop. */
  lemma {:induction false} QuietOnceDrained(
    g: Game, l: Live, o: Output, opt: Options, accepts: nat -> bool, events: seq<LiveEvent>, k: nat)
    requires PowShape(g.pow) && opt.maxSlew > 0.0 && LiveInv(l) && Drained(l.pipe, k) && k >= 95 && o.force == 0.0
    requires Unauthorised(g, events) && SpacedRun(g, l, events)
    ensures var r := Played(g, l, o, opt, accepts, events);
            r.force == 0.0 && NeutralFrom(r.attempts, |o.attempts|)
  {
    hide PowShape, LiveInv, Drained, LiveStep, Spaced, Answered, Powerless, SendsNothing, Played, Drives, ForceByteOf;
    if events == [] {
      NothingPlayed(g, l, o, opt, accepts);
    } else {
      var m := |events| - 1;
      var e, before, played := events[m], LiveAfter(g, l, events[..m]), Played(g, l, o, opt, accepts, events[..m]);
      UnauthorisedPrefix(g, events);
      QuietOnceDrained(g, l, o, opt, accepts, events[..m], k);
      FiltersDrain(g, l, events[..m], k);
      LiveInvHolds(g, l, events[..m]);
      DrainedSendsNothing(g, before, e, k + AnsweredCount(g, events[..m]));
      QuietStep(g, before, played, opt, accepts, e, |o.attempts|);
      PlayedStep(g, l, o, opt, accepts, events);
    }
  }

  lemma RestIsDrained(p: Pipe, k: nat)
    requires AtRest(p)
    ensures Drained(p, k)
  {
    PowerOrder(0.9, 0.9, k);
    DrainIsPositive(k);
  }

  /** At rest the filters stay at rest, and the spacing of frames does not matter. */
  lemma {:induction false} RestIsKept(g: Game, l: Live, events: seq<LiveEvent>)
    requires PowShape(g.pow) && AtRest(l.pipe) && Unauthorised(g, events)
    ensures AtRest(LiveAfter(g, l, events).pipe) && SpacedRun(g, l, events)
  {
    hide PowShape, Powerless, Shaping, Answered;
    if events != [] {
      var n := |events| - 1;
      UnauthorisedPrefix(g, events);
      RestIsKept(g, l, events[..n]);
      if events[n].Frame? {
        RestFrame(g, LiveAfter(g, l, events[..n]), events[n].telemetry, events[n].shapeNow);
      }
    }
  }

  lemma RestFrame(g: Game, l: Live, t: Telemetry, now: int)
    requires PowShape(g.pow) && AtRest(l.pipe) && Powerless(t, g.needs)
    ensures AtRest(Shaping(g, l, t, now).0)
  {
    hide Processed, GameGain, Powerless, PowShape;
    BitsDecideForce(g.profile, g.needs, t);
    hide SourceForce;
    SilenceAtRest(g.pow, l.tuning, l.pipe, GameGain(g.profile), now);
  }

  /** A session that never was authorised never moves the motor, at any frame spacing. */
  lemma QuietWhileUnauthorised(
    g: Game, l: Live, o: Output, opt: Options, accepts: nat -> bool, events: seq<LiveEvent>)
    requires PowShape(g.pow) && opt.maxSlew > 0.0 && LiveInv(l) && AtRest(l.pipe) && o.force == 0.0
    requires Unauthorised(g, events)
    ensures var r := Played(g, l, o, opt, accepts, events);
            r.force == 0.0 && NeutralFrom(r.attempts, |o.attempts|)
  {
    hide PowShape, LiveInv, Drained, AtRest, Played, Unauthorised, SpacedRun, NeutralFrom;
    RestIsDrained(l.pipe, 95);
    RestIsKept(g, l, events);
    QuietOnceDrained(g, l, o, opt, accepts, events, 95);
  }
}
