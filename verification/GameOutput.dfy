/** The game path: a telemetry snapshot is scaled, shaped, mixed under the per-wheel safety
    limits and pumped to the motor. The main result is an end-to-end ceiling on the motor
    byte that no telemetry, shaping or live profile change can break; it takes the answers of
    the shaping pipeline to be any reals at all. */
module GameOutput {
  import opened Optional
  import opened GoMath
  import opened ForceCore
  import opened SafetyMixer
  import opened WheelOutputLayer
  import opened ForceEngine
  import opened ShapingPipeline

  datatype GameProfile = GameProfile(ffbEnabled: bool, invert: bool, ffbGain: int, masterGain: int, constantGain: int)

  /** The part of a telemetry snapshot the force path reads. */
  datatype Telemetry = Telemetry(
    running: bool, fromAdapter: bool, stale: bool, hasFrame: bool,
    force: real, physics: bool, playerControl: bool, ffbEnabled: bool)

  /** The force field counts only while the game says the player is driving with physics
      on and, where the adapter demands it, with force feedback authorised. */
  function AuthorisedForce(t: Telemetry, needsAuthorisation: bool): (f: real) {
    if !t.physics || !t.playerControl || (needsAuthorisation && !t.ffbEnabled) then 0.0 else t.force
  }

  /** One of the snapshot's own bits withholds the authorisation. */
  predicate Withheld(t: Telemetry, needsAuthorisation: bool) {
    !t.physics || !t.playerControl || (needsAuthorisation && !t.ffbEnabled)
  }

  /** The snapshot asks for no force: it is withheld, or there is none. */
  predicate Powerless(t: Telemetry, needsAuthorisation: bool) {
    Withheld(t, needsAuthorisation) || t.force == 0.0
  }

  /** What the bits decide: any that withholds makes the force zero, and with all of them
      granted it is the snapshot's own, in the direction the game profile asks for. */
  lemma BitsDecideForce(game: GameProfile, needs: bool, t: Telemetry)
    ensures SourceForce(game, needs, t) == 0.0 <==> Powerless(t, needs)
    ensures !Withheld(t, needs) ==> SourceForce(game, needs, t) == if game.invert then -t.force else t.force
    ensures SourceForce(game, needs, t.(physics := false)) == 0.0
    ensures SourceForce(game, needs, t.(playerControl := false)) == 0.0
    ensures SourceForce(game, true, t.(ffbEnabled := false)) == 0.0
    ensures SourceForce(game, false, t.(ffbEnabled := false)) == SourceForce(game, false, t)
  {
  }

  function GameGain(g: GameProfile): real {
    (g.ffbGain as real / 100.0) * (g.masterGain as real / 100.0) * (g.constantGain as real / 100.0)
  }

  function SourceForce(game: GameProfile, needsAuthorisation: bool, t: Telemetry): (f: real) {
    var force := AuthorisedForce(t, needsAuthorisation);
    if game.invert then -force else force
  }

  function Scaled(force: real, gain: real): (f: real) {
    force * gain
  }

  function Shaped(game: GameProfile, force: real, pipeline: Option<real>): (f: real) {
    match pipeline case Some(x) => x case None => Clamp(Scaled(force, GameGain(game)), -1.0, 1.0)
  }

  class TelemetrySource {
    var active: bool
    const game: GameProfile
    const needsAuthorisation: bool
    const cfg: Config
    const pipeline: FFBPipeline?
    var engine: Profile
    var requested: real
    var shaped: real
    var applied: int
    var safetyClips: nat

    ghost predicate Valid() reads this, pipeline {
      pipeline != null ==> pipeline.Valid()
    }

    constructor (game: GameProfile, needsAuthorisation: bool, cfg: Config, engine: Profile, pipeline: FFBPipeline?)
      requires pipeline != null ==> pipeline.Valid()
      ensures Valid() && active && this.game == game && this.needsAuthorisation == needsAuthorisation
      ensures this.cfg == cfg && this.engine == engine && this.pipeline == pipeline
      ensures requested == 0.0 && shaped == 0.0 && applied == 0 && safetyClips == 0
    {
      active := true;
      this.game, this.needsAuthorisation, this.cfg, this.engine := game, needsAuthorisation, cfg, engine;
      this.pipeline := pipeline;
      requested, shaped, applied, safetyClips := 0.0, 0.0, 0, 0;
    }

    /** A live swap of the engine profile and of the shaping; the safety configuration stays.
        Without a pipeline it fails after the profile was swapped. */
    method RefreshTuning(engine: Profile, tuning: FFBTuning) returns (ok: bool)
      requires Valid()
      modifies this`engine, pipeline
      ensures Valid() && this.engine == engine && ok == (pipeline != null)
      ensures pipeline != null ==> pipeline.cfg == NormalizeTuning(tuning) && pipeline.View() == FRESH
    {
      this.engine := engine;
      if pipeline == null {
        return false;
      }
      pipeline.SetTuning(tuning);
      ok := true;
    }

    /** What the pipeline, if there is one, would answer now. */
    ghost function Answer(t: Telemetry, now: int): Option<real>
      requires Valid()
      reads this, pipeline
    {
      if pipeline == null then None
      else Some(Processed(pipeline.pow, pipeline.cfg, pipeline.View(), SourceFrame(game, needsAuthorisation, t), GameGain(game), now).1)
    }

    method TryGetFrame(t: Telemetry, now: int) returns (frame: Option<ForceFrame>)
      requires Valid()
      modifies this`requested, this`shaped, this`applied, this`safetyClips, pipeline
      ensures Valid() && (pipeline != null ==> pipeline.cfg == old(pipeline.cfg))
      ensures frame == FrameOf(active, game, needsAuthorisation, engine, cfg, t, old(Answer(t, now)))
      ensures frame.None? ==>
                && requested == old(requested) && shaped == old(shaped)
                && applied == old(applied) && safetyClips == old(safetyClips)
                && (pipeline != null ==> pipeline.View() == old(pipeline.View()))
      ensures frame.Some? ==>
                && requested == SourceForce(game, needsAuthorisation, t)
                && shaped == Shaped(game, requested, old(Answer(t, now)))
                && var mix := MixNativeEffects(Request(Round(shaped * 100.0), 0, 0, 0), engine, cfg);
                   applied == mix.constant && safetyClips == old(safetyClips) + mix.clipEvents
      ensures frame.Some? && pipeline != null ==>
                pipeline.View() == Processed(pipeline.pow, pipeline.cfg, old(pipeline.View()),
                                             SourceFrame(game, needsAuthorisation, t), GameGain(game), now).0
    {
      hide Round, MixNativeEffects, Processed, GameGain, Scaled, AuthorisedForce;
      if !active || !game.ffbEnabled || !t.running || !t.fromAdapter || t.stale || !t.hasFrame {
        return None;
      }
      var force := AuthorisedForce(t, needsAuthorisation);
      if game.invert {
        force := -force;
      }
      var out;
      if pipeline != null {
        out := pipeline.ProcessFrame(ForceFrame(force, 0.0, 0.0, 0.0), GameGain(game), now);
      } else {
        out := Clamp(Scaled(force, GameGain(game)), -1.0, 1.0);
      }
      var nominal := Round(out * 100.0);
      var mix := MixNativeEffects(Request(nominal, 0, 0, 0), engine, cfg);
      requested, shaped, applied := force, out, mix.constant;
      safetyClips := safetyClips + mix.clipEvents;
      frame := Some(ForceFrame(mix.constant as real / 100.0, 0.0, 0.0, 0.0));
    }
  }

  /** What the pipeline is fed with. */
  function SourceFrame(game: GameProfile, needsAuthorisation: bool, t: Telemetry): ForceFrame {
    ForceFrame(SourceForce(game, needsAuthorisation, t), 0.0, 0.0, 0.0)
  }

  /** The conditions under which a snapshot yields a frame at all. */
  predicate Accepts(active: bool, game: GameProfile, t: Telemetry) {
    active && game.ffbEnabled && t.running && t.fromAdapter && !t.stale && t.hasFrame
  }

  function FrameOf(
    active: bool, game: GameProfile, needsAuthorisation: bool, engine: Profile, cfg: Config,
    t: Telemetry, pipeline: Option<real>): (frame: Option<ForceFrame>)
  {
    if !Accepts(active, game, t) then None
    else
      var out := Shaped(game, SourceForce(game, needsAuthorisation, t), pipeline);
      var mix := MixNativeEffects(Request(Round(out * 100.0), 0, 0, 0), engine, cfg);
      Some(ForceFrame(mix.constant as real / 100.0, 0.0, 0.0, 0.0))
  }

  /** The configured ceiling as a torque. */
  function Ceiling(cfg: Config): (c: real)
    ensures 0.01 <= c <= 0.1
  {
    NormalizeConfig(cfg).constantLimit as real / 100.0
  }

  /** Both faces of one frame: it never exceeds the ceiling, and without an explicit pipeline
      an unauthorised frame is force zero. */
  lemma FrameWithinCeiling(
    active: bool, game: GameProfile, needs: bool, engine: Profile, cfg: Config, t: Telemetry, pipeline: Option<real>)
    ensures var f := FrameOf(active, game, needs, engine, cfg, t, pipeline);
            && (f.Some? ==> Abs(f.value.constant) <= Ceiling(cfg) && f.value.transient == 0.0)
            && (f.Some? && pipeline.None? && Powerless(t, needs) ==> f.value.constant == 0.0)
            && (f.Some? <==> active && game.ffbEnabled && t.running && t.fromAdapter && !t.stale && t.hasFrame)
  {
    hide Shaped, SourceForce, Powerless, Round, MixNativeEffects, NormalizeConfig;
    if FrameOf(active, game, needs, engine, cfg, t, pipeline).Some? {
      var out := Shaped(game, SourceForce(game, needs, t), pipeline);
      MixBounded(Request(Round(out * 100.0), 0, 0, 0), engine, cfg);
      if pipeline.None? && Powerless(t, needs) {
        UnauthorisedIsZero(game, needs, t);
      }
    }
  }

  lemma UnauthorisedIsZero(game: GameProfile, needs: bool, t: Telemetry)
    requires Powerless(t, needs)
    ensures Round(Shaped(game, SourceForce(game, needs, t), None) * 100.0) == 0
  {
    assert Scaled(SourceForce(game, needs, t), GameGain(game)) == 0.0;
  }

  lemma QuotientInOrder(m: int, n: int)
    ensures m <= n <==> m as real / 100.0 <= n as real / 100.0
    ensures 0 as real / 100.0 == 0.0
  {
  }

  lemma SourceInOrder(game: GameProfile, needs: bool, t: Telemetry, more: real)
    requires t.force <= more
    ensures var f, f' := SourceForce(game, needs, t), SourceForce(game, needs, t.(force := more));
            if game.invert then f' <= f else f <= f'
  {
  }

  lemma GainIsNonNegative(game: GameProfile)
    requires 0 <= game.ffbGain && 0 <= game.masterGain && 0 <= game.constantGain
    ensures GameGain(game) >= 0.0
    ensures game.ffbGain == 0 || game.masterGain == 0 || game.constantGain == 0 ==> GameGain(game) == 0.0
  {
    ProductOfThree(game.ffbGain as real / 100.0, game.masterGain as real / 100.0, game.constantGain as real / 100.0);
  }

  /** The game's gain is the product of its three percentages. */
  lemma GameGainIsProduct(game: GameProfile)
    ensures GameGain(game) * 1000000.0 == (game.ffbGain * game.masterGain * game.constantGain) as real
  {
    var a, b, c := game.ffbGain as real, game.masterGain as real, game.constantGain as real;
    assert (a / 100.0) * (b / 100.0) == (a * b) / 10000.0;
    assert ((a * b) / 10000.0) * (c / 100.0) == (a * b * c) / 1000000.0;
    ProductAsReal(game.ffbGain, game.masterGain);
    ProductAsReal(game.ffbGain * game.masterGain, game.constantGain);
  }

  lemma ProductAsReal(a: int, b: int)
    ensures (a * b) as real == a as real * b as real
  {
  }

  lemma ProductOfThree(a: real, b: real, c: real)
    requires a >= 0.0 && b >= 0.0 && c >= 0.0
    ensures a * b * c >= 0.0
    ensures a == 0.0 || b == 0.0 || c == 0.0 ==> a * b * c == 0.0
  {
    assert a * b >= 0.0;
  }

  lemma MixInOrder(x: real, y: real, engine: Profile, cfg: Config)
    ensures x <= y ==> MixNativeEffects(Request(Round(x * 100.0), 0, 0, 0), engine, cfg).constant
                       <= MixNativeEffects(Request(Round(y * 100.0), 0, 0, 0), engine, cfg).constant
  {
    hide MixNativeEffects, Round;
    if x <= y {
      RoundMonotone(x * 100.0, y * 100.0);
      MixMonotone(Request(Round(x * 100.0), 0, 0, 0), Request(Round(y * 100.0), 0, 0, 0), engine, cfg);
    }
  }

  lemma SilenceIsZero(engine: Profile, cfg: Config)
    ensures Round(0.0 * 100.0) == 0
    ensures MixNativeEffects(Request(0, 0, 0, 0), engine, cfg).constant == 0
  {
    hide MixNativeEffects;
    MixBounded(Request(0, 0, 0, 0), engine, cfg);
  }

  /** What drives the motor in one pump of a session: the profile in use at that moment,
      the telemetry snapshot, and the pipeline's answer. */
  datatype Drive = Drive(
    active: bool, engine: Profile, telemetry: Telemetry, pipeline: Option<real>,
    gain: real, setNow: int, tickNow: int)

  datatype SessionEvent = Pumped(drive: Drive) | Panicked

  function PumpOf(game: GameProfile, needs: bool, cfg: Config, d: Drive): Pump {
    Pump(FrameOf(d.active, game, needs, d.engine, cfg, d.telemetry, d.pipeline), d.gain, d.setNow, d.tickNow)
  }

  function AfterSession(
    o: Output, opt: Options, game: GameProfile, needs: bool, cfg: Config,
    accepts: nat -> bool, events: seq<SessionEvent>): Output
    requires opt.maxSlew > 0.0
  {
    if events == [] then o
    else
      var before := AfterSession(o, opt, game, needs, cfg, accepts, events[..|events| - 1]);
      match events[|events| - 1]
      case Pumped(d) => AfterPump(before, opt, PumpOf(game, needs, cfg, d))
      case Panicked => AfterPanic(before, opt, accepts)
  }

  /** A report is harmless if it carries no constant force, or one between the half-even
      roundings of 128 - 127 top and 128 + 127 top. */
  ghost predicate UnderTop(r: Report, top: real) {
    var b := ForceByteOf(r);
    b.Some? ==> RoundToEven(128.0 - 127.0 * top) <= b.value <= RoundToEven(128.0 + 127.0 * top)
  }

  ghost predicate AllUnderTop(rs: seq<Report>, top: real) {
    forall i | 0 <= i < |rs| :: UnderTop(rs[i], top)
  }

  /** The ceiling of the wheel: the half-even roundings of 128 - 1.27 L and 128 + 1.27 L for
      the configured limit L. */
  ghost predicate UnderCeiling(r: Report, cfg: Config) {
    var limit, b := NormalizeConfig(cfg).constantLimit as real, ForceByteOf(r);
    b.Some? ==> RoundToEven(128.0 - 1.27 * limit) <= b.value <= RoundToEven(128.0 + 1.27 * limit)
  }

  ghost predicate AllUnderCeiling(rs: seq<Report>, cfg: Config) {
    forall i | 0 <= i < |rs| :: UnderCeiling(rs[i], cfg)
  }

  lemma CeilingIsTop(rs: seq<Report>, cfg: Config)
    ensures AllUnderCeiling(rs, cfg) <==> AllUnderTop(rs, Ceiling(cfg))
  {
    var limit := NormalizeConfig(cfg).constantLimit as real;
    assert 127.0 * (limit / 100.0) == 1.27 * limit;
    hide RoundToEven, NormalizeConfig, ForceByteOf;
    assert forall i | 0 <= i < |rs| :: UnderCeiling(rs[i], cfg) <==> UnderTop(rs[i], Ceiling(cfg));
  }

  lemma ForceUnderTop(force: real, top: real)
    requires Abs(force) <= top <= 1.0
    ensures UnderTop(ConstantForce(TorqueToWheelByte(force)), top)
  {
    ReportsDistinct(TorqueToWheelByte(force), 0);
    WheelByteIsRounding(force);
    RoundToEvenMonotone(128.0 - 127.0 * top, 128.0 + 127.0 * force);
    RoundToEvenMonotone(128.0 + 127.0 * force, 128.0 + 127.0 * top);
    hide RoundToEven, TorqueToWheelByte;
  }

  /** The largest torque that frames within the ceiling and gains up to a bound can ask for. */
  function Top(cfg: Config, gainBound: real): (top: real)
    ensures 0.0 <= top <= 1.0
  {
    Clamp(Ceiling(cfg) * gainBound, 0.0, 1.0)
  }

  lemma TopAtOne(cfg: Config)
    ensures Top(cfg, 1.0) == Ceiling(cfg)
  {
    assert Ceiling(cfg) * 1.0 == Ceiling(cfg);
  }

  lemma ResolveUnderTop(f: ForceFrame, gain: real, gainBound: real, cfg: Config)
    requires -gainBound <= gain <= gainBound && Abs(f.constant) <= Ceiling(cfg) && f.transient == 0.0
    ensures Abs(ResolveForceFrame(f, gain)) <= Top(cfg, gainBound)
  {
    hide Ceiling;
    ProductBounded(f.constant, gain, Ceiling(cfg), gainBound);
    assert f.constant + f.transient == f.constant;
  }

  lemma ProductBounded(x: real, g: real, c: real, bound: real)
    requires Abs(x) <= c && Abs(g) <= bound
    ensures Abs(x * g) <= c * bound
  {
    var y, h := Abs(x), Abs(g);
    assert x * g == y * h || x * g == -(y * h);
    ProductOfSizes(y, h, c, bound);
  }

  lemma ProductOfSizes(y: real, h: real, c: real, bound: real)
    requires 0.0 <= y <= c && 0.0 <= h <= bound
    ensures 0.0 <= y * h <= c * bound
  {
    assert y * h <= c * h <= c * bound;
  }

  /** Force within the top before a step, target within it: within it after the step. */
  lemma StepUnderTop(force: real, torque: real, slew: real, top: real)
    requires slew > 0.0 && 0.0 <= top <= 1.0 && Abs(force) <= top && Abs(torque) <= top
    ensures Abs(StepToward(force, torque, slew)) <= top
  {
    StepStaysBetween(force, torque, slew);
  }

  /** One pump whose frame is within the ceiling and whose gain is within the bound. */
  lemma PumpUnderTop(o: Output, opt: Options, p: Pump, cfg: Config, gainBound: real)
    requires var top := Top(cfg, gainBound); Abs(o.force) <= top && AllUnderTop(o.attempts, top)
    requires opt.maxSlew > 0.0 && -gainBound <= p.gain <= gainBound
    requires p.frame.Some? ==> Abs(p.frame.value.constant) <= Ceiling(cfg) && p.frame.value.transient == 0.0
    ensures var r, top := AfterPump(o, opt, p), Top(cfg, gainBound);
            Abs(r.force) <= top && AllUnderTop(r.attempts, top)
  {
    hide StepToward, StepIsLimited, TorqueToWheelByte, ResolveForceFrame, ConstantForce, UnderTop, Top, Ceiling;
    var top := Top(cfg, gainBound);
    if p.frame.Some? {
      var torque := ResolveForceFrame(p.frame.value, p.gain);
      ResolveUnderTop(p.frame.value, p.gain, gainBound, cfg);
      StepUnderTop(o.force, torque, opt.maxSlew, top);
      ForceUnderTop(StepToward(o.force, torque, opt.maxSlew), top);
    }
    ForceUnderTop(AfterPump(o, opt, p).force, top);
  }

  lemma {:induction false} RampUnderTop(o: Output, slew: real, accepts: nat -> bool, i: nat, top: real)
    requires slew > 0.0 && 0.0 <= top <= 1.0 && Abs(o.force) <= top && AllUnderTop(o.attempts, top)
    ensures var r := PanicRamp(o, slew, accepts, i);
            Abs(r.force) <= top && AllUnderTop(r.attempts, top)
    decreases MAX_PANIC_STEPS - i
  {
    hide StepToward, StepIsLimited, TorqueToWheelByte, ConstantForce, UnderTop;
    if i < MAX_PANIC_STEPS && o.force != 0.0 {
      var o' := WroteForce(Stepped(o, 0.0, slew));
      StepUnderTop(o.force, 0.0, slew, top);
      ForceUnderTop(o'.force, top);
      if accepts(|o.attempts|) {
        RampUnderTop(o', slew, accepts, i + 1, top);
      }
    }
  }

  lemma PanicUnderTop(o: Output, opt: Options, accepts: nat -> bool, top: real)
    requires opt.maxSlew > 0.0 && 0.0 <= top <= 1.0 && Abs(o.force) <= top && AllUnderTop(o.attempts, top)
    ensures var r := AfterPanic(o, opt, accepts);
            Abs(r.force) <= top && AllUnderTop(r.attempts, top)
  {
    ReportsDistinct(0, 0);
    RampUnderTop(Wrote(o, STOP), opt.maxSlew, accepts, 0, top);
    hide TorqueToWheelByte, ConstantForce, UnderTop, PanicRamp;
    ForceUnderTop(0.0, top);
  }

  /** The motor ceiling for any gains: in every session, with any telemetry, any pipeline
      output, any sequence of live profiles, any refused writes and any panics, every report
      ever attempted is under the ceiling scaled by the largest gain, or full scale. */
  lemma {:induction false} MotorCeilingForGains(
    o: Output, opt: Options, game: GameProfile, needs: bool, cfg: Config,
    accepts: nat -> bool, events: seq<SessionEvent>, gainBound: real)
    requires var top := Top(cfg, gainBound); Abs(o.force) <= top && AllUnderTop(o.attempts, top)
    requires opt.maxSlew > 0.0
    requires forall e <- events :: e.Pumped? ==> -gainBound <= e.drive.gain <= gainBound
    ensures var r, top := AfterSession(o, opt, game, needs, cfg, accepts, events), Top(cfg, gainBound);
            Abs(r.force) <= top && AllUnderTop(r.attempts, top)
  {
    hide AfterPump, AfterPanic, AllUnderTop, FrameOf, Top, Ceiling;
    if events != [] {
      var n := |events| - 1;
      MotorCeilingForGains(o, opt, game, needs, cfg, accepts, events[..n], gainBound);
      var before := AfterSession(o, opt, game, needs, cfg, accepts, events[..n]);
      match events[n] {
        case Pumped(d) =>
          FrameWithinCeiling(d.active, game, needs, d.engine, cfg, d.telemetry, d.pipeline);
          PumpUnderTop(before, opt, PumpOf(game, needs, cfg, d), cfg, gainBound);
        case Panicked =>
          PanicUnderTop(before, opt, accepts, Top(cfg, gainBound));
      }
    }
  }

  /** The motor ceiling: with gains within -1..1, as every caller sets them, every report of
      every session is under the ceiling of the wheel's safety limit. */
  lemma MotorCeiling(
    o: Output, opt: Options, game: GameProfile, needs: bool, cfg: Config,
    accepts: nat -> bool, events: seq<SessionEvent>)
    requires opt.maxSlew > 0.0 && Abs(o.force) <= Ceiling(cfg) && AllUnderCeiling(o.attempts, cfg)
    requires forall e <- events :: e.Pumped? ==> -1.0 <= e.drive.gain <= 1.0
    ensures var r := AfterSession(o, opt, game, needs, cfg, accepts, events);
            Abs(r.force) <= Ceiling(cfg) && AllUnderCeiling(r.attempts, cfg)
  {
    hide AfterSession, AllUnderTop, AllUnderCeiling, Ceiling, Top;
    TopAtOne(cfg);
    CeilingIsTop(o.attempts, cfg);
    MotorCeilingForGains(o, opt, game, needs, cfg, accepts, events, 1.0);
    CeilingIsTop(AfterSession(o, opt, game, needs, cfg, accepts, events).attempts, cfg);
  }

  /** Which gains respect the ceiling of gain 1 on their own: exactly those whose scaled
      ceiling still rounds to a byte no larger. That includes some above 1. */
  lemma GainCeilingIff(cfg: Config, gain: real)
    ensures (forall f: ForceFrame | Abs(f.constant) <= Ceiling(cfg) && f.transient == 0.0 ::
               UnderCeiling(ConstantForce(TorqueToWheelByte(ResolveForceFrame(f, gain))), cfg))
            <==> RoundToEven(CeilingLine(cfg, gain)) <= RoundToEven(CeilingLine(cfg, 1.0))
  {
    var limit, c := NormalizeConfig(cfg).constantLimit as real, Ceiling(cfg);
    StrongestDecides(cfg, gain);
    StrongestFrame(c, gain);
    ScaledCeiling(cfg, gain);
    MostIsTop(limit, Strongest(c, gain));
    UnderCeilingIff(TorqueToWheelByte(Clamp(Strongest(c, gain), 0.0, 1.0)), cfg);
    hide NormalizeConfig, Ceiling, CeilingLine, Strongest, RoundToEven, TorqueToWheelByte, ResolveForceFrame;
    hide ConstantForce, UnderCeiling, Clamp;
  }

  /** Before rounding, the byte of a frame at the ceiling under a gain. */
  function CeilingLine(cfg: Config, gain: real): real {
    128.0 + 1.27 * (NormalizeConfig(cfg).constantLimit as real) * Abs(gain)
  }

  /** All frames respect the ceiling if the strongest does. */
  lemma StrongestDecides(cfg: Config, gain: real)
    ensures (forall f: ForceFrame | Abs(f.constant) <= Ceiling(cfg) && f.transient == 0.0 ::
               UnderCeiling(ConstantForce(TorqueToWheelByte(ResolveForceFrame(f, gain))), cfg))
            <==> UnderCeiling(ConstantForce(TorqueToWheelByte(Clamp(Strongest(Ceiling(cfg), gain), 0.0, 1.0))), cfg)
  {
    var c := Ceiling(cfg);
    var strongest := ForceFrame(if gain < 0.0 then -c else c, 0.0, 0.0, 0.0);
    var most := Clamp(Strongest(c, gain), 0.0, 1.0);
    StrongestFrame(c, gain);
    hide NormalizeConfig, Ceiling, Strongest, RoundToEven, TorqueToWheelByte, ResolveForceFrame, ConstantForce, UnderCeiling, Clamp;
    if UnderCeiling(ConstantForce(TorqueToWheelByte(most)), cfg) {
      UnderCeilingIff(TorqueToWheelByte(most), cfg);
      forall f: ForceFrame | Abs(f.constant) <= c && f.transient == 0.0
        ensures UnderCeiling(ConstantForce(TorqueToWheelByte(ResolveForceFrame(f, gain))), cfg)
      {
        NoFrameStronger(c, gain, f);
        WeakerByte(ResolveForceFrame(f, gain), most);
        UnderCeilingIff(TorqueToWheelByte(ResolveForceFrame(f, gain)), cfg);
      }
    } else {
      assert ResolveForceFrame(strongest, gain) == most;
    }
  }

  /** The torque a frame of strength c can get at most, and one that gets it. */
  lemma StrongestFrame(c: real, gain: real)
    requires c >= 0.0
    ensures Strongest(c, gain) >= 0.0
    ensures ResolveForceFrame(ForceFrame(if gain < 0.0 then -c else c, 0.0, 0.0, 0.0), gain) == Clamp(Strongest(c, gain), 0.0, 1.0)
  {
    var x := if gain < 0.0 then -c else c;
    assert x + 0.0 == x;
    assert (-c) * gain == c * (-gain);
    assert c * Abs(gain) >= 0.0;
  }

  function Strongest(c: real, gain: real): real {
    c * Abs(gain)
  }

  lemma NoFrameStronger(c: real, gain: real, f: ForceFrame)
    requires c >= 0.0 && Abs(f.constant) <= c && f.transient == 0.0
    ensures Abs(ResolveForceFrame(f, gain)) <= Clamp(Strongest(c, gain), 0.0, 1.0)
  {
    ProductBounded(f.constant, gain, c, Abs(gain));
    assert f.constant + f.transient == f.constant;
    var x, most := f.constant * gain, Strongest(c, gain);
    assert Abs(x) <= most;
    hide Strongest;
  }

  /** No weaker torque has a byte farther from neutral. */
  lemma WeakerByte(t: real, top: real)
    requires Abs(t) <= top
    ensures 256 - TorqueToWheelByte(top) <= TorqueToWheelByte(t) <= TorqueToWheelByte(top)
  {
    hide TorqueToWheelByte;
    WheelByteMonotone(t, top);
    WheelByteMonotone(-top, t);
    WheelByteReflects(top);
  }

  lemma UnderCeilingIff(b: Byte, cfg: Config)
    ensures var ceiling := RoundToEven(128.0 + 1.27 * NormalizeConfig(cfg).constantLimit as real);
            UnderCeiling(ConstantForce(b), cfg) <==> 256 - ceiling <= b <= ceiling
    ensures UnderCeiling(ConstantForce(b), cfg) && b >= 128 <==>
            128 <= b <= RoundToEven(128.0 + 1.27 * NormalizeConfig(cfg).constantLimit as real)
  {
    var limit := NormalizeConfig(cfg).constantLimit as real;
    ReportsDistinct(b, 0);
    RoundToEvenReflect(128.0 + 1.27 * limit, 256);
    assert 256.0 - (128.0 + 1.27 * limit) == 128.0 - 1.27 * limit;
    RoundToEvenUnique(128.0, 128);
    RoundToEvenMonotone(128.0, 128.0 + 1.27 * limit);
    hide RoundToEven, NormalizeConfig, ForceByteOf, ConstantForce;
  }

  /** The byte of the scaled ceiling is its rounding, unless both are beyond every ceiling. */
  lemma MostIsTop(limit: real, x: real)
    requires limit <= 10.0 && x >= 0.0
    ensures var b, ceiling := TorqueToWheelByte(Clamp(x, 0.0, 1.0)), RoundToEven(128.0 + 1.27 * limit);
            128 <= b && (b <= ceiling <==> RoundToEven(128.0 + 127.0 * x) <= ceiling)
  {
    ByteOfTop(x);
    CeilingBelow(limit);
    hide RoundToEven, TorqueToWheelByte, Clamp;
  }

  lemma CeilingBelow(limit: real)
    requires limit <= 10.0
    ensures RoundToEven(128.0 + 1.27 * limit) <= 141
  {
    RoundToEvenUnique(140.7, 141);
    RoundToEvenMonotone(128.0 + 1.27 * limit, 140.7);
  }

  lemma ByteOfTop(x: real)
    requires x >= 0.0
    ensures var b, r := TorqueToWheelByte(Clamp(x, 0.0, 1.0)), RoundToEven(128.0 + 127.0 * x);
            128 <= b && (b == r || (b == 255 <= r))
  {
    WheelByteIsRounding(Clamp(x, 0.0, 1.0));
    RoundToEvenUnique(128.0, 128);
    RoundToEvenUnique(255.0, 255);
    hide RoundToEven, TorqueToWheelByte;
    RoundToEvenMonotone(128.0, 128.0 + 127.0 * Clamp(x, 0.0, 1.0));
    if x > 1.0 {
      RoundToEvenMonotone(255.0, 128.0 + 127.0 * x);
    }
  }

  lemma ScaledCeiling(cfg: Config, gain: real)
    ensures 128.0 + 127.0 * Strongest(Ceiling(cfg), gain) == CeilingLine(cfg, gain)
    ensures CeilingLine(cfg, 1.0) == 128.0 + 1.27 * NormalizeConfig(cfg).constantLimit as real
  {
    var limit, g := NormalizeConfig(cfg).constantLimit as real, Abs(gain);
    assert Ceiling(cfg) == limit / 100.0;
    hide NormalizeConfig, Ceiling;
    assert limit / 100.0 * g == (limit * g) / 100.0;
    assert 1.27 * limit * g == 1.27 * (limit * g);
  }

  /** The configured slew, in percent per 20 ms, converted to force per 6 ms scheduler tick. */
  function SlewPerTick(cfg: Config): (v: real) {
    var v := NormalizeConfig(cfg).slewPerTick as real / 100.0 * 6.0 / 20.0;
    if v < 0.0005 then 0.0005 else v
  }

  /** The conversion keeps the configured rate exactly (its floor is never reached), so a panic
      of a live session ends without a jump whenever its first 333 ramp reports are taken, and
      otherwise exactly when the steps before the first refusal, and one more, cover the way. */
  lemma LivePanicNeverJumps(o: Output, cfg: Config, watchdog: int, accepts: nat -> bool, r: nat)
    requires -1.0 <= o.force <= 1.0 && FirstRefusal(accepts, |o.attempts| + 1, 0, r)
    ensures SlewPerTick(cfg) / 6.0 == NormalizeConfig(cfg).slewPerTick as real / 100.0 / 20.0
    ensures var slew := SlewPerTick(cfg);
            && slew > 0.0
            && (RampSmooth(o.force, RampForces(o.force, slew, accepts, |o.attempts| + 1, 0) + [0.0], slew)
                <==> Abs(o.force) < Steps(StepsByThen(0, r) + 1, slew) + SNAP)
            && (333 <= r ==> Abs(o.force) < Steps(StepsByThen(0, r) + 1, slew) + SNAP)
  {
    PanicNeverJumps(o, Options(SlewPerTick(cfg), watchdog), accepts, r);
    EnoughSteps(StepsByThen(0, r) + 1, SlewPerTick(cfg));
    hide Steps, RampSmooth, RampForces;
  }

  /** Whatever the stored settings, the ceiling itself is never outside 115..141. */
  lemma AbsoluteCeiling(r: Report, cfg: Config, b: Byte)
    requires UnderCeiling(r, cfg) && ForceByteOf(r) == Some(b)
    ensures 115 <= b <= 141
  {
    var limit := NormalizeConfig(cfg).constantLimit as real;
    RoundToEvenUnique(115.3, 115);
    RoundToEvenUnique(140.7, 141);
    RoundToEvenMonotone(115.3, 128.0 - 1.27 * limit);
    RoundToEvenMonotone(128.0 + 1.27 * limit, 140.7);
  }
}
