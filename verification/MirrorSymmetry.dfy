/** Left and right are the same to the whole force path. Inverting a game's force direction
    turns every session into its mirror image: the same counters and watchdog trips, and
    report by report the force byte reflected about neutral. Every stage has to play along,
    from truncating division and both roundings to slew, snap, watchdog and panic. */
module MirrorSymmetry {
  import opened Optional
  import opened GoMath
  import opened ForceCore
  import opened SafetyMixer
  import opened WheelOutputLayer
  import opened ForceEngine
  import opened GameOutput

  // ---- Reports and outputs ----

  /** Both reports carry no force, or forces that sum to twice neutral; both are otherwise equal. */
  ghost predicate Mirrors(r: Report, r': Report) {
    || (r == r' && ForceByteOf(r).None?)
    || exists b: Byte, b': Byte :: b + b' == 256 && r == ConstantForce(b) && r' == ConstantForce(b')
  }

  ghost predicate AllMirror(rs: seq<Report>, rs': seq<Report>) {
    |rs| == |rs'| && forall i | 0 <= i < |rs| :: Mirrors(rs[i], rs'[i])
  }

  ghost predicate Mirrored(o: Output, o': Output) {
    && o'.force == -o.force
    && o'.lastUpdate == o.lastUpdate && o'.writes == o.writes
    && o'.slewLimited == o.slewLimited && o'.watchdogTrips == o.watchdogTrips
    && AllMirror(o.attempts, o'.attempts)
  }

  lemma StepMirrors(force: real, torque: real, slew: real)
    requires slew > 0.0
    ensures StepToward(-force, -torque, slew) == -StepToward(force, torque, slew)
    ensures StepIsLimited(-force, -torque, slew) == StepIsLimited(force, torque, slew)
  {
  }

  lemma ForceReportMirrors(force: real)
    ensures Mirrors(ConstantForce(TorqueToWheelByte(force)), ConstantForce(TorqueToWheelByte(-force)))
  {
    WheelByteReflects(force);
  }

  lemma WroteMirrors(o: Output, o': Output, r: Report, r': Report)
    requires Mirrored(o, o') && Mirrors(r, r')
    ensures Mirrored(Wrote(o, r), Wrote(o', r'))
  {
    hide Mirrors;
  }

  lemma WroteForceMirrors(o: Output, o': Output)
    requires Mirrored(o, o')
    ensures Mirrored(WroteForce(o), WroteForce(o'))
  {
    hide Mirrors, TorqueToWheelByte, ConstantForce;
    ForceReportMirrors(o.force);
    WroteMirrors(o, o', ConstantForce(TorqueToWheelByte(o.force)), ConstantForce(TorqueToWheelByte(o'.force)));
  }

  lemma SteppedMirrors(o: Output, o': Output, torque: real, slew: real)
    requires slew > 0.0 && Mirrored(o, o')
    ensures Mirrored(Stepped(o, torque, slew), Stepped(o', -torque, slew))
  {
    hide AllMirror, StepToward, StepIsLimited;
    StepMirrors(o.force, torque, slew);
  }

  lemma SetForceMirrors(o: Output, o': Output, opt: Options, torque: real, now: int)
    requires opt.maxSlew > 0.0 && Mirrored(o, o')
    ensures Mirrored(AfterSetForce(o, opt, torque, now), AfterSetForce(o', opt, -torque, now))
  {
    SteppedMirrors(o, o', torque, opt.maxSlew);
    hide AllMirror, Stepped, WroteForce;
    WroteForceMirrors(
      Stepped(o, torque, opt.maxSlew).(lastUpdate := now), Stepped(o', -torque, opt.maxSlew).(lastUpdate := now));
  }

  lemma TickMirrors(o: Output, o': Output, opt: Options, now: int)
    requires Mirrored(o, o')
    ensures Mirrored(AfterTick(o, opt, now), AfterTick(o', opt, now))
  {
    hide AllMirror, WroteForce;
    if now - o.lastUpdate > opt.watchdog {
      var trips := o.watchdogTrips + if o.force != 0.0 then 1 else 0;
      WroteForceMirrors(o.(force := 0.0, watchdogTrips := trips), o'.(force := 0.0, watchdogTrips := trips));
    } else {
      WroteForceMirrors(o, o');
    }
  }

  lemma SameAttemptCount(o: Output, o': Output)
    requires Mirrored(o, o')
    ensures |o.attempts| == |o'.attempts| && (o.force == 0.0 <==> o'.force == 0.0)
  {
  }

  lemma {:induction false} RampMirrors(o: Output, o': Output, slew: real, accepts: nat -> bool, i: nat)
    requires slew > 0.0 && Mirrored(o, o')
    ensures Mirrored(PanicRamp(o, slew, accepts, i), PanicRamp(o', slew, accepts, i))
    decreases MAX_PANIC_STEPS - i
  {
    hide Mirrored, Stepped, WroteForce;
    SameAttemptCount(o, o');
    if i < MAX_PANIC_STEPS && o.force != 0.0 {
      SteppedMirrors(o, o', 0.0, slew);
      WroteForceMirrors(Stepped(o, 0.0, slew), Stepped(o', 0.0, slew));
      if accepts(|o.attempts|) {
        RampMirrors(WroteForce(Stepped(o, 0.0, slew)), WroteForce(Stepped(o', 0.0, slew)), slew, accepts, i + 1);
      }
    }
  }

  lemma PanicMirrors(o: Output, o': Output, opt: Options, accepts: nat -> bool)
    requires opt.maxSlew > 0.0 && Mirrored(o, o')
    ensures Mirrored(AfterPanic(o, opt, accepts), AfterPanic(o', opt, accepts))
  {
    hide AllMirror, Mirrors, PanicRamp, WroteForce, Wrote;
    assert Mirrors(STOP, STOP) by { StopMirrors(); }
    WroteMirrors(o, o', STOP, STOP);
    RampMirrors(Wrote(o, STOP), Wrote(o', STOP), opt.maxSlew, accepts, 0);
    var r := PanicRamp(Wrote(o, STOP), opt.maxSlew, accepts, 0);
    var r' := PanicRamp(Wrote(o', STOP), opt.maxSlew, accepts, 0);
    WroteForceMirrors(r.(force := 0.0), r'.(force := 0.0));
  }

  lemma StopMirrors()
    ensures Mirrors(STOP, STOP)
  {
  }

  // ---- Frames ----

  function Inverted(game: GameProfile): GameProfile {
    game.(invert := !game.invert)
  }

  /** The answer of a pipeline that was fed the opposite force from the opposite state. */
  function OppositeAnswer(pipeline: Option<real>): Option<real> {
    match pipeline case None => None case Some(x) => Some(-x)
  }

  lemma ShapedMirrors(game: GameProfile, needs: bool, t: Telemetry, pipeline: Option<real>)
    ensures Shaped(Inverted(game), SourceForce(Inverted(game), needs, t), OppositeAnswer(pipeline))
            == -Shaped(game, SourceForce(game, needs, t), pipeline)
  {
    ProductNegates(AuthorisedForce(t, needs), GameGain(game));
  }

  lemma ProductNegates(x: real, g: real)
    ensures (-x) * g == -(x * g)
    ensures Scaled(-x, g) == -Scaled(x, g)
  {
  }

  lemma RoundMirrors(x: real)
    ensures Round(-x) == -Round(x)
  {
  }

  lemma QuotientMirrors(n: int)
    ensures (-n) as real / 100.0 == -(n as real / 100.0)
  {
  }

  /** The safety mixer hands an inverted game the opposite frame, or none where it had none. */
  lemma FrameMirrors(
    active: bool, game: GameProfile, needs: bool, engine: Profile, cfg: Config, t: Telemetry, pipeline: Option<real>)
    ensures var f, f' := FrameOf(active, game, needs, engine, cfg, t, pipeline),
                         FrameOf(active, Inverted(game), needs, engine, cfg, t, OppositeAnswer(pipeline));
            && (f.Some? <==> f'.Some?)
            && (f.Some? ==> f'.value == f.value.(constant := -f.value.constant) && f.value.transient == 0.0)
  {
    hide Shaped, SourceForce, Round, MixNativeEffects;
    var out := Shaped(game, SourceForce(game, needs, t), pipeline);
    ShapedMirrors(game, needs, t, pipeline);
    RoundMirrors(out * 100.0);
    ProductNegates(out, 100.0);
    var req := Request(Round(out * 100.0), 0, 0, 0);
    MixOdd(req, engine, cfg);
    QuotientMirrors(MixNativeEffects(req, engine, cfg).constant);
  }

  lemma ResolveMirrors(f: ForceFrame, gain: real)
    requires f.transient == 0.0
    ensures ResolveForceFrame(f.(constant := -f.constant), gain) == -ResolveForceFrame(f, gain)
  {
    ProductNegates(f.constant, gain);
  }

  // ---- Whole sessions ----

  function MirrorEvent(e: SessionEvent): SessionEvent {
    match e
    case Pumped(d) => Pumped(d.(pipeline := OppositeAnswer(d.pipeline)))
    case Panicked => Panicked
  }

  function MirrorEvents(events: seq<SessionEvent>): (es: seq<SessionEvent>)
    ensures |es| == |events|
  {
    if events == [] then [] else MirrorEvents(events[..|events| - 1]) + [MirrorEvent(events[|events| - 1])]
  }

  lemma PumpMirrors(o: Output, o': Output, opt: Options, game: GameProfile, needs: bool, cfg: Config, d: Drive)
    requires opt.maxSlew > 0.0 && Mirrored(o, o')
    ensures Mirrored(
              AfterPump(o, opt, PumpOf(game, needs, cfg, d)),
              AfterPump(o', opt, PumpOf(Inverted(game), needs, cfg, d.(pipeline := OppositeAnswer(d.pipeline)))))
  {
    hide Mirrored, AfterSetForce, AfterTick, FrameOf, ResolveForceFrame;
    var p := PumpOf(game, needs, cfg, d);
    FrameMirrors(d.active, game, needs, d.engine, cfg, d.telemetry, d.pipeline);
    if p.frame.Some? {
      var torque := ResolveForceFrame(p.frame.value, d.gain);
      ResolveMirrors(p.frame.value, d.gain);
      SetForceMirrors(o, o', opt, torque, d.setNow);
      TickMirrors(
        AfterSetForce(o, opt, torque, d.setNow), AfterSetForce(o', opt, -torque, d.setNow), opt, d.tickNow);
    } else {
      TickMirrors(o, o', opt, d.tickNow);
    }
  }

  /** Every session of an inverted game mirrors the same session of the game itself, whatever
      the telemetry, the profiles, the gains, the clock, the refused writes and the panics. */
  lemma {:induction false} SessionMirrors(
    o: Output, o': Output, opt: Options, game: GameProfile, needs: bool, cfg: Config,
    accepts: nat -> bool, events: seq<SessionEvent>)
    requires opt.maxSlew > 0.0 && Mirrored(o, o')
    ensures Mirrored(
              AfterSession(o, opt, game, needs, cfg, accepts, events),
              AfterSession(o', opt, Inverted(game), needs, cfg, accepts, MirrorEvents(events)))
  {
    hide Mirrored, AfterPump, AfterPanic, PumpOf;
    if events != [] {
      var n := |events| - 1;
      SessionMirrors(o, o', opt, game, needs, cfg, accepts, events[..n]);
      var a := AfterSession(o, opt, game, needs, cfg, accepts, events[..n]);
      var a' := AfterSession(o', opt, Inverted(game), needs, cfg, accepts, MirrorEvents(events[..n]));
      assert MirrorEvents(events)[..n] == MirrorEvents(events[..n]);
      match events[n] {
        case Pumped(d) => PumpMirrors(a, a', opt, game, needs, cfg, d);
        case Panicked => PanicMirrors(a, a', opt, accepts);
      }
    }
  }
}
