/** A live game session: telemetry frames, panics, and swaps of profile and shaping while it
    runs, with the shaping pipeline's own state in the loop. Its motor reports are those of
    the game path driven by the pipeline's answers. */
module LiveSession {
  import opened Optional
  import opened GoMath
  import opened ForceCore
  import opened SafetyMixer
  import opened WheelOutputLayer
  import opened ForceEngine
  import opened InputNormalizers
  import opened ShapingPipeline
  import opened GameOutput
  import opened MirrorSymmetry

  /** What a session holds besides its output: the engine profile and the pipeline. */
  datatype Live = Live(engine: Profile, tuning: SafeTuning, pipe: Pipe)

  /** Swapping the profile and swapping the shaping are two steps; a frame may fall between. */
  datatype LiveEvent =
    | Frame(active: bool, telemetry: Telemetry, gain: real, shapeNow: int, setNow: int, tickNow: int)
    | Reprofile(engine: Profile)
    | Retune(tuning: FFBTuning)
    | Panic

  /** What never changes during a session. */
  datatype Game = Game(pow: Pow, profile: GameProfile, needs: bool, cfg: Config)

  function Shaping(g: Game, l: Live, t: Telemetry, now: int): (Pipe, real) {
    Processed(g.pow, l.tuning, l.pipe, SourceFrame(g.profile, g.needs, t), GameGain(g.profile), now)
  }

  function LiveStep(g: Game, l: Live, e: LiveEvent): Live {
    match e
    case Frame(active, t, _, now, _, _) => if Accepts(active, g.profile, t) then l.(pipe := Shaping(g, l, t, now).0) else l
    case Reprofile(engine) => l.(engine := engine)
    case Retune(tuning) => l.(tuning := NormalizeTuning(tuning), pipe := FRESH)
    case Panic => l
  }

  /** What the event means for the output. */
  function Driving(g: Game, l: Live, e: LiveEvent): seq<SessionEvent> {
    match e
    case Frame(active, t, gain, now, setNow, tickNow) =>
      [Pumped(Drive(active, l.engine, t, Some(Shaping(g, l, t, now).1), gain, setNow, tickNow))]
    case Panic => [Panicked]
    case _ => []
  }

  function LiveAfter(g: Game, l: Live, events: seq<LiveEvent>): Live {
    if events == [] then l else LiveStep(g, LiveAfter(g, l, events[..|events| - 1]), events[|events| - 1])
  }

  function Driven(g: Game, l: Live, events: seq<LiveEvent>): seq<SessionEvent> {
    if events == [] then []
    else
      var before := events[..|events| - 1];
      Driven(g, l, before) + Driving(g, LiveAfter(g, l, before), events[|events| - 1])
  }

  /** The output after a live session. */
  function Played(g: Game, l: Live, o: Output, opt: Options, accepts: nat -> bool, events: seq<LiveEvent>): Output
    requires opt.maxSlew > 0.0
  {
    AfterSession(o, opt, g.profile, g.needs, g.cfg, accepts, Driven(g, l, events))
  }

  // ---- The ceiling ----

  lemma {:induction false} DrivenGains(g: Game, l: Live, events: seq<LiveEvent>, bound: real)
    requires forall e <- events :: e.Frame? ==> -bound <= e.gain <= bound
    ensures forall e <- Driven(g, l, events) :: e.Pumped? ==> -bound <= e.drive.gain <= bound
  {
    hide Shaping;
    if events != [] {
      var n := |events| - 1;
      assert events[n] in events && forall e <- events[..n] :: e in events;
      DrivenGains(g, l, events[..n], bound);
    }
  }

  /** The motor ceiling with the pipeline in the loop: every report of every live session,
      from any filter state, is under the ceiling of the wheel's safety limit. */
  lemma LiveMotorCeiling(g: Game, l: Live, o: Output, opt: Options, accepts: nat -> bool, events: seq<LiveEvent>)
    requires opt.maxSlew > 0.0 && Abs(o.force) <= Ceiling(g.cfg) && AllUnderCeiling(o.attempts, g.cfg)
    requires forall e <- events :: e.Frame? ==> -1.0 <= e.gain <= 1.0
    ensures var r := Played(g, l, o, opt, accepts, events);
            Abs(r.force) <= Ceiling(g.cfg) && AllUnderCeiling(r.attempts, g.cfg)
  {
    hide AllUnderCeiling, Ceiling, AfterSession, Driven;
    DrivenGains(g, l, events, 1.0);
    MotorCeiling(o, opt, g.profile, g.needs, g.cfg, accepts, Driven(g, l, events));
  }

  // ---- Left and right ----

  function OtherGame(g: Game): Game {
    g.(profile := Inverted(g.profile))
  }

  function OtherLive(l: Live): Live {
    l.(pipe := Opposite(l.pipe))
  }

  lemma ShapingMirrors(g: Game, l: Live, t: Telemetry, now: int)
    requires PowShape(g.pow)
    ensures Shaping(OtherGame(g), OtherLive(l), t, now) == (Opposite(Shaping(g, l, t, now).0), -Shaping(g, l, t, now).1)
  {
    hide Processed, GameGain;
    var f := SourceFrame(g.profile, g.needs, t);
    ProcessedOdd(g.pow, l.tuning, l.pipe, f, GameGain(g.profile), now);
    assert SourceFrame(Inverted(g.profile), g.needs, t) == ForceFrame(-f.constant, 0.0, 0.0, -f.transient);
    assert GameGain(Inverted(g.profile)) == GameGain(g.profile) by { SameGain(g.profile); }
  }

  lemma SameGain(game: GameProfile)
    ensures GameGain(Inverted(game)) == GameGain(game)
  {
  }

  lemma EventMirrors(g: Game, l: Live, e: LiveEvent)
    requires PowShape(g.pow)
    ensures LiveStep(OtherGame(g), OtherLive(l), e) == OtherLive(LiveStep(g, l, e))
    ensures |Driving(g, l, e)| <= 1
    ensures |Driving(OtherGame(g), OtherLive(l), e)| == |Driving(g, l, e)|
    ensures Driving(g, l, e) != [] ==> Driving(OtherGame(g), OtherLive(l), e)[0] == MirrorEvent(Driving(g, l, e)[0])
  {
    hide LiveStep, Driving, PowShape;
    match e
    case Frame(active, t, gain, now, setNow, tickNow) =>
      FrameEventMirrors(g, l, active, t, gain, now, setNow, tickNow);
    case _ => OtherEventMirrors(g, l, e);
  }

  lemma OtherEventMirrors(g: Game, l: Live, e: LiveEvent)
    requires !e.Frame?
    ensures LiveStep(OtherGame(g), OtherLive(l), e) == OtherLive(LiveStep(g, l, e))
    ensures |Driving(g, l, e)| <= 1
    ensures |Driving(OtherGame(g), OtherLive(l), e)| == |Driving(g, l, e)|
    ensures Driving(g, l, e) != [] ==> Driving(OtherGame(g), OtherLive(l), e)[0] == MirrorEvent(Driving(g, l, e)[0])
  {
    hide InRange, NormalizeTuning, Shaping, Inverted;
    match e
    case Retune(tuning) => OtherFresh();
    case Reprofile(_) =>
    case Panic =>
  }

  lemma OtherFresh()
    ensures Opposite(FRESH) == FRESH
  {
  }

  lemma FrameEventMirrors(g: Game, l: Live, active: bool, t: Telemetry, gain: real, now: int, setNow: int, tickNow: int)
    requires PowShape(g.pow)
    ensures var e := Frame(active, t, gain, now, setNow, tickNow);
            && LiveStep(OtherGame(g), OtherLive(l), e) == OtherLive(LiveStep(g, l, e))
            && |Driving(g, l, e)| == 1 == |Driving(OtherGame(g), OtherLive(l), e)|
            && Driving(OtherGame(g), OtherLive(l), e)[0] == MirrorEvent(Driving(g, l, e)[0])
  {
    hide Shaping, Accepts, Inverted, InRange;
    ShapingMirrors(g, l, t, now);
    assert Accepts(active, Inverted(g.profile), t) == Accepts(active, g.profile, t) by { SameAccepted(active, g.profile, t); }
  }

  lemma SameAccepted(active: bool, game: GameProfile, t: Telemetry)
    ensures Accepts(active, Inverted(game), t) == Accepts(active, game, t)
  {
  }

  lemma {:induction false} DrivenMirrors(g: Game, l: Live, events: seq<LiveEvent>)
    requires PowShape(g.pow)
    ensures LiveAfter(OtherGame(g), OtherLive(l), events) == OtherLive(LiveAfter(g, l, events))
    ensures Driven(OtherGame(g), OtherLive(l), events) == MirrorEvents(Driven(g, l, events))
  {
    hide LiveStep, Driving;
    if events != [] {
      var n := |events| - 1;
      DrivenMirrors(g, l, events[..n]);
      EventMirrors(g, LiveAfter(g, l, events[..n]), events[n]);
      var live := LiveAfter(g, l, events[..n]);
      MirrorAppend(Driven(g, l, events[..n]), Driving(g, live, events[n]), Driving(OtherGame(g), OtherLive(live), events[n]));
    }
  }

  lemma MirrorAppend(es: seq<SessionEvent>, more: seq<SessionEvent>, more': seq<SessionEvent>)
    requires |more| == |more'| <= 1 && (more != [] ==> more'[0] == MirrorEvent(more[0]))
    ensures MirrorEvents(es + more) == MirrorEvents(es) + more'
  {
    if more == [] {
      assert es + more == es && MirrorEvents(es) + more' == MirrorEvents(es);
    } else {
      assert (es + more)[..|es|] == es && (es + more)[|es|] == more[0];
      assert more' == [MirrorEvent(more[0])];
    }
  }

  /** Inverting a game's force direction turns every live session into its mirror image:
      filters, shaping, mixer, slew, watchdog and panic included. Report by report the force
      byte is reflected about neutral, and no counter differs. */
  lemma LiveSessionMirrors(
    g: Game, l: Live, o: Output, o': Output, opt: Options, accepts: nat -> bool, events: seq<LiveEvent>)
    requires PowShape(g.pow) && opt.maxSlew > 0.0 && Mirrored(o, o')
    ensures Mirrored(Played(g, l, o, opt, accepts, events), Played(OtherGame(g), OtherLive(l), o', opt, accepts, events))
  {
    hide Mirrored, AfterSession, Driven, MirrorEvents;
    DrivenMirrors(g, l, events);
    SessionMirrors(o, o', opt, g.profile, g.needs, g.cfg, accepts, Driven(g, l, events));
  }

  /** With neutral or disabled shaping a session sends what it would without a pipeline. */
  lemma NeutralShapingIsNone(g: Game, l: Live, active: bool, t: Telemetry, now: int, enabled: bool)
    requires PowShape(g.pow) && l.tuning == NormalizeTuning(DEFAULT_TUNING.(enabled := enabled))
    ensures LiveFrame(g, l, active, t, now) == FrameOf(active, g.profile, g.needs, l.engine, g.cfg, t, None)
  {
    hide Processed, GameGain, Round, MixNativeEffects, SourceForce, NormalizeTuning;
    NeutralPassesThrough(g.pow, [], enabled, l.pipe, SourceForce(g.profile, g.needs, t), GameGain(g.profile), now);
  }

  // ---- Following the telemetry ----

  /** The frame a live session would send for a snapshot. */
  function LiveFrame(g: Game, l: Live, active: bool, t: Telemetry, now: int): Option<ForceFrame> {
    FrameOf(active, g.profile, g.needs, l.engine, g.cfg, t, Some(Shaping(g, l, t, now).1))
  }

  /** From any filter state, more telemetry force to one side never gives less motor force to
      that side, in either game direction. */
  lemma LiveFrameFollowsTelemetry(g: Game, l: Live, active: bool, t: Telemetry, more: real, now: int)
    requires PowShape(g.pow) && t.force <= more
    requires 0 <= g.profile.ffbGain && 0 <= g.profile.masterGain && 0 <= g.profile.constantGain
    ensures var f, f' := LiveFrame(g, l, active, t, now), LiveFrame(g, l, active, t.(force := more), now);
            && (f.Some? <==> f'.Some?)
            && (f.Some? && !g.profile.invert ==> f.value.constant <= f'.value.constant)
            && (f.Some? && g.profile.invert ==> f'.value.constant <= f.value.constant)
  {
    hide Processed, GameGain, Round, MixNativeEffects, SourceForce;
    var t' := t.(force := more);
    var x, x' := Shaping(g, l, t, now).1, Shaping(g, l, t', now).1;
    SourceInOrder(g.profile, g.needs, t, more);
    GainIsNonNegative(g.profile);
    var f, f' := SourceForce(g.profile, g.needs, t), SourceForce(g.profile, g.needs, t');
    if g.profile.invert {
      ProcessedMonotone(g.pow, l.tuning, l.pipe, f', f, GameGain(g.profile), now);
    } else {
      ProcessedMonotone(g.pow, l.tuning, l.pipe, f, f', GameGain(g.profile), now);
    }
    MixInOrder(x, x', l.engine, g.cfg);
    MixInOrder(x', x, l.engine, g.cfg);
    QuotientInOrder(
      MixNativeEffects(Request(Round(x * 100.0), 0, 0, 0), l.engine, g.cfg).constant,
      MixNativeEffects(Request(Round(x' * 100.0), 0, 0, 0), l.engine, g.cfg).constant);
  }
}
