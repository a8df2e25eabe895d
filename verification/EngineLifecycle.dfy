/** Starting and stopping the engine while its pump goroutine runs. Start and Stop calls
    come one after another; the goroutine of every start is interleaved freely with them.
    Each event below is one critical section, channel operation or output call. */
module EngineLifecycle {
  import opened Optional
  import opened ForceCore
  import opened WheelOutputLayer

  /** A pair of cancel and done channels, named by the Start that made it. */
  type Channel = nat

  /** Where a pump goroutine stands: before TryGetFrame, before Tick, at its select, or
      returned, with its done channel closed. */
  datatype PumpPc = AtFrame | AtTick | AtSelect | Returned

  /** Where the caller stands: between calls, in Start before `go`, or in Stop waiting for
      done or about to panic. */
  datatype CallerPc = Idle | Spawning(ch: Channel) | Joining(ch: Channel) | Panicking

  datatype State = State(
    running: bool,
    cancel: Option<Channel>,
    made: nat,
    closes: map<Channel, nat>,
    pumps: map<Channel, PumpPc>,
    caller: CallerPc,
    out: Output)

  datatype Event =
    | StartCall
    | Spawn
    | StopCall
    | Join
    | PanicAndReturn
    | PumpCall(first: Option<real>, setNow: int, tickNow: int)
    | Frame(ch: Channel, torque: real, now: int)
    | NoFrame(ch: Channel)
    | Tick(ch: Channel, now: int)
    | SeeCancel(ch: Channel)
    | SeeTicker(ch: Channel)

  datatype Env = Env(opt: Options, accepts: nat -> bool)

  function Closes(s: State, ch: Channel): nat {
    if ch in s.closes then s.closes[ch] else 0
  }

  function PcOf(s: State, ch: Channel): PumpPc {
    if ch in s.pumps then s.pumps[ch] else Returned
  }

  /** When an event can happen. Before the first Start a session pumps once on its own, to see
      whether the output works. A goroutine whose cancel channel is closed may still take
      the ticker branch of its select, as Go chooses among ready cases at random. */
  predicate Enabled(s: State, e: Event) {
    match e
    case StartCall => s.caller == Idle
    case Spawn => s.caller.Spawning?
    case StopCall => s.caller == Idle
    case Join => s.caller.Joining? && PcOf(s, s.caller.ch) == Returned
    case PanicAndReturn => s.caller == Panicking
    case PumpCall(_, _, _) => s.caller == Idle && s.made == 0
    case Frame(ch, _, _) => PcOf(s, ch) == AtFrame
    case NoFrame(ch) => PcOf(s, ch) == AtFrame
    case Tick(ch, _) => PcOf(s, ch) == AtTick
    case SeeCancel(ch) => PcOf(s, ch) == AtSelect && Closes(s, ch) > 0
    case SeeTicker(ch) => PcOf(s, ch) == AtSelect
  }

  /** The locked section of Start: a second Start changes nothing. */
  function Started(s: State): State {
    if s.running then s
    else s.(running := true, cancel := Some(s.made), made := s.made + 1, caller := Spawning(s.made))
  }

  /** The locked section of Stop: the cancel channel is taken out of the record and closed. */
  function Stopped(s: State): State {
    if !s.running then s.(caller := Panicking)
    else
      match s.cancel
      case None => s.(running := false, caller := Panicking)
      case Some(ch) =>
        s.(running := false, cancel := None, closes := s.closes[ch := Closes(s, ch) + 1], caller := Joining(ch))
  }

  function Moved(s: State, ch: Channel, pc: PumpPc): State {
    s.(pumps := s.pumps[ch := pc])
  }

  function Apply(env: Env, s: State, e: Event): State
    requires env.opt.maxSlew > 0.0
  {
    match e
    case StartCall => Started(s)
    case Spawn => if s.caller.Spawning? then Moved(s, s.caller.ch, AtFrame).(caller := Idle) else s
    case StopCall => Stopped(s)
    case Join => s.(caller := Panicking)
    case PanicAndReturn => s.(caller := Idle, out := AfterPanic(s.out, env.opt, env.accepts))
    case PumpCall(torque, setNow, tickNow) =>
      s.(out := AfterTick(if torque.Some? then AfterSetForce(s.out, env.opt, torque.value, setNow) else s.out, env.opt, tickNow))
    case Frame(ch, torque, now) => Moved(s, ch, AtTick).(out := AfterSetForce(s.out, env.opt, torque, now))
    case NoFrame(ch) => Moved(s, ch, AtTick)
    case Tick(ch, now) => Moved(s, ch, AtSelect).(out := AfterTick(s.out, env.opt, now))
    case SeeCancel(ch) => Moved(s, ch, Returned)
    case SeeTicker(ch) => Moved(s, ch, AtFrame)
  }

  function Initial(out: Output): State {
    State(false, None, 0, map[], map[], Idle, out)
  }

  ghost predicate Run(env: Env, s: State, events: seq<Event>)
    requires env.opt.maxSlew > 0.0
    decreases |events|
  {
    events != [] ==>
      var n := |events| - 1;
      Run(env, s, events[..n]) && Enabled(After(env, s, events[..n]), events[n])
  }

  function After(env: Env, s: State, events: seq<Event>): State
    requires env.opt.maxSlew > 0.0
  {
    if events == [] then s
    else Apply(env, After(env, s, events[..|events| - 1]), events[|events| - 1])
  }

  /** The lock-protected part of the engine as an object, its two critical sections proved
      to be the ones the transition system takes. */
  class LifecycleRecord {
    var running: bool
    var cancel: Option<Channel>
    var made: nat
    var closes: map<Channel, nat>

    ghost predicate Is(s: State) reads this {
      running == s.running && cancel == s.cancel && made == s.made && closes == s.closes
    }

    method StartLocked(ghost s: State) returns (started: bool)
      requires Is(s)
      modifies this
      ensures Is(Started(s)) && started == !old(running)
    {
      if running {
        return false;
      }
      running := true;
      cancel := Some(made);
      made := made + 1;
      return true;
    }

    /** Returns the channel whose done must be awaited, if the engine was running. */
    method StopLocked(ghost s: State) returns (join: Option<Channel>)
      requires Is(s)
      modifies this
      ensures Is(Stopped(s))
      ensures join == if old(running) then old(cancel) else None
    {
      join := None;
      if running {
        running := false;
        join := cancel;
        cancel := None;
        if join.Some? {
          var ch := join.value;
          closes := closes[ch := (if ch in closes then closes[ch] else 0) + 1];
        }
      }
    }
  }

  ghost predicate LastIsNeutral(out: Output) {
    out.attempts != [] && out.attempts[|out.attempts| - 1] == ConstantForce(NEUTRAL)
  }

  /** The session that may still be alive: the running one, or the one Stop waits for. */
  function Current(s: State): Option<Channel> {
    if s.caller.Joining? then Some(s.caller.ch) else if s.running then s.cancel else None
  }

  ghost predicate Inv(s: State) {
    && (s.running <==> s.cancel.Some?)
    && (s.cancel.Some? ==> s.cancel.value < s.made)
    // Every channel made is open while its session runs and is closed once afterwards.
    && (forall ch: nat :: Closes(s, ch) == if ch < s.made && s.cancel != Some(ch) then 1 else 0)
    // Only the current session's goroutine can be alive.
    && (forall ch: nat :: PcOf(s, ch) != Returned ==> Current(s) == Some(ch))
    && (s.caller.Joining? ==> !s.running && s.caller.ch < s.made)
    && (s.caller == Panicking ==> !s.running)
    && (s.caller.Spawning? ==> s.cancel == Some(s.caller.ch) && PcOf(s, s.caller.ch) == Returned)
    // Between calls a stopped engine that ever was started left neutral behind.
    && (s.caller == Idle && !s.running && s.made > 0 ==> s.out.force == 0.0 && LastIsNeutral(s.out))
  }

  lemma MovedPc(s: State, ch: Channel, pc: PumpPc)
    ensures forall c: nat :: PcOf(Moved(s, ch, pc), c) == (if c == ch then pc else PcOf(s, c))
    ensures forall c: nat :: Closes(Moved(s, ch, pc), c) == Closes(s, c)
  {
  }

  /** A goroutine that is alive may move anywhere and leave any output. */
  lemma PumpKeeps(s: State, ch: Channel, pc: PumpPc, out: Output)
    requires Inv(s) && PcOf(s, ch) != Returned
    ensures Inv(Moved(s, ch, pc).(out := out))
  {
    MovedPc(s, ch, pc);
    var s' := Moved(s, ch, pc).(out := out);
    assert forall c: nat :: PcOf(s', c) == PcOf(Moved(s, ch, pc), c) && Closes(s', c) == Closes(s, c);
    hide PcOf, Closes;
  }

  lemma SpawnKeeps(s: State)
    requires Inv(s) && s.caller.Spawning?
    ensures Inv(Moved(s, s.caller.ch, AtFrame).(caller := Idle))
  {
    MovedPc(s, s.caller.ch, AtFrame);
    var s' := Moved(s, s.caller.ch, AtFrame).(caller := Idle);
    assert forall c: nat :: PcOf(s', c) == PcOf(Moved(s, s.caller.ch, AtFrame), c) && Closes(s', c) == Closes(s, c);
    hide PcOf, Closes;
  }

  lemma StartKeeps(s: State)
    requires Inv(s) && s.caller == Idle
    ensures Inv(Started(s))
  {
    var s' := Started(s);
    assert forall c: nat :: PcOf(s', c) == PcOf(s, c) && Closes(s', c) == Closes(s, c);
    hide PcOf, Closes;
  }

  lemma StopKeeps(s: State)
    requires Inv(s) && s.caller == Idle
    ensures Inv(Stopped(s))
  {
    var s' := Stopped(s);
    assert forall c: nat :: PcOf(s', c) == PcOf(s, c);
    assert forall c: nat :: Closes(s', c) == Closes(s, c) + if s.running && s.cancel == Some(c) then 1 else 0;
    hide PcOf, Closes;
  }

  lemma JoinKeeps(s: State)
    requires Inv(s) && s.caller.Joining? && PcOf(s, s.caller.ch) == Returned
    ensures Inv(s.(caller := Panicking))
  {
    var s' := s.(caller := Panicking);
    assert forall c: nat :: PcOf(s', c) == PcOf(s, c) && Closes(s', c) == Closes(s, c);
    hide PcOf, Closes;
  }

  lemma PanicKeeps(s: State, out: Output)
    requires Inv(s) && s.caller == Panicking && out.force == 0.0 && LastIsNeutral(out)
    ensures Inv(s.(caller := Idle, out := out))
  {
    var s' := s.(caller := Idle, out := out);
    assert forall c: nat :: PcOf(s', c) == PcOf(s, c) && Closes(s', c) == Closes(s, c);
    hide PcOf, Closes;
  }

  lemma InvKept(env: Env, s: State, e: Event)
    requires env.opt.maxSlew > 0.0 && Inv(s) && Enabled(s, e)
    ensures Inv(Apply(env, s, e))
  {
    hide Inv, Closes, PcOf, Moved, AfterPanic, AfterSetForce, AfterTick, ConstantForce;
    match e {
      case StartCall => StartKeeps(s);
      case Spawn => SpawnKeeps(s);
      case StopCall => StopKeeps(s);
      case Join => JoinKeeps(s);
      case PanicAndReturn =>
        PanicReports(s.out, env.opt, env.accepts);
        PanicKeeps(s, AfterPanic(s.out, env.opt, env.accepts));
      case PumpCall(_, _, _) => OutputKeeps(s, Apply(env, s, e).out);
      case Frame(ch, torque, now) => PumpKeeps(s, ch, AtTick, AfterSetForce(s.out, env.opt, torque, now));
      case NoFrame(ch) => PumpKeeps(s, ch, AtTick, s.out); SameOutput(s, ch, AtTick);
      case Tick(ch, now) => PumpKeeps(s, ch, AtSelect, AfterTick(s.out, env.opt, now));
      case SeeCancel(ch) => PumpKeeps(s, ch, Returned, s.out); SameOutput(s, ch, Returned);
      case SeeTicker(ch) => PumpKeeps(s, ch, AtFrame, s.out); SameOutput(s, ch, AtFrame);
    }
  }

  lemma OutputKeeps(s: State, out: Output)
    requires Inv(s) && s.caller == Idle && s.made == 0
    ensures Inv(s.(out := out))
  {
    var s' := s.(out := out);
    assert forall c: nat :: PcOf(s', c) == PcOf(s, c) && Closes(s', c) == Closes(s, c);
    hide PcOf, Closes;
  }

  lemma SameOutput(s: State, ch: Channel, pc: PumpPc)
    ensures Moved(s, ch, pc).(out := s.out) == Moved(s, ch, pc)
  {
  }

  lemma {:induction false} InvHolds(env: Env, out: Output, events: seq<Event>)
    requires env.opt.maxSlew > 0.0 && Run(env, Initial(out), events)
    ensures Inv(After(env, Initial(out), events))
  {
    hide Inv, Apply, Enabled;
    if events == [] {
      InitialInv(out);
    } else {
      var n := |events| - 1;
      InvHolds(env, out, events[..n]);
      InvKept(env, After(env, Initial(out), events[..n]), events[n]);
    }
  }

  lemma InitialInv(out: Output)
    ensures Inv(Initial(out))
  {
  }

  /** In every run each cancel channel is closed at most once, none that is still running
      is, and no two pump goroutines are alive at once. */
  lemma ClosedAtMostOnce(env: Env, out: Output, events: seq<Event>, ch: Channel, ch': Channel)
    requires env.opt.maxSlew > 0.0 && Run(env, Initial(out), events)
    ensures var s := After(env, Initial(out), events);
            && Closes(s, ch) <= 1
            && (s.cancel == Some(ch) ==> Closes(s, ch) == 0)
            && (PcOf(s, ch) != Returned && PcOf(s, ch') != Returned ==> ch == ch')
  {
    InvHolds(env, out, events);
  }

  /** A Start of a running engine is a no-op: same state, and the caller is at once free again. */
  lemma SecondStartIsNoOp(env: Env, out: Output, events: seq<Event>)
    requires env.opt.maxSlew > 0.0 && Run(env, Initial(out), events)
    ensures var s := After(env, Initial(out), events);
            s.caller == Idle ==> (Apply(env, s, StartCall) == s <==> s.running)
  {
    InvHolds(env, out, events);
  }

  /** Whenever Stop returns, in any run, the last report attempted is neutral, no force is
      left, and every pump goroutine has returned. */
  lemma StopLeavesNeutral(env: Env, out: Output, events: seq<Event>)
    requires env.opt.maxSlew > 0.0 && Run(env, Initial(out), events)
    requires events != [] && events[|events| - 1] == PanicAndReturn
    ensures var s := After(env, Initial(out), events);
            && s.out.force == 0.0 && LastIsNeutral(s.out) && !s.running
            && forall ch: nat :: PcOf(s, ch) == Returned
  {
    var n := |events| - 1;
    InvHolds(env, out, events);
    InvHolds(env, out, events[..n]);
    PanicReports(After(env, Initial(out), events[..n]).out, env.opt, env.accepts);
  }

  predicate IsCall(e: Event) {
    e == StartCall || e == StopCall || e.PumpCall?
  }

  /** After Stop has returned nothing can happen, and so nothing is written, until the next
      call: there is no enabled event but a Start, a Stop or, if nothing was ever started, the
      caller's own pump. */
  lemma QuietAfterStop(env: Env, out: Output, events: seq<Event>, e: Event)
    requires env.opt.maxSlew > 0.0 && Run(env, Initial(out), events)
    requires events != [] && events[|events| - 1] == PanicAndReturn
    ensures var s := After(env, Initial(out), events);
            Enabled(s, e) ==>
              && IsCall(e)
              && (if e.PumpCall? then s.made == 0 else Apply(env, s, e).out == s.out)
  {
    StopLeavesNeutral(env, out, events);
    var n := |events| - 1;
    assert After(env, Initial(out), events).caller == Idle;
  }

  /** The events that take a cancelled goroutine from where it stands out of its select. */
  function WayOut(pc: PumpPc, ch: Channel): (exit: seq<Event>)
    ensures |exit| <= 3
  {
    match pc
    case AtFrame => [NoFrame(ch), Tick(ch, 0), SeeCancel(ch)]
    case AtTick => [Tick(ch, 0), SeeCancel(ch)]
    case AtSelect => [SeeCancel(ch)]
    case Returned => []
  }

  lemma RunExtends(env: Env, s: State, events: seq<Event>, e: Event)
    requires env.opt.maxSlew > 0.0 && Run(env, s, events) && Enabled(After(env, s, events), e)
    ensures Run(env, s, events + [e]) && After(env, s, events + [e]) == Apply(env, After(env, s, events), e)
  {
    assert (events + [e])[..|events|] == events;
  }

  /** The first of those events is enabled and leads one step closer. */
  lemma OneStepOut(env: Env, s: State, ch: Channel)
    requires env.opt.maxSlew > 0.0 && s.caller == Joining(ch) && Closes(s, ch) > 0 && PcOf(s, ch) != Returned
    ensures var exit := WayOut(PcOf(s, ch), ch);
            && Enabled(s, exit[0])
            && var s' := Apply(env, s, exit[0]);
            s'.caller == s.caller && Closes(s', ch) > 0 && WayOut(PcOf(s', ch), ch) == exit[1..]
  {
    hide AfterTick, AfterSetForce, AfterPanic;
  }

  lemma {:induction false} LetReturn(env: Env, s: State, events: seq<Event>, ch: Channel)
    requires env.opt.maxSlew > 0.0 && Run(env, s, events)
    requires var t := After(env, s, events); t.caller == Joining(ch) && Closes(t, ch) > 0
    ensures var exit := WayOut(PcOf(After(env, s, events), ch), ch);
            && Run(env, s, events + exit)
            && After(env, s, events + exit).caller == Joining(ch)
            && PcOf(After(env, s, events + exit), ch) == Returned
    decreases |WayOut(PcOf(After(env, s, events), ch), ch)|
  {
    hide Run, After, Apply, Enabled, PcOf, Closes;
    var t := After(env, s, events);
    var exit := WayOut(PcOf(t, ch), ch);
    if PcOf(t, ch) == Returned {
      assert events + exit == events;
    } else {
      OneStepOut(env, t, ch);
      RunExtends(env, s, events, exit[0]);
      LetReturn(env, s, events + [exit[0]], ch);
      assert events + [exit[0]] + exit[1..] == events + exit;
    }
  }

  /** Stop always gets through: a goroutine whose cancel channel is closed is at most three
      of its own steps from returning, after which Join and the panic complete the call. */
  lemma StopCanFinish(env: Env, out: Output, events: seq<Event>) returns (rest: seq<Event>)
    requires env.opt.maxSlew > 0.0 && Run(env, Initial(out), events)
    requires After(env, Initial(out), events).caller.Joining?
    ensures |rest| <= 5 && Run(env, Initial(out), events + rest)
    ensures rest != [] && rest[|rest| - 1] == PanicAndReturn
  {
    hide AfterTick, AfterSetForce, AfterPanic, Run, After;
    var s := After(env, Initial(out), events);
    InvHolds(env, out, events);
    var exit := WayOut(PcOf(s, s.caller.ch), s.caller.ch);
    LetReturn(env, Initial(out), events, s.caller.ch);
    RunExtends(env, Initial(out), events + exit, Join);
    RunExtends(env, Initial(out), events + exit + [Join], PanicAndReturn);
    rest := exit + [Join, PanicAndReturn];
    assert events + rest == events + exit + [Join] + [PanicAndReturn];
  }
}
