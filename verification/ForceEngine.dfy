/** The force-feedback engine's pump: at most one SetForce for a fresh source frame, then
    always one Tick. The laws here hold over whole runs of pumps. */
module ForceEngine {
  import opened Optional
  import opened GoMath
  import opened ForceCore
  import opened WheelOutputLayer

  /** One pump: the frame its source offered, if any, the gain in force, and the two
      clock readings it makes. */
  datatype Pump = Pump(frame: Option<ForceFrame>, gain: real, setNow: int, tickNow: int)

  function AfterPump(o: Output, opt: Options, p: Pump): Output
    requires opt.maxSlew > 0.0
  {
    AfterTick(
      if p.frame.Some? then AfterSetForce(o, opt, ResolveForceFrame(p.frame.value, p.gain), p.setNow) else o,
      opt, p.tickNow)
  }

  function AfterPumps(o: Output, opt: Options, ps: seq<Pump>): Output
    requires opt.maxSlew > 0.0
  {
    if ps == [] then o else AfterPump(AfterPumps(o, opt, ps[..|ps| - 1]), opt, ps[|ps| - 1])
  }

  class FFBEngine {
    const output: WheelOutput
    var masterGain: real
    var pumps: nat
    var sourceFrames: nat
    var lastFailed: bool

    ghost predicate Valid() reads this, output {
      output.Valid()
    }

    constructor (output: WheelOutput)
      requires output.Valid()
      ensures Valid() && this.output == output && masterGain == 1.0 && pumps == 0 && sourceFrames == 0
    {
      this.output := output;
      masterGain := 1.0;
      pumps, sourceFrames := 0, 0;
      lastFailed := false;
    }

    method SetMasterGain(gain: real)
      modifies this`masterGain
      ensures masterGain == gain
    {
      masterGain := gain;
    }

    /** `frame` is what the source's TryGetFrame returned; no source means no frame. */
    method PumpOnce(frame: Option<ForceFrame>, setNow: int, tickNow: int) returns (ok: bool)
      requires Valid()
      modifies this, output, output.transport
      ensures Valid() && masterGain == old(masterGain)
      ensures output.View() == AfterPump(old(output.View()), output.options, Pump(frame, masterGain, setNow, tickNow))
      ensures pumps == old(pumps) + 1
      ensures sourceFrames == old(sourceFrames) + if frame.Some? then 1 else 0
      ensures ok == !lastFailed
      ensures ok <==> AllAccepted(output.transport.accepts, |old(output.transport.attempts)|, |output.transport.attempts|)
    {
      hide StepToward, StepIsLimited, TorqueToWheelByte, ResolveForceFrame, ConstantForce;
      var gain := masterGain;
      ok := true;
      if frame.Some? {
        ok := output.SetForce(ResolveForceFrame(frame.value, gain), setNow);
      }
      var tickOk := output.Tick(tickNow);
      ok := ok && tickOk;
      pumps := pumps + 1;
      if frame.Some? {
        sourceFrames := sourceFrames + 1;
      }
      lastFailed := !ok;
    }
  }

  function FrameCount(ps: seq<Pump>): (n: nat)
    ensures n <= |ps|
  {
    if ps == [] then 0
    else FrameCount(ps[..|ps| - 1]) + if ps[|ps| - 1].frame.Some? then 1 else 0
  }

  /** A pure pump run attempts exactly one report per pump and one more per source frame. */
  lemma {:induction false} PumpRunWrites(o: Output, opt: Options, ps: seq<Pump>)
    requires opt.maxSlew > 0.0
    ensures var r := AfterPumps(o, opt, ps);
            && r.writes == o.writes + |ps| + FrameCount(ps)
            && |r.attempts| == |o.attempts| + |ps| + FrameCount(ps)
            && o.attempts <= r.attempts
  {
    hide StepToward, StepIsLimited, TorqueToWheelByte, ResolveForceFrame, ConstantForce;
    if ps != [] {
      PumpRunWrites(o, opt, ps[..|ps| - 1]);
    }
  }

  /** Clock readings never go back, within a pump or from one pump to the next. */
  ghost predicate MonotoneClock(ps: seq<Pump>) {
    && (forall i | 0 <= i < |ps| :: ps[i].setNow <= ps[i].tickNow)
    && (forall i, j | 0 <= i < j < |ps| :: ps[i].tickNow <= ps[j].setNow)
  }

  /** The force present after a run was put there by the SetForce the heartbeat records. */
  lemma {:induction false} ForceHasSource(o: Output, opt: Options, ps: seq<Pump>) returns (i: nat)
    requires opt.maxSlew > 0.0 && o.force == 0.0
    requires AfterPumps(o, opt, ps).force != 0.0
    ensures i < |ps| && ps[i].frame.Some? && AfterPumps(o, opt, ps).lastUpdate == ps[i].setNow
  {
    hide StepToward, StepIsLimited, TorqueToWheelByte, ResolveForceFrame, ConstantForce;
    var n := |ps| - 1;
    if ps[n].frame.Some? {
      i := n;
    } else {
      i := ForceHasSource(o, opt, ps[..n]);
    }
  }

  /** Dead man's rule: after any run from rest, if the last Tick reported anything but
      neutral then some SetForce happened within the watchdog time before it. */
  lemma DeadMansRule(o: Output, opt: Options, ps: seq<Pump>)
    requires opt.Valid() && o.force == 0.0 && ps != [] && MonotoneClock(ps)
    ensures var rs := AfterPumps(o, opt, ps).attempts;
            && rs != []
            && (ForceByteOf(rs[|rs| - 1]) != Some(NEUTRAL) ==>
                  exists i | 0 <= i < |ps| ::
                    ps[i].frame.Some? && 0 <= ps[|ps| - 1].tickNow - ps[i].setNow <= opt.watchdog)
  {
    hide StepToward, StepIsLimited, TorqueToWheelByte, ResolveForceFrame;
    var r := AfterPumps(o, opt, ps);
    assert r.attempts[|r.attempts| - 1] == ConstantForce(TorqueToWheelByte(r.force));
    WheelByteNeutral(r.force);
    if r.force != 0.0 {
      var i := ForceHasSource(o, opt, ps);
      assert ps[|ps| - 1].tickNow - r.lastUpdate <= opt.watchdog;
    }
  }

  ghost predicate Silent(ps: seq<Pump>) {
    forall i | 0 <= i < |ps| :: ps[i].frame.None?
  }

  ghost predicate Expires(o: Output, opt: Options, ps: seq<Pump>) {
    exists i | 0 <= i < |ps| :: ps[i].tickNow - o.lastUpdate > opt.watchdog
  }

  /** A stall, however long, trips the watchdog at most once, and exactly when it outlasts
      the watchdog with force still applied; from then on the force is gone. */
  lemma {:induction false} StallTripsOnce(o: Output, opt: Options, ps: seq<Pump>)
    requires opt.maxSlew > 0.0 && Silent(ps)
    ensures var r := AfterPumps(o, opt, ps);
            && r.watchdogTrips == o.watchdogTrips + (if o.force != 0.0 && Expires(o, opt, ps) then 1 else 0)
            && r.force == (if Expires(o, opt, ps) then 0.0 else o.force)
            && r.lastUpdate == o.lastUpdate
  {
    hide StepToward, StepIsLimited, TorqueToWheelByte, ResolveForceFrame, ConstantForce;
    if ps != [] {
      var n := |ps| - 1;
      StallTripsOnce(o, opt, ps[..n]);
      assert Expires(o, opt, ps) <==> Expires(o, opt, ps[..n]) || ps[n].tickNow - o.lastUpdate > opt.watchdog by {
        if Expires(o, opt, ps[..n]) {
          var i :| 0 <= i < n && ps[..n][i].tickNow - o.lastUpdate > opt.watchdog;
          assert ps[i].tickNow - o.lastUpdate > opt.watchdog;
        }
        if Expires(o, opt, ps) {
          var i :| 0 <= i < |ps| && ps[i].tickNow - o.lastUpdate > opt.watchdog;
          assert i < n ==> ps[..n][i].tickNow - o.lastUpdate > opt.watchdog;
        }
      }
    }
  }

  // ---- The slew laws, seen from the pump ----

  /** The torques a pump run asks for, one for each source frame. */
  function Torques(ps: seq<Pump>): (ts: seq<real>)
    ensures |ts| == FrameCount(ps)
  {
    if ps == [] then []
    else
      var p := ps[|ps| - 1];
      Torques(ps[..|ps| - 1]) + if p.frame.Some? then [ResolveForceFrame(p.frame.value, p.gain)] else []
  }

  /** A pump never takes a trip back. */
  lemma TripsGrow(o: Output, opt: Options, p: Pump)
    requires opt.maxSlew > 0.0
    ensures o.watchdogTrips <= AfterPump(o, opt, p).watchdogTrips
  {
    hide StepToward, StepIsLimited, TorqueToWheelByte, ResolveForceFrame, ConstantForce;
  }

  /** Without a trip a pump moves the force as its SetForce does, and each of its reports
      repeats the force of the moment. */
  lemma PumpWithoutTrip(o: Output, opt: Options, p: Pump)
    requires opt.maxSlew > 0.0 && AfterPump(o, opt, p).watchdogTrips == o.watchdogTrips
    ensures var r := AfterPump(o, opt, p);
            && r.force == (if p.frame.Some? then StepToward(o.force, ResolveForceFrame(p.frame.value, p.gain), opt.maxSlew) else o.force)
            && r.attempts == o.attempts + (if p.frame.Some? then [ForceReport(r.force), ForceReport(r.force)] else [ForceReport(r.force)])
  {
    hide StepToward, StepIsLimited, TorqueToWheelByte, ResolveForceFrame, ConstantForce;
  }

  function ForceReport(force: real): Report {
    ConstantForce(TorqueToWheelByte(force))
  }

  /** Two reports carry force bytes within one slew limit (and snap, and rounding) of each other. */
  ghost predicate WithinSlew(r: Report, r': Report, slew: real) {
    exists b: Byte, b': Byte ::
      r == ConstantForce(b) && r' == ConstantForce(b') && -StepBytes(slew) <= (b' - b) as real <= StepBytes(slew)
  }

  /** The most one call can move the byte. */
  function StepBytes(slew: real): real {
    127.0 * StepLimit(slew) + 1.0
  }

  /** The report before number i, or, for number n, the report of a given force. */
  function Before(force: real, rs: seq<Report>, n: nat, i: nat): Report
    requires i <= |rs|
  {
    if i <= n then ForceReport(force) else rs[i - 1]
  }

  /** Each report from number n on is within one slew limit of the one before it. */
  ghost predicate SmoothFrom(force: real, rs: seq<Report>, n: nat, slew: real) {
    forall i | n <= i < |rs| :: WithinSlew(Before(force, rs, n, i), rs[i], slew)
  }

  /** A pump run without a trip follows the law of SetForce runs: the same force as the bare
      sequence of its torques, and consecutive reports within one slew limit. */
  lemma {:induction false} PumpRunFollowsSlew(o: Output, opt: Options, ps: seq<Pump>)
    requires opt.maxSlew > 0.0 && -1.0 <= o.force <= 1.0
    requires AfterPumps(o, opt, ps).watchdogTrips == o.watchdogTrips
    ensures var r := AfterPumps(o, opt, ps);
            && r.force == ForceAfter(o.force, Torques(ps), opt.maxSlew) && -1.0 <= r.force <= 1.0
            && |o.attempts| <= |r.attempts|
            && SmoothFrom(o.force, r.attempts, |o.attempts|, opt.maxSlew)
            && Before(o.force, r.attempts, |o.attempts|, |r.attempts|) == ForceReport(r.force)
  {
    hide AfterPump, StepToward, ForceReport, SmoothFrom, Before, ForceAfter;
    if ps == [] {
      NothingYet(o.force, o.attempts, opt.maxSlew);
    } else {
      var n := |ps| - 1;
      TripsNeverFall(o, opt, ps[..n]);
      TripsGrow(AfterPumps(o, opt, ps[..n]), opt, ps[n]);
      PumpRunFollowsSlew(o, opt, ps[..n]);
      TorquesAndForce(o.force, ps, opt.maxSlew);
      PumpFollowsSlew(o.force, |o.attempts|, AfterPumps(o, opt, ps[..n]), opt, ps[n]);
    }
  }

  lemma NothingYet(force: real, rs: seq<Report>, slew: real)
    requires slew > 0.0
    ensures SmoothFrom(force, rs, |rs|, slew) && Before(force, rs, |rs|, |rs|) == ForceReport(force)
    ensures ForceAfter(force, [], slew) == force
  {
  }

  lemma PumpFollowsSlew(force: real, n: nat, o: Output, opt: Options, p: Pump)
    requires opt.maxSlew > 0.0 && -1.0 <= o.force <= 1.0 && n <= |o.attempts|
    ensures var r := AfterPump(o, opt, p);
            r.watchdogTrips == o.watchdogTrips && SmoothFrom(force, o.attempts, n, opt.maxSlew)
            && Before(force, o.attempts, n, |o.attempts|) == ForceReport(o.force) ==>
            && r.force == (if p.frame.Some? then StepToward(o.force, ResolveForceFrame(p.frame.value, p.gain), opt.maxSlew) else o.force)
            && -1.0 <= r.force <= 1.0 && n <= |r.attempts|
            && SmoothFrom(force, r.attempts, n, opt.maxSlew) && Before(force, r.attempts, n, |r.attempts|) == ForceReport(r.force)
  {
    hide AfterPump, StepToward, ForceReport, SmoothFrom, Before, WithinSlew, ResolveForceFrame;
    if AfterPump(o, opt, p).watchdogTrips != o.watchdogTrips {
      return;
    }
    PumpWithoutTrip(o, opt, p);
    if p.frame.Some? {
      StepMoves(o.force, ResolveForceFrame(p.frame.value, p.gain), opt.maxSlew);
    }
    var r := AfterPump(o, opt, p);
    var rs, report := o.attempts, ForceReport(r.force);
    assert Abs(r.force - o.force) < StepLimit(opt.maxSlew);
    OneStepSmooth(o.force, r.force, opt.maxSlew);
    OneStepSmooth(r.force, r.force, opt.maxSlew);
    SmoothAppend(force, rs, n, opt.maxSlew, report);
    SmoothAppend(force, rs + [report], n, opt.maxSlew, report);
    assert rs + [report, report] == rs + [report] + [report];
  }

  lemma SmoothAppend(force: real, rs: seq<Report>, n: nat, slew: real, r: Report)
    requires n <= |rs|
    ensures SmoothFrom(force, rs, n, slew) && WithinSlew(Before(force, rs, n, |rs|), r, slew) ==> SmoothFrom(force, rs + [r], n, slew)
    ensures Before(force, rs + [r], n, |rs| + 1) == r
  {
    hide WithinSlew, ForceReport, Before;
    BeforeAppend(force, rs, n, r, |rs|);
    if SmoothFrom(force, rs, n, slew) && WithinSlew(Before(force, rs, n, |rs|), r, slew) {
      forall i | n <= i < |rs| + 1
        ensures WithinSlew(Before(force, rs + [r], n, i), (rs + [r])[i], slew)
      {
        BeforeAppend(force, rs, n, r, i);
      }
    }
  }

  lemma BeforeAppend(force: real, rs: seq<Report>, n: nat, r: Report, i: nat)
    requires n <= |rs| && i <= |rs|
    ensures Before(force, rs + [r], n, i) == Before(force, rs, n, i)
    ensures Before(force, rs + [r], n, |rs| + 1) == r
  {
    hide ForceReport;
  }

  lemma {:induction false} TripsNeverFall(o: Output, opt: Options, ps: seq<Pump>)
    requires opt.maxSlew > 0.0
    ensures o.watchdogTrips <= AfterPumps(o, opt, ps).watchdogTrips
  {
    hide AfterPump;
    if ps != [] {
      TripsNeverFall(o, opt, ps[..|ps| - 1]);
      TripsGrow(AfterPumps(o, opt, ps[..|ps| - 1]), opt, ps[|ps| - 1]);
    }
  }

  lemma TorquesAndForce(force: real, ps: seq<Pump>, slew: real)
    requires slew > 0.0 && ps != []
    ensures var p, before := ps[|ps| - 1], ForceAfter(force, Torques(ps[..|ps| - 1]), slew);
            ForceAfter(force, Torques(ps), slew)
            == if p.frame.Some? then StepToward(before, ResolveForceFrame(p.frame.value, p.gain), slew) else before
  {
    var ts := Torques(ps);
    hide StepToward, ResolveForceFrame;
    assert if ps[|ps| - 1].frame.Some? then ts[..|ts| - 1] == Torques(ps[..|ps| - 1]) else ts == Torques(ps[..|ps| - 1]);
  }

  lemma OneStepSmooth(force: real, next: real, slew: real)
    requires slew > 0.0 && Abs(next - force) < StepLimit(slew)
    ensures WithinSlew(ForceReport(force), ForceReport(next), slew)
  {
    WheelByteLipschitz(next, force);
    var b, b' := TorqueToWheelByte(force), TorqueToWheelByte(next);
    assert 127.0 * Abs(next - force) <= 127.0 * StepLimit(slew);
    assert ForceReport(force) == ConstantForce(b) && ForceReport(next) == ConstantForce(b');
  }
}
