/** The wheel output layer: one current force, moved towards requested torques at a
    limited rate, centred by a watchdog when its source goes quiet, and ramped to
    neutral by Panic. Every change is followed by exactly one report attempt. */
module WheelOutputLayer {
  import opened GoMath
  import opened ForceCore

  // Times and durations are nanoseconds.
  datatype Options = Options(maxSlew: real, watchdog: int) {
    ghost predicate Valid() { maxSlew > 0.0 && watchdog > 0 }
  }

  /** The output's fields together with every report handed to the transport so far. */
  datatype Output = Output(
    force: real, lastUpdate: int, writes: nat, slewLimited: nat, watchdogTrips: nat, attempts: seq<Report>)

  const SNAP := 0.000000001            // 1e-9
  const LIMIT_SLACK := 0.000000000001  // 1e-12
  const MAX_PANIC_STEPS: nat := 100000

  function StepToward(force: real, torque: real, slew: real): (next: real)
    requires slew > 0.0
  {
    var target := Clamp(torque, -1.0, 1.0);
    var moved := force + Clamp(target - force, -slew, slew);
    if Abs(moved - target) < SNAP then target else moved
  }

  /** One step moves by less than this: the slew limit plus the snap distance. */
  function StepLimit(slew: real): real {
    slew + SNAP
  }

  predicate StepIsLimited(force: real, torque: real, slew: real) {
    Abs(Clamp(torque, -1.0, 1.0) - force) > slew + LIMIT_SLACK
  }

  function Wrote(o: Output, r: Report): Output {
    o.(writes := o.writes + 1, attempts := o.attempts + [r])
  }

  function WroteForce(o: Output): Output {
    Wrote(o, ConstantForce(TorqueToWheelByte(o.force)))
  }

  function Stepped(o: Output, torque: real, slew: real): Output
    requires slew > 0.0
  {
    o.(force := StepToward(o.force, torque, slew),
       slewLimited := o.slewLimited + if StepIsLimited(o.force, torque, slew) then 1 else 0)
  }

  function AfterSetForce(o: Output, opt: Options, torque: real, now: int): Output
    requires opt.maxSlew > 0.0
  {
    WroteForce(Stepped(o, torque, opt.maxSlew).(lastUpdate := now))
  }

  function AfterTick(o: Output, opt: Options, now: int): Output {
    WroteForce(
      if now - o.lastUpdate > opt.watchdog
      then o.(force := 0.0, watchdogTrips := o.watchdogTrips + if o.force != 0.0 then 1 else 0)
      else o)
  }

  /** The ramp of Panic from its i-th step on: step and report, until neutral, out of steps, or refused.
      `accepts(n)` says whether the transport takes the n-th report ever attempted. */
  function PanicRamp(o: Output, slew: real, accepts: nat -> bool, i: nat): Output
    requires slew > 0.0
    decreases MAX_PANIC_STEPS - i
  {
    if i >= MAX_PANIC_STEPS || o.force == 0.0 then o
    else
      var o' := WroteForce(Stepped(o, 0.0, slew));
      if accepts(|o.attempts|) then PanicRamp(o', slew, accepts, i + 1) else o'
  }

  function AfterPanic(o: Output, opt: Options, accepts: nat -> bool): Output
    requires opt.maxSlew > 0.0
  {
    WroteForce(PanicRamp(Wrote(o, STOP), opt.maxSlew, accepts, 0).(force := 0.0))
  }

  /** A sink that records what it is asked to write and refuses any attempts it likes. */
  class Transport {
    var attempts: seq<Report>
    const accepts: nat -> bool

    constructor (accepts: nat -> bool)
      ensures attempts == [] && this.accepts == accepts
    {
      this.accepts := accepts;
      attempts := [];
    }

    method Write(r: Report) returns (ok: bool)
      modifies this
      ensures attempts == old(attempts) + [r]
      ensures ok == accepts(|old(attempts)|)
    {
      ok := accepts(|attempts|);
      attempts := attempts + [r];
    }
  }

  class WheelOutput {
    const transport: Transport
    const options: Options
    var currentForce: real
    var lastUpdate: int
    var writes: nat
    var slewLimited: nat
    var watchdogTrips: nat
    var lastFailed: bool

    ghost predicate Valid() reads this {
      options.Valid() && -1.0 <= currentForce <= 1.0
    }

    ghost function View(): Output reads this, transport {
      Output(currentForce, lastUpdate, writes, slewLimited, watchdogTrips, transport.attempts)
    }

    constructor (transport: Transport, options: Options, now: int)
      requires options.Valid()
      ensures Valid() && this.transport == transport && this.options == options
      ensures View() == Output(0.0, now, 0, 0, 0, transport.attempts)
    {
      this.transport := transport;
      this.options := options;
      currentForce := 0.0;
      lastUpdate := now;
      writes, slewLimited, watchdogTrips := 0, 0, 0;
      lastFailed := false;
    }

    method StepTowardLocked(torque: real) returns (next: real)
      requires Valid()
      modifies this`slewLimited
      ensures next == StepToward(currentForce, torque, options.maxSlew)
      ensures slewLimited == Stepped(old(View()), torque, options.maxSlew).slewLimited
    {
      var target := Clamp(torque, -1.0, 1.0);
      var delta := Clamp(target - currentForce, -options.maxSlew, options.maxSlew);
      if Abs(target - currentForce) > options.maxSlew + LIMIT_SLACK {
        slewLimited := slewLimited + 1;
      }
      next := currentForce + delta;
      if Abs(next - target) < SNAP {
        return target;
      }
    }

    method WriteLocked(r: Report) returns (ok: bool)
      modifies this`writes, this`lastFailed, transport
      ensures View() == Wrote(old(View()), r)
      ensures ok == transport.accepts(|old(transport.attempts)|) && lastFailed == !ok
    {
      ok := transport.Write(r);
      writes := writes + 1;
      lastFailed := !ok;
    }

    method SetForce(torque: real, now: int) returns (ok: bool)
      requires Valid()
      modifies this, transport
      ensures Valid() && View() == AfterSetForce(old(View()), options, torque, now)
      ensures ok == transport.accepts(|old(transport.attempts)|) && lastFailed == !ok
    {
      StepStaysBetween(currentForce, torque, options.maxSlew);
      currentForce := StepTowardLocked(torque);
      lastUpdate := now;
      ok := WriteLocked(ConstantForce(TorqueToWheelByte(currentForce)));
    }

    method Tick(now: int) returns (ok: bool)
      requires Valid()
      modifies this, transport
      ensures Valid() && View() == AfterTick(old(View()), options, now)
      ensures ok == transport.accepts(|old(transport.attempts)|) && lastFailed == !ok
    {
      if now - lastUpdate > options.watchdog {
        if currentForce != 0.0 {
          watchdogTrips := watchdogTrips + 1;
        }
        currentForce := 0.0;
      }
      ok := WriteLocked(ConstantForce(TorqueToWheelByte(currentForce)));
    }

    method RampStepLocked() returns (ok: bool)
      requires Valid()
      modifies this, transport
      ensures Valid() && View() == WroteForce(Stepped(old(View()), 0.0, options.maxSlew))
      ensures ok == transport.accepts(|old(transport.attempts)|) && lastFailed == !ok
    {
      StepStaysBetween(currentForce, 0.0, options.maxSlew);
      currentForce := StepTowardLocked(0.0);
      ok := WriteLocked(ConstantForce(TorqueToWheelByte(currentForce)));
    }

    /** The loop of Panic: terminates for every positive slew and every pattern of refusals. */
    method RampLocked() returns (ok: bool)
      requires Valid()
      modifies this, transport
      ensures Valid() && View() == PanicRamp(old(View()), options.maxSlew, transport.accepts, 0)
      ensures |old(transport.attempts)| <= |transport.attempts|
      ensures ok <==> AllAccepted(transport.accepts, |old(transport.attempts)|, |transport.attempts|)
    {
      hide TorqueToWheelByte, ConstantForce, StepToward, StepIsLimited, AllAccepted;
      ghost var first, goal := |transport.attempts|, PanicRamp(View(), options.maxSlew, transport.accepts, 0);
      AllAcceptedExtends(transport.accepts, first, first);
      var i := 0;
      ok := true;
      while i < MAX_PANIC_STEPS && currentForce != 0.0 && ok
        invariant Valid() && 0 <= i <= MAX_PANIC_STEPS && first <= |transport.attempts|
        invariant goal == if ok then PanicRamp(View(), options.maxSlew, transport.accepts, i) else View()
        invariant ok <==> AllAccepted(transport.accepts, first, |transport.attempts|)
        decreases MAX_PANIC_STEPS - i
      {
        AllAcceptedExtends(transport.accepts, first, |transport.attempts|);
        ok := RampStepLocked();
        i := i + 1;
      }
    }

    /** The result says whether each of its reports was accepted. */
    method Panic() returns (ok: bool)
      requires Valid()
      modifies this, transport
      ensures Valid() && View() == AfterPanic(old(View()), options, transport.accepts)
      ensures ok <==> AllAccepted(transport.accepts, |old(transport.attempts)|, |transport.attempts|)
    {
      hide TorqueToWheelByte, ConstantForce, PanicRamp;
      var stopOk := WriteLocked(STOP);
      var rampOk := RampLocked();
      currentForce := 0.0;
      var lastOk := WriteLocked(ConstantForce(TorqueToWheelByte(currentForce)));
      ok := stopOk && rampOk && lastOk;
    }
  }

  ghost predicate AllAccepted(accepts: nat -> bool, lo: nat, hi: nat) {
    forall n: nat | lo <= n < hi :: accepts(n)
  }

  lemma AllAcceptedExtends(accepts: nat -> bool, lo: nat, hi: nat)
    requires lo <= hi
    ensures AllAccepted(accepts, lo, lo)
    ensures AllAccepted(accepts, lo, hi + 1) <==> AllAccepted(accepts, lo, hi) && accepts(hi)
  {
  }

  // ---- One step ----

  /** A step never leaves the span between the current force and the clamped target. */
  lemma StepStaysBetween(force: real, torque: real, slew: real)
    requires slew > 0.0
    ensures var t, next := Clamp(torque, -1.0, 1.0), StepToward(force, torque, slew);
            if force <= t then force <= next <= t else t <= next <= force
  {
  }

  /** A step moves by less than the slew limit plus the snap distance, and the byte
      reported after it by at most 127 times that, plus one for rounding. */
  lemma StepWithinSlew(force: real, torque: real, slew: real)
    requires slew > 0.0
    requires -1.0 <= force <= 1.0
    ensures Abs(StepToward(force, torque, slew) - force) < StepLimit(slew)
    ensures Abs((TorqueToWheelByte(StepToward(force, torque, slew)) - TorqueToWheelByte(force)) as real)
            <= 127.0 * StepLimit(slew) + 1.0
  {
    WheelByteLipschitz(StepToward(force, torque, slew), force);
  }

  /** A step counts as limited exactly if it does not arrive, or arrives by the snap from
      beyond the slew limit (by more than rounding noise). */
  lemma LimitedIff(force: real, torque: real, slew: real)
    requires slew > 0.0
    ensures var d := Abs(Clamp(torque, -1.0, 1.0) - force);
            StepIsLimited(force, torque, slew) <==>
              StepToward(force, torque, slew) != Clamp(torque, -1.0, 1.0) || slew + 0.000000000001 < d < slew + 0.000000001
  {
  }

  // ---- Whole runs of SetForce ----

  /** The force after a run of SetForce calls with the given torques and no watchdog trip. */
  function ForceAfter(force: real, torques: seq<real>, slew: real): (r: real)
    requires slew > 0.0
  {
    if torques == [] then force
    else StepToward(ForceAfter(force, torques[..|torques| - 1], slew), torques[|torques| - 1], slew)
  }

  /** k calls move the force by at most k step limits. */
  lemma {:induction false} RunWithinSlew(force: real, torques: seq<real>, slew: real)
    requires slew > 0.0 && -1.0 <= force <= 1.0
    ensures -1.0 <= ForceAfter(force, torques, slew) <= 1.0
    ensures Abs(ForceAfter(force, torques, slew) - force) <= |torques| as real * StepLimit(slew)
  {
    hide StepToward, StepLimit;
    var n := |torques| - 1;
    if torques == [] {
      assert 0.0 * StepLimit(slew) == 0.0;
    } else {
      var before := ForceAfter(force, torques[..n], slew);
      RunWithinSlew(force, torques[..n], slew);
      StepMoves(before, torques[n], slew);
      OneMoreStep(force, before, StepToward(before, torques[n], slew), n, StepLimit(slew));
    }
  }

  lemma OneMoreStep(a: real, b: real, c: real, n: nat, s: real)
    requires Abs(b - a) <= n as real * s && Abs(c - b) < s
    ensures Abs(c - a) <= (n + 1) as real * s
  {
    OneMore(n, s);
    assert Abs(c - a) <= Abs(b - a) + Abs(c - b);
  }

  lemma StepMoves(force: real, torque: real, slew: real)
    requires slew > 0.0 && -1.0 <= force <= 1.0
    ensures -1.0 <= StepToward(force, torque, slew) <= 1.0
    ensures Abs(StepToward(force, torque, slew) - force) < StepLimit(slew)
  {
  }

  lemma OneMore(n: nat, s: real)
    ensures (n + 1) as real * s == n as real * s + s
    ensures n == 0 ==> n as real * s == 0.0
    ensures n >= 1 && s > 0.0 ==> s <= n as real * s
  {
    assert (n + 1) as real == n as real + 1.0;
    if n >= 1 && s > 0.0 {
      ScaledOrder(1, n, s);
    }
  }

  /** k calls with one constant torque. */
  function Repeat(torque: real, k: nat): seq<real> {
    seq(k, _ => torque)
  }

  function Distance(force: real, torque: real): real {
    Abs(Clamp(torque, -1.0, 1.0) - force)
  }

  /** With a constant torque the distance shrinks by the slew limit on every call, and
      the target is hit, exactly, once less than the snap distance would remain. */
  lemma {:induction false} ConstantTorqueRun(force: real, torque: real, slew: real, k: nat)
    requires slew > 0.0
    ensures var d, f := Distance(force, torque), ForceAfter(force, Repeat(torque, k), slew);
            if k == 0 then f == force
            else if d < k as real * slew + SNAP then f == Clamp(torque, -1.0, 1.0)
            else Distance(f, torque) == d - k as real * slew
  {
    hide StepToward;
    if k > 0 {
      ConstantTorqueRun(force, torque, slew, k - 1);
      assert Repeat(torque, k)[..k - 1] == Repeat(torque, k - 1);
      OneMore(k - 1, slew);
      StepDistance(ForceAfter(force, Repeat(torque, k - 1), slew), torque, slew);
    }
  }

  /** One call either arrives or brings the target closer by exactly the slew limit. */
  lemma StepDistance(force: real, torque: real, slew: real)
    requires slew > 0.0
    ensures var d, next := Distance(force, torque), StepToward(force, torque, slew);
            if d < slew + SNAP then next == Clamp(torque, -1.0, 1.0) else Distance(next, torque) == d - slew
  {
  }

  /** Arrival, both ways: for k >= 1 the k-th call has reached the target exactly when
      k slew limits and the snap distance cover the way; once there, it stays. */
  lemma ReachedIff(force: real, torque: real, slew: real, k: nat)
    requires slew > 0.0 && k >= 1
    ensures ForceAfter(force, Repeat(torque, k), slew) == Clamp(torque, -1.0, 1.0)
            <==> Distance(force, torque) < k as real * slew + SNAP
    ensures ForceAfter(force, Repeat(torque, k), slew) == Clamp(torque, -1.0, 1.0)
            ==> ForceAfter(force, Repeat(torque, k + 1), slew) == Clamp(torque, -1.0, 1.0)
  {
    ConstantTorqueRun(force, torque, slew, k);
    assert Repeat(torque, k + 1)[..k] == Repeat(torque, k);
  }

  /** n == ceil(d / slew), for a positive distance d. */
  ghost predicate CeilOfQuotient(n: nat, d: real, slew: real) {
    n >= 1 && (n - 1) as real * slew < d <= n as real * slew
  }

  /** The first call to reach a target at distance d > 0 is number ceil(d / slew) exactly
      when the last, partial step is at least the snap distance (or is the only one). */
  lemma FirstArrivalIsCeil(force: real, torque: real, slew: real, n: nat)
    requires slew > 0.0 && CeilOfQuotient(n, Distance(force, torque), slew)
    ensures ForceAfter(force, Repeat(torque, n), slew) == Clamp(torque, -1.0, 1.0)
    ensures n == 1 || SNAP <= Distance(force, torque) - (n - 1) as real * slew
            <==> forall k: nat | k < n :: ForceAfter(force, Repeat(torque, k), slew) != Clamp(torque, -1.0, 1.0)
  {
    hide StepToward, ForceAfter, Repeat;
    ReachedIff(force, torque, slew, n);
    if n > 1 { ReachedIff(force, torque, slew, n - 1); }
    NotYetThere(force, torque, slew);
    if n == 1 || SNAP <= Distance(force, torque) - (n - 1) as real * slew {
      forall k: nat | k < n
        ensures ForceAfter(force, Repeat(torque, k), slew) != Clamp(torque, -1.0, 1.0)
      {
        if k >= 1 {
          ReachedIff(force, torque, slew, k);
          ScaledOrder(k, n - 1, slew);
        }
      }
    }
  }

  /** No call, no move. */
  lemma NotYetThere(force: real, torque: real, slew: real)
    requires slew > 0.0 && Distance(force, torque) > 0.0
    ensures ForceAfter(force, Repeat(torque, 0), slew) != Clamp(torque, -1.0, 1.0)
  {
  }

  lemma ScaledOrder(j: nat, k: nat, slew: real)
    requires slew > 0.0 && j <= k
    ensures j as real * slew <= k as real * slew
  {
  }

  /** The snap can save a call: 0.2 and a bit is reached in two calls of 0.1, not three. */
  lemma ArrivalBeforeCeil()
    ensures var d, slew := 0.2000000005, 0.1;
            && CeilOfQuotient(3, Distance(0.0, d), slew)
            && ForceAfter(0.0, Repeat(d, 2), slew) == d
  {
    ReachedIff(0.0, 0.2000000005, 0.1, 2);
  }

  // ---- Panic ----

  /** The forces reported by the ramp of Panic from its i-th step on, oldest first. */
  function RampForces(force: real, slew: real, accepts: nat -> bool, at: nat, i: nat): (ramp: seq<real>)
    requires slew > 0.0
    decreases MAX_PANIC_STEPS - i
  {
    if i >= MAX_PANIC_STEPS || force == 0.0 then []
    else
      var next := StepToward(force, 0.0, slew);
      [next] + if accepts(at) then RampForces(next, slew, accepts, at + 1, i + 1) else []
  }

  function ForceReports(forces: seq<real>): (rs: seq<Report>) {
    seq(|forces|, i requires 0 <= i < |forces| => ConstantForce(TorqueToWheelByte(forces[i])))
  }

  function Last(force: real, ramp: seq<real>): real {
    if ramp == [] then force else ramp[|ramp| - 1]
  }

  /** r is o after reporting the forces of a ramp; only the count of limited steps is left open. */
  ghost predicate Reported(o: Output, ramp: seq<real>, r: Output) {
    && r.attempts == o.attempts + ForceReports(ramp)
    && r.writes == o.writes + |ramp|
    && r.force == Last(o.force, ramp)
    && r.watchdogTrips == o.watchdogTrips && r.lastUpdate == o.lastUpdate
  }

  lemma NothingReported(o: Output)
    ensures Reported(o, [], o)
  {
    assert ForceReports([]) == [];
  }

  lemma ReportedCons(o: Output, next: real, limited: nat, rest: seq<real>, r: Output)
    requires Reported(WroteForce(o.(force := next, slewLimited := limited)), rest, r)
    ensures Reported(o, [next] + rest, r)
  {
    hide TorqueToWheelByte, ConstantForce, ForceReports;
    ForceReportsCons(next, rest);
  }

  lemma {:induction false} PanicRampReports(o: Output, slew: real, accepts: nat -> bool, i: nat)
    requires slew > 0.0 && i <= MAX_PANIC_STEPS
    ensures var ramp := RampForces(o.force, slew, accepts, |o.attempts|, i);
            |ramp| <= MAX_PANIC_STEPS - i && Reported(o, ramp, PanicRamp(o, slew, accepts, i))
    decreases MAX_PANIC_STEPS - i
  {
    hide StepToward, StepIsLimited, TorqueToWheelByte, ConstantForce, Reported;
    if i >= MAX_PANIC_STEPS || o.force == 0.0 {
      NothingReported(o);
    } else {
      var o' := WroteForce(Stepped(o, 0.0, slew));
      if accepts(|o.attempts|) {
        PanicRampReports(o', slew, accepts, i + 1);
        var rest := RampForces(o'.force, slew, accepts, |o'.attempts|, i + 1);
        ReportedCons(o, o'.force, o'.slewLimited, rest, PanicRamp(o', slew, accepts, i + 1));
      } else {
        NothingReported(o');
        ReportedCons(o, o'.force, o'.slewLimited, [], o');
      }
    }
  }

  lemma ForceReportsCons(f: real, rest: seq<real>)
    ensures ForceReports([f] + rest) == [ConstantForce(TorqueToWheelByte(f))] + ForceReports(rest)
  {
    hide TorqueToWheelByte, ConstantForce;
  }

  /** What Panic puts on the wire for every pattern of refusals: Stop, then the ramp, then
      neutral; it leaves no force behind. */
  lemma PanicReports(o: Output, opt: Options, accepts: nat -> bool)
    requires opt.maxSlew > 0.0
    ensures var ramp := RampForces(o.force, opt.maxSlew, accepts, |o.attempts| + 1, 0);
            && |ramp| <= MAX_PANIC_STEPS
            && AfterPanic(o, opt, accepts).attempts
               == o.attempts + [STOP] + ForceReports(ramp) + [ConstantForce(NEUTRAL)]
            && AfterPanic(o, opt, accepts).writes == o.writes + |ramp| + 2
            && AfterPanic(o, opt, accepts).force == 0.0
  {
    PanicRampReports(Wrote(o, STOP), opt.maxSlew, accepts, 0);
    WheelByteNeutral(0.0);
  }

  /** From a to b: towards neutral without crossing it, by less than the (snapped) slew limit. */
  ghost predicate SmoothStep(a: real, b: real, slew: real) {
    && (if 0.0 <= a then 0.0 <= b <= a else a <= b <= 0.0)
    && Abs(b - a) < StepLimit(slew)
  }

  /** Every step of the path force, ramp[0], ramp[1], ... is smooth. */
  ghost predicate RampSmooth(force: real, ramp: seq<real>, slew: real)
    decreases |ramp|
  {
    ramp != [] ==> SmoothStep(force, ramp[0], slew) && RampSmooth(ramp[0], ramp[1..], slew)
  }

  /** Under every pattern of refusals the ramp heads monotonically for neutral and no
      two successive forces in it differ by more than the (snapped) slew limit. */
  lemma {:induction false} RampIsSmooth(force: real, slew: real, accepts: nat -> bool, at: nat, i: nat)
    requires slew > 0.0
    ensures RampSmooth(force, RampForces(force, slew, accepts, at, i), slew)
    decreases MAX_PANIC_STEPS - i
  {
    if i < MAX_PANIC_STEPS && force != 0.0 {
      var next := StepToward(force, 0.0, slew);
      var rest := if accepts(at) then RampForces(next, slew, accepts, at + 1, i + 1) else [];
      if accepts(at) {
        RampIsSmooth(next, slew, accepts, at + 1, i + 1);
      }
      assert SmoothStep(force, next, slew);
      assert ([next] + rest)[1..] == rest;
    }
  }

  /** The transport takes the next r ramp reports and refuses the one after, if the ramp can
      get that far. */
  ghost predicate FirstRefusal(accepts: nat -> bool, at: nat, i: nat, r: nat) {
    (forall n: nat | at <= n < at + r :: accepts(n)) && (i + r >= MAX_PANIC_STEPS || !accepts(at + r))
  }

  /** Every transport has such a number. */
  lemma SomeRefusal(accepts: nat -> bool, at: nat, taken: nat) returns (r: nat)
    requires forall n: nat | at <= n < at + taken :: accepts(n)
    ensures FirstRefusal(accepts, at, 0, r)
    decreases MAX_PANIC_STEPS - taken
  {
    if taken >= MAX_PANIC_STEPS || !accepts(at + taken) {
      r := taken;
    } else {
      r := SomeRefusal(accepts, at, taken + 1);
    }
  }

  /** The steps a ramp may take by then: a refused report is still a step. */
  function StepsByThen(i: nat, r: nat): (k: nat)
    requires i <= MAX_PANIC_STEPS
  {
    if i + r < MAX_PANIC_STEPS then r + 1 else MAX_PANIC_STEPS - i
  }

  /** Where a ramp ends: at neutral if the steps it may take cover the way, and otherwise short
      of it by exactly what is missing. */
  lemma {:induction false} RampEnd(force: real, slew: real, accepts: nat -> bool, at: nat, i: nat, r: nat)
    requires slew > 0.0 && i <= MAX_PANIC_STEPS && FirstRefusal(accepts, at, i, r)
    ensures var e, k := Last(force, RampForces(force, slew, accepts, at, i)), StepsByThen(i, r);
            if force == 0.0 || (k > 0 && Abs(force) < Steps(k, slew) + SNAP) then e == 0.0
            else Abs(e) == Abs(force) - Steps(k, slew)
    decreases MAX_PANIC_STEPS - i
  {
    hide StepToward, Steps, Last;
    StepsGrow(StepsByThen(i, r), slew);
    assert Last(force, []) == force by { LastOfNone(force); }
    if i < MAX_PANIC_STEPS && force != 0.0 {
      var next := StepToward(force, 0.0, slew);
      StepDistance(force, 0.0, slew);
      if accepts(at) {
        var left := if r > 0 then r - 1 else 0;
        StepsGrow(StepsByThen(i + 1, left), slew);
        RampEnd(next, slew, accepts, at + 1, i + 1, left);
        LastOfCons(force, next, RampForces(next, slew, accepts, at + 1, i + 1));
      } else {
        StepsGrow(0, slew);
        LastOfCons(force, next, []);
        assert Last(next, []) == next by { LastOfNone(next); }
      }
    }
  }

  function Steps(k: nat, slew: real): real {
    k as real * slew
  }

  lemma StepsGrow(k: nat, slew: real)
    requires slew > 0.0
    ensures Steps(0, slew) == 0.0 && Steps(k, slew) >= 0.0
    ensures k > 0 ==> Steps(k, slew) == Steps(k - 1, slew) + slew
  {
    if k > 0 { OneMore(k - 1, slew); }
  }

  lemma LastOfCons(force: real, next: real, rest: seq<real>)
    ensures Last(force, [next] + rest) == Last(next, rest)
  {
  }

  lemma LastOfNone(force: real)
    ensures Last(force, []) == force
  {
  }

  /** The final, unconditional neutral report is itself no jump exactly when the steps the
      ramp may take before the first refusal, and one more, cover the way to neutral. When
      nothing is refused these are 100001, and a slew of 1e-5 is always enough. */
  lemma PanicNeverJumps(o: Output, opt: Options, accepts: nat -> bool, r: nat)
    requires opt.maxSlew > 0.0 && -1.0 <= o.force <= 1.0 && FirstRefusal(accepts, |o.attempts| + 1, 0, r)
    ensures var ramp := RampForces(o.force, opt.maxSlew, accepts, |o.attempts| + 1, 0);
            RampSmooth(o.force, ramp + [0.0], opt.maxSlew)
            <==> Abs(o.force) < Steps(StepsByThen(0, r) + 1, opt.maxSlew) + SNAP
    ensures MAX_PANIC_STEPS <= r ==> StepsByThen(0, r) + 1 == 100001
    ensures MAX_PANIC_STEPS <= r && 0.00001 <= opt.maxSlew ==> Abs(o.force) < Steps(StepsByThen(0, r) + 1, opt.maxSlew) + SNAP
  {
    var slew, at, k := opt.maxSlew, |o.attempts| + 1, StepsByThen(0, r);
    var ramp := RampForces(o.force, slew, accepts, at, 0);
    RampIsSmooth(o.force, slew, accepts, at, 0);
    RampEnd(o.force, slew, accepts, at, 0, r);
    SmoothWithNeutral(o.force, ramp, slew);
    StepsGrow(k, slew);
    StepsGrow(k + 1, slew);
    EnoughSteps(k + 1, slew);
    hide RampSmooth, RampForces, Steps, Last, FirstRefusal;
  }

  lemma EnoughSteps(k: nat, slew: real)
    ensures k >= 100001 && slew >= 0.00001 ==> Steps(k, slew) > 1.0
    ensures k >= 334 && slew >= 0.003 ==> Steps(k, slew) > 1.0
  {
    if slew >= 0.003 && k >= 334 {
      ScaledOrder(334, k, slew);
    }
    if slew >= 0.00001 && k >= 100001 {
      ScaledOrder(100001, k, slew);
    }
  }

  lemma {:induction false} SmoothWithNeutral(force: real, ramp: seq<real>, slew: real)
    requires slew > 0.0 && RampSmooth(force, ramp, slew)
    ensures RampSmooth(force, ramp + [0.0], slew) <==> Abs(Last(force, ramp)) < StepLimit(slew)
    decreases |ramp|
  {
    if ramp == [] {
      assert ([0.0])[1..] == [];
    } else {
      SmoothWithNeutral(ramp[0], ramp[1..], slew);
      assert (ramp + [0.0])[1..] == ramp[1..] + [0.0];
    }
  }
}
