/** The UDP telemetry adapter: one read loop per session, each counting packets and keeping
    the latest frames under the adapter's lock, with Start and Stop swapping sessions. Calls
    come one after another; the loop of every session is interleaved freely with them. Each
    event below is one locked section, one channel operation or one socket call. */
module UdpAdapterLayer {
  import opened Optional

  /** The stop and done channels and the socket of one Start. */
  type Session = nat

  datatype Descriptor = Descriptor(id: string, game: string)

  /** A telemetry frame; the readings themselves do not matter here. A missing time is Go's
      zero time. */
  datatype Frame = Frame(adapter: string, game: string, receivedAt: Option<int>, readings: int)

  const NO_FRAME := Frame("", "", None, 0)
  const KEPT := 256
  const STALE_MS := 750

  datatype Health = Health(
    running: bool, packets: nat, frames: nat, invalid: nat, lastFrame: Option<int>)

  const STOPPED := Health(false, 0, 0, 0, None)

  /** What the adapter's lock protects. */
  datatype Record = Record(session: Option<Session>, health: Health, last: Frame, ring: seq<Frame>)

  /** The last n elements of a list. */
  function LastOf<T>(list: seq<T>, n: nat): seq<T> {
    if |list| <= n then list else list[|list| - n..]
  }

  function Stamped(desc: Descriptor, f: Frame, now: int): Frame {
    f.(adapter := desc.id, game := if f.game == "" then desc.game else f.game, receivedAt := Some(now))
  }

  function Installed(ch: Session): Record {
    Record(Some(ch), STOPPED.(running := true), NO_FRAME, [])
  }

  function Taken(r: Record): Record {
    r.(session := None, health := r.health.(running := false))
  }

  function Counted(r: Record): Record {
    r.(health := r.health.(packets := r.health.packets + 1))
  }

  function Refused(r: Record): Record {
    r.(health := r.health.(invalid := r.health.invalid + 1))
  }

  function Broken(r: Record): Record {
    r.(health := r.health.(running := false))
  }

  /** The section after the parser ran: nothing parsed, or a frame to stamp and keep. */
  function Judged(r: Record, desc: Descriptor, parsed: Option<Frame>, now: int): Record {
    match parsed
    case None => Refused(r)
    case Some(f) =>
      var stamped := Stamped(desc, f, now);
      Record(r.session,
             r.health.(frames := r.health.frames + 1, lastFrame := Some(now)),
             stamped,
             LastOf(r.ring + [stamped], KEPT))
  }

  /** The adapter as an object: its locked sections are the steps of the system below. */
  class UdpAdapter {
    const desc: Descriptor
    var session: Option<Session>
    var health: Health
    var last: Frame
    var ring: seq<Frame>

    function Value(): Record reads this {
      Record(session, health, last, ring)
    }

    constructor (desc: Descriptor)
      ensures this.desc == desc && Value() == Record(None, STOPPED, NO_FRAME, [])
    {
      this.desc := desc;
      session, health, last, ring := None, STOPPED, NO_FRAME, [];
    }

    method Install(ch: Session)
      modifies this
      ensures Value() == Installed(ch)
    {
      session := Some(ch);
      health := Health(true, 0, 0, 0, None);
      last := NO_FRAME;
      ring := [];
    }

    /** The session whose loop the caller must now end, if there is one. */
    method TakeSession() returns (taken: Option<Session>)
      modifies this
      ensures Value() == Taken(old(Value())) && taken == old(session)
    {
      taken := session;
      session := None;
      health := health.(running := false);
    }

    method CountPacket()
      modifies this
      ensures Value() == Counted(old(Value()))
    {
      health := health.(packets := health.packets + 1);
    }

    method RefusePacket()
      modifies this
      ensures Value() == Refused(old(Value()))
    {
      health := health.(invalid := health.invalid + 1);
    }

    method Judge(parsed: Option<Frame>, now: int)
      modifies this
      ensures Value() == Judged(old(Value()), desc, parsed, now)
    {
      if parsed == None {
        health := health.(invalid := health.invalid + 1);
      } else {
        var f := parsed.value.(adapter := desc.id, receivedAt := Some(now));
        if f.game == "" {
          f := f.(game := desc.game);
        }
        health := health.(frames := health.frames + 1, lastFrame := Some(now));
        last := f;
        ring := ring + [f];
        if |ring| > KEPT {
          ring := ring[|ring| - KEPT..];
        }
      }
    }

    method ReadFailed()
      modifies this
      ensures Value() == Broken(old(Value()))
    {
      health := health.(running := false);
    }

    method Snapshot(now: int) returns (seen: Health, latest: Frame, stale: bool)
      ensures seen == health && latest == last
      ensures stale <==> last.receivedAt.Some? && last.receivedAt.value < now - 750
    {
      stale := last.receivedAt != None && now - last.receivedAt.value > STALE_MS;
      return health, last, stale;
    }

    method RecentFrames() returns (frames: seq<Frame>)
      ensures frames == ring
    {
      return ring;
    }
  }

  /** Where a read loop stands: before its read, holding a counted packet read at a given
      time, past its last locked section, or gone with its done channel closed. */
  datatype LoopPc = Reading | Holding(now: int) | Leaving | Gone

  /** Where the caller stands: between calls, waiting for a loop in Stop (called alone or by
      Start), or in Start before the socket is bound. */
  datatype CallerPc = Idle | Waiting(ch: Session, starting: bool) | Binding

  /** `accepted` and `carried` are bookkeeping: the frames accepted since the last Start took
      effect, oldest first, and how many loops were holding a packet when it did. */
  datatype State = State(
    record: Record,
    loops: map<Session, LoopPc>,
    stopped: set<Session>,
    made: nat,
    caller: CallerPc,
    accepted: seq<Frame>,
    carried: nat)

  datatype Event =
    | StopCall
    | StartCall
    | LoopEnded
    | TimedOut
    | BindFailed
    | Bound
    | Arrived(ch: Session, now: int)
    | Foreign(ch: Session)
    | Decoded(ch: Session, parsed: Option<Frame>)
    | SocketFailed(ch: Session)
    | SawStop(ch: Session)
    | Ended(ch: Session)

  function PcOf(s: State, ch: Session): LoopPc {
    if ch in s.loops then s.loops[ch] else Gone
  }

  predicate Enabled(s: State, e: Event) {
    match e
    case StopCall => s.caller == Idle
    case StartCall => s.caller == Idle
    case LoopEnded => s.caller.Waiting? && PcOf(s, s.caller.ch) == Gone
    case TimedOut => s.caller.Waiting?
    case BindFailed => s.caller == Binding
    case Bound => s.caller == Binding
    case Arrived(ch, _) => PcOf(s, ch) == Reading
    case Foreign(ch) => PcOf(s, ch).Holding?
    case Decoded(ch, _) => PcOf(s, ch).Holding?
    case SocketFailed(ch) => PcOf(s, ch) == Reading
    case SawStop(ch) => PcOf(s, ch) == Reading && ch in s.stopped
    case Ended(ch) => PcOf(s, ch) == Leaving
  }

  /** The caller's place once its Stop is over, whatever that Stop returned. */
  function StopOver(starting: bool): CallerPc {
    if starting then Binding else Idle
  }

  function Take(s: State, starting: bool): State {
    match s.record.session
    case None => s.(record := Taken(s.record), caller := StopOver(starting))
    case Some(ch) =>
      s.(record := Taken(s.record), stopped := s.stopped + {ch}, caller := Waiting(ch, starting))
  }

  function Moved(s: State, ch: Session, pc: LoopPc): State {
    s.(loops := s.loops[ch := pc])
  }

  /** The loops that hold a packet they have counted and not yet judged. */
  function InHand(loops: map<Session, LoopPc>): set<Session> {
    set ch | ch in loops && loops[ch].Holding?
  }

  function Apply(desc: Descriptor, s: State, e: Event): State {
    match e
    case StopCall => Take(s, false)
    case StartCall => Take(s, true)
    case LoopEnded => if s.caller.Waiting? then s.(caller := StopOver(s.caller.starting)) else s
    case TimedOut => if s.caller.Waiting? then s.(caller := StopOver(s.caller.starting)) else s
    case BindFailed => s.(caller := Idle)
    case Bound =>
      Moved(s, s.made, Reading).(
        record := Installed(s.made), made := s.made + 1, caller := Idle,
        accepted := [], carried := |InHand(s.loops)|)
    case Arrived(ch, now) => Moved(s, ch, Holding(now)).(record := Counted(s.record))
    case Foreign(ch) => Moved(s, ch, Reading).(record := Refused(s.record))
    case Decoded(ch, parsed) =>
      var pc := PcOf(s, ch);
      if pc.Holding? then
        Moved(s, ch, Reading).(
          record := Judged(s.record, desc, parsed, pc.now),
          accepted := if parsed.Some? then s.accepted + [Stamped(desc, parsed.value, pc.now)] else s.accepted)
      else s
    case SocketFailed(ch) => Moved(s, ch, Leaving).(record := Broken(s.record))
    case SawStop(ch) => Moved(s, ch, Leaving)
    case Ended(ch) => Moved(s, ch, Gone)
  }

  const FRESH := State(Record(None, STOPPED, NO_FRAME, []), map[], {}, 0, Idle, [], 0)

  function After(desc: Descriptor, events: seq<Event>): State {
    if events == [] then FRESH
    else Apply(desc, After(desc, events[..|events| - 1]), events[|events| - 1])
  }

  ghost predicate Run(desc: Descriptor, events: seq<Event>)
    decreases |events|
  {
    events != [] ==>
      var n := |events| - 1;
      Run(desc, events[..n]) && Enabled(After(desc, events[..n]), events[n])
  }

  /** Every Stop, whether called alone or by Start, got its loop to end in time. */
  ghost predicate OnTime(events: seq<Event>) {
    TimedOut !in events
  }

  // ---- What holds in every run, timeouts included ----

  ghost predicate HistoryInv(desc: Descriptor, s: State) {
    && s.record.ring == LastOf(s.accepted, KEPT)
    && s.record.health.frames == |s.accepted|
    && s.record.last == (if s.accepted == [] then NO_FRAME else s.accepted[|s.accepted| - 1])
    && s.record.health.lastFrame == s.record.last.receivedAt
    && forall f <- s.accepted :: Signed(desc, f)
  }

  /** A frame that names its adapter and its time, and a game if the adapter has a default. */
  predicate Signed(desc: Descriptor, f: Frame) {
    f.adapter == desc.id && f.receivedAt.Some? && (desc.game != "" ==> f.game != "")
  }

  ghost predicate Balanced(s: State) {
    && s.record.health.packets + s.carried == s.record.health.frames + s.record.health.invalid + |InHand(s.loops)|
    && forall ch | ch in s.loops :: ch < s.made
  }

  lemma CutCommutes<T>(list: seq<T>, x: T, n: nat)
    requires n > 0
    ensures LastOf(LastOf(list, n) + [x], n) == LastOf(list + [x], n)
  {
  }

  lemma HistoryKept(desc: Descriptor, s: State, e: Event)
    requires HistoryInv(desc, s) && Enabled(s, e)
    ensures HistoryInv(desc, Apply(desc, s, e))
  {
    hide LastOf, InHand;
    if e.Decoded? && e.parsed.Some? {
      CutCommutes(s.accepted, Stamped(desc, e.parsed.value, PcOf(s, e.ch).now), KEPT);
    }
    assert LastOf<Frame>([], KEPT) == [] by { FewAreAll<Frame>([], KEPT); }
  }

  lemma FewAreAll<T>(list: seq<T>, n: nat)
    requires |list| <= n
    ensures LastOf(list, n) == list
  {
  }

  function One(pc: LoopPc): nat {
    if pc.Holding? then 1 else 0
  }

  lemma MoveInHand(s: State, ch: Session, pc: LoopPc)
    ensures |InHand(s.loops[ch := pc])| == |InHand(s.loops)| + One(pc) - One(PcOf(s, ch))
  {
    var rest := InHand(s.loops) - {ch};
    assert InHand(s.loops) == if PcOf(s, ch).Holding? then rest + {ch} else rest;
    assert InHand(s.loops[ch := pc]) == if pc.Holding? then rest + {ch} else rest;
  }

  lemma BalanceKept(desc: Descriptor, s: State, e: Event)
    requires Balanced(s) && Enabled(s, e)
    ensures Balanced(Apply(desc, s, e))
  {
    hide LastOf, InHand;
    match e {
      case Arrived(ch, now) => MoveInHand(s, ch, Holding(now));
      case Foreign(ch) => MoveInHand(s, ch, Reading);
      case Decoded(ch, _) => MoveInHand(s, ch, Reading);
      case SocketFailed(ch) => MoveInHand(s, ch, Leaving);
      case SawStop(ch) => MoveInHand(s, ch, Leaving);
      case Ended(ch) => MoveInHand(s, ch, Gone);
      case Bound => MoveInHand(s, s.made, Reading);
      case _ =>
    }
  }

  lemma {:induction false} AlwaysKept(desc: Descriptor, events: seq<Event>)
    requires Run(desc, events)
    ensures HistoryInv(desc, After(desc, events)) && Balanced(After(desc, events))
  {
    hide Apply, Enabled;
    if events == [] {
      FewAreAll<Frame>([], KEPT);
      assert InHand(FRESH.loops) == {};
    } else {
      var n := |events| - 1;
      AlwaysKept(desc, events[..n]);
      HistoryKept(desc, After(desc, events[..n]), events[n]);
      BalanceKept(desc, After(desc, events[..n]), events[n]);
    }
  }

  /** In every run, whatever timed out, the ring is exactly the last 256 frames accepted
      since the last Start, in order; `last` is its tail; and Frames counts them all. */
  lemma RingIsRecentHistory(desc: Descriptor, events: seq<Event>)
    requires Run(desc, events)
    ensures var s := After(desc, events);
            && |s.record.ring| == (if s.record.health.frames < 256 then s.record.health.frames else 256)
            && |s.record.ring| <= |s.accepted|
            && s.record.ring == s.accepted[|s.accepted| - |s.record.ring|..]
            && s.record.last == (if s.record.ring == [] then NO_FRAME else s.record.ring[|s.record.ring| - 1])
            && s.record.health.lastFrame == s.record.last.receivedAt
            && forall f <- s.record.ring :: Signed(desc, f)
  {
    hide Run, After;
    AlwaysKept(desc, events);
  }

  /** When no loop holds a packet, the packets counted are the frames and the invalid ones
      together exactly if no loop was holding one when the last Start reset the counters. */
  lemma CountersAddUpIff(desc: Descriptor, events: seq<Event>)
    requires Run(desc, events) && InHand(After(desc, events).loops) == {}
    ensures var s := After(desc, events); var h := s.record.health;
            h.packets == h.frames + h.invalid <==> s.carried == 0
  {
    AlwaysKept(desc, events);
  }

  // ---- What holds while no Stop times out ----

  /** The session that may still have a loop: the installed one or the one waited for. */
  function Current(s: State): Option<Session> {
    if s.caller.Waiting? then Some(s.caller.ch) else s.record.session
  }

  ghost predicate Owned(s: State) {
    && (forall ch: nat :: PcOf(s, ch) != Gone ==> Current(s) == Some(ch))
    && (s.caller.Waiting? ==> s.record.session == None)
    && (s.caller == Binding ==> s.record.session == None)
    && (s.record.session.Some? ==> s.record.session.value < s.made && s.record.session.value !in s.stopped)
    && (forall ch | ch in s.stopped :: ch < s.made)
    && s.carried == 0
    && (s.record.health.running <==>
          s.record.session.Some? && Live(PcOf(s, s.record.session.value)))
  }

  /** A loop that will read again. */
  predicate Live(pc: LoopPc) {
    pc == Reading || pc.Holding?
  }

  lemma OwnedKept(desc: Descriptor, s: State, e: Event)
    requires Owned(s) && Balanced(s) && Enabled(s, e) && e != TimedOut
    ensures Owned(Apply(desc, s, e))
  {
    hide LastOf;
    var s' := Apply(desc, s, e);
    match e {
      case Bound =>
        assert InHand(s.loops) == {} by {
          assert forall ch | ch in s.loops :: PcOf(s, ch) == Gone;
        }
        assert forall ch: nat | ch != s.made :: PcOf(s', ch) == PcOf(s, ch);
      case StopCall =>
      case StartCall =>
      case LoopEnded =>
      case BindFailed =>
      case Arrived(ch, _) => assert forall c: nat | c != ch :: PcOf(s', c) == PcOf(s, c);
      case Foreign(ch) => assert forall c: nat | c != ch :: PcOf(s', c) == PcOf(s, c);
      case Decoded(ch, _) => assert forall c: nat | c != ch :: PcOf(s', c) == PcOf(s, c);
      case SocketFailed(ch) => assert forall c: nat | c != ch :: PcOf(s', c) == PcOf(s, c);
      case SawStop(ch) => assert forall c: nat | c != ch :: PcOf(s', c) == PcOf(s, c);
      case Ended(ch) => assert forall c: nat | c != ch :: PcOf(s', c) == PcOf(s, c);
    }
  }

  lemma {:induction false} OwnedHolds(desc: Descriptor, events: seq<Event>)
    requires Run(desc, events) && OnTime(events)
    ensures Owned(After(desc, events))
  {
    hide Apply, Enabled, Owned, Balanced;
    if events == [] {
      FreshIsOwned();
    } else {
      var n := |events| - 1;
      assert events[n] != TimedOut;
      AlwaysKept(desc, events[..n]);
      OwnedHolds(desc, events[..n]);
      OwnedKept(desc, After(desc, events[..n]), events[n]);
    }
  }

  lemma FreshIsOwned()
    ensures Owned(FRESH)
  {
  }

  /** With every Stop in time, each packet counted is a frame or invalid, but for the one
      that the single live loop may be holding. */
  lemma PacketsAreAccountedFor(desc: Descriptor, events: seq<Event>)
    requires Run(desc, events) && OnTime(events)
    ensures var s := After(desc, events); var h := s.record.health;
            var holding := exists ch: nat :: PcOf(s, ch).Holding?;
            h.packets == h.frames + h.invalid + if holding then 1 else 0
  {
    AlwaysKept(desc, events);
    OwnedHolds(desc, events);
    var s := After(desc, events);
    if ch: nat :| PcOf(s, ch).Holding? {
      assert ch in InHand(s.loops);
      assert InHand(s.loops) == {ch} by {
        assert forall c | c in InHand(s.loops) :: PcOf(s, c) != Gone;
      }
    } else {
      assert InHand(s.loops) == {} by {
        assert forall ch | ch in s.loops :: !PcOf(s, ch).Holding?;
      }
    }
  }

  /** A frame as the parser returned it, and when its packet arrived. */
  datatype Parsed = Parsed(frame: Frame, at: int)

  /** What the events themselves say: the frames parsed since the last Start took effect, each
      with the time of the packet that arrived last before it. */
  function Told(events: seq<Event>): seq<Parsed> {
    if events == [] then []
    else
      var before := events[..|events| - 1];
      match events[|events| - 1]
      case Bound => []
      case Decoded(_, Some(f)) => Told(before) + [Parsed(f, LastArrival(before))]
      case _ => Told(before)
  }

  function LastArrival(events: seq<Event>): int {
    if events == [] then 0
    else if events[|events| - 1].Arrived? then events[|events| - 1].now
    else LastArrival(events[..|events| - 1])
  }

  /** A kept frame is the parsed one: its readings, its game unless it named none, this
      adapter's id, and the time its own packet arrived. */
  ghost predicate Keeps(desc: Descriptor, kept: Frame, p: Parsed) {
    && kept.readings == p.frame.readings
    && (p.frame.game != "" ==> kept.game == p.frame.game) && (p.frame.game == "" ==> kept.game == desc.game)
    && kept.adapter == desc.id && kept.receivedAt == Some(p.at)
  }

  ghost predicate KeepsAll(desc: Descriptor, kept: seq<Frame>, ps: seq<Parsed>) {
    |kept| == |ps| && forall i | 0 <= i < |kept| :: Keeps(desc, kept[i], ps[i])
  }

  /** With every Stop in time, the accepted frames are, one by one and field by field, the ones
      the events tell: no frame lost, repeated, reordered, altered or given another packet's
      time. */
  lemma {:induction false} HistoryIsTold(desc: Descriptor, events: seq<Event>)
    requires Run(desc, events) && OnTime(events)
    ensures KeepsAll(desc, After(desc, events).accepted, Told(events))
    ensures forall ch: nat :: PcOf(After(desc, events), ch).Holding? ==>
              PcOf(After(desc, events), ch).now == LastArrival(events)
  {
    if events != [] {
      var n := |events| - 1;
      HistoryIsTold(desc, events[..n]);
      OwnedHolds(desc, events[..n]);
      ToldStep(desc, After(desc, events[..n]), events[n], LastArrival(events[..n]), Told(events[..n]));
      hide KeepsAll, Owned;
    }
  }

  /** The frames a snapshot and the list of recent frames show are therefore the last parsed
      ones, field by field. */
  lemma ShownIsTold(desc: Descriptor, events: seq<Event>)
    requires Run(desc, events) && OnTime(events)
    ensures var r, told := After(desc, events).record, Told(events);
            && |r.ring| == (if |told| < 256 then |told| else 256)
            && KeepsAll(desc, r.ring, told[|told| - |r.ring|..])
            && (told != [] ==> Keeps(desc, r.last, told[|told| - 1]))
            && (told == [] ==> r.last == NO_FRAME)
  {
    hide Run, After, Keeps, KeepsAll, LastOf, Signed, Told, OnTime;
    var s := After(desc, events);
    HistoryIsTold(desc, events);
    RingIsRecentHistory(desc, events);
    FramesCounted(desc, events);
    TailKept(desc, s.accepted, Told(events), |s.record.ring|);
  }

  lemma FramesCounted(desc: Descriptor, events: seq<Event>)
    requires Run(desc, events)
    ensures After(desc, events).record.health.frames == |After(desc, events).accepted|
  {
    AlwaysKept(desc, events);
  }

  lemma TailKept(desc: Descriptor, kept: seq<Frame>, told: seq<Parsed>, k: nat)
    requires KeepsAll(desc, kept, told) && k <= |kept|
    ensures |kept| == |told| && KeepsAll(desc, kept[|kept| - k..], told[|told| - k..])
    ensures k > 0 ==> kept[|kept| - k..][k - 1] == kept[|kept| - 1] && Keeps(desc, kept[|kept| - 1], told[|told| - 1])
  {
    hide Keeps;
    var n := |kept| - k;
    assert forall i | 0 <= i < k :: kept[n..][i] == kept[n + i] && told[n..][i] == told[n + i];
  }

  /** With a single live loop, the only packet in hand is the one that arrived last. */
  lemma ToldStep(desc: Descriptor, s: State, e: Event, arrival: int, told: seq<Parsed>)
    requires Owned(s) && Enabled(s, e) && KeepsAll(desc, s.accepted, told)
    requires forall ch: nat :: PcOf(s, ch).Holding? ==> PcOf(s, ch).now == arrival
    ensures var s' := Apply(desc, s, e);
            && (forall ch: nat :: PcOf(s', ch).Holding? ==>
                  PcOf(s', ch).now == if e.Arrived? then e.now else arrival)
            && KeepsAll(desc, s'.accepted,
                        match e
                        case Bound => []
                        case Decoded(_, Some(f)) => told + [Parsed(f, arrival)]
                        case _ => told)
  {
    hide LastOf;
    if e.Arrived? {
      assert forall c: nat | c != e.ch :: PcOf(Apply(desc, s, e), c) == PcOf(s, c);
      assert forall c: nat | c != e.ch :: PcOf(s, c) == Gone;
    } else {
      forall c: nat | PcOf(Apply(desc, s, e), c).Holding?
        ensures PcOf(Apply(desc, s, e), c) == PcOf(s, c)
      {
      }
    }
  }

  /** With every Stop in time, the adapter reports itself running exactly while the session
      it has installed has a loop that will read again. */
  lemma RunningIffLoopAlive(desc: Descriptor, events: seq<Event>)
    requires Run(desc, events) && OnTime(events)
    ensures var s := After(desc, events);
            s.record.health.running <==> exists ch: nat :: s.record.session == Some(ch) && Live(PcOf(s, ch))
  {
    OwnedHolds(desc, events);
  }

  /** A call of Stop returns nil at the end of these events. */
  ghost predicate StopReturnedNil(desc: Descriptor, events: seq<Event>)
  {
    events != [] &&
    var before := After(desc, events[..|events| - 1]);
    match events[|events| - 1]
    case StopCall => before.record.session == None
    case LoopEnded => before.caller.Waiting? && !before.caller.starting
    case _ => false
  }

  /** The adapter at rest: no session, no loop, no call in progress. */
  ghost predicate AtRest(s: State) {
    && s.caller == Idle && s.record.session == None && !s.record.health.running
    && forall ch: nat :: PcOf(s, ch) == Gone
  }

  lemma StopRests(desc: Descriptor, events: seq<Event>)
    requires Run(desc, events) && OnTime(events) && StopReturnedNil(desc, events)
    ensures AtRest(After(desc, events))
  {
    hide LastOf, Judged;
    var n := |events| - 1;
    OwnedHolds(desc, events[..n]);
    OwnedHolds(desc, events);
  }

  lemma RestStays(desc: Descriptor, s: State, e: Event)
    requires AtRest(s) && Enabled(s, e) && e != StartCall
    ensures Apply(desc, s, e) == s
  {
  }

  /** Once a Stop has returned nil, nothing the adapter holds changes before the next Start,
      whatever else happens and however long, as long as no Stop up to then timed out. */
  lemma {:induction false} NothingChangesAfterStop(desc: Descriptor, events: seq<Event>, later: seq<Event>)
    requires Run(desc, events) && OnTime(events) && StopReturnedNil(desc, events)
    requires Run(desc, events + later) && StartCall !in later
    ensures After(desc, events + later) == After(desc, events)
    decreases |later|
  {
    hide Apply, Enabled, StopReturnedNil, OnTime, AtRest;
    StopRests(desc, events);
    if later == [] {
      assert events + later == events;
    } else {
      var n := |later| - 1;
      assert (events + later)[..|events| + n] == events + later[..n];
      NothingChangesAfterStop(desc, events, later[..n]);
      RestStays(desc, After(desc, events), later[n]);
    }
  }

  /** The events that take a loop which has been told to stop from where it stands to its end. */
  function WayOut(pc: LoopPc, ch: Session): (exit: seq<Event>)
    ensures |exit| <= 3
  {
    match pc
    case Holding(_) => [Foreign(ch), SawStop(ch), Ended(ch)]
    case Reading => [SawStop(ch), Ended(ch)]
    case Leaving => [Ended(ch)]
    case Gone => []
  }

  /** A Stop is heard: the session it takes is told to stop, and so at most three steps of that
      session's own loop from its end, after which the wait is over. */
  lemma StopCanFinish(desc: Descriptor, events: seq<Event>) returns (rest: seq<Event>)
    requires Run(desc, events) && After(desc, events).caller.Waiting?
    ensures |rest| <= 4 && Run(desc, events + rest) && rest != [] && rest[|rest| - 1] == LoopEnded
  {
    var ch := After(desc, events).caller.ch;
    WaitedIsStopped(desc, events);
    var exit := WayOut(PcOf(After(desc, events), ch), ch);
    LetEnd(desc, events, ch);
    hide Run, After, Apply, WayOut;
    var all := Extend(desc, events + exit, LoopEnded);
    rest := exit + [LoopEnded];
    assert events + rest == all;
  }

  /** Whoever waits for a session has told it to stop. */
  lemma {:induction false} WaitedIsStopped(desc: Descriptor, events: seq<Event>)
    requires Run(desc, events)
    ensures var s := After(desc, events); s.caller.Waiting? ==> s.caller.ch in s.stopped
  {
    hide Judged, LastOf, InHand;
    if events != [] {
      WaitedIsStopped(desc, events[..|events| - 1]);
    }
  }

  lemma {:induction false} LetEnd(desc: Descriptor, events: seq<Event>, ch: Session)
    requires Run(desc, events)
    requires var s := After(desc, events); ch in s.stopped && s.caller.Waiting? && s.caller.ch == ch
    ensures var exit := WayOut(PcOf(After(desc, events), ch), ch); var s' := After(desc, events + exit);
            Run(desc, events + exit) && s'.caller == After(desc, events).caller && PcOf(s', ch) == Gone
    decreases |WayOut(PcOf(After(desc, events), ch), ch)|
  {
    hide Run, After, Apply, Enabled, PcOf;
    var s := After(desc, events);
    var exit := WayOut(PcOf(s, ch), ch);
    if PcOf(s, ch) == Gone {
      assert events + exit == events;
    } else {
      OneStepOut(desc, s, ch);
      var more := Extend(desc, events, exit[0]);
      LetEnd(desc, more, ch);
      assert more + exit[1..] == events + exit;
    }
  }

  lemma OneStepOut(desc: Descriptor, s: State, ch: Session)
    requires ch in s.stopped && PcOf(s, ch) != Gone
    ensures var exit := WayOut(PcOf(s, ch), ch); var s' := Apply(desc, s, exit[0]);
            && Enabled(s, exit[0]) && s'.caller == s.caller && ch in s'.stopped
            && WayOut(PcOf(s', ch), ch) == exit[1..]
  {
    hide Judged, LastOf, InHand;
  }

  /** Where a timed-out Stop leads: the old loop counts a packet, Stop gives up on it, Start
      resets the counters on another port, and the old loop's verdict lands in the new
      session's books: one invalid packet out of none. */
  lemma OrphanSpoilsCounters(desc: Descriptor) returns (events: seq<Event>)
    ensures Run(desc, events) && !OnTime(events)
    ensures var h := After(desc, events).record.health;
            InHand(After(desc, events).loops) == {} && h.packets == 0 && h.invalid == 1
  {
    hide Run, After, Judged, LastOf, InHand;
    events := FirstSession(desc, 5);
    events := Extend(desc, events, StopCall);
    events := Extend(desc, events, TimedOut);
    assert events[|events| - 1] == TimedOut;
    events := Extend(desc, events, StartCall);
    events := Extend(desc, events, Bound);
    events := Extend(desc, events, Foreign(0));
    assert TimedOut in events;
    NobodyHolds(After(desc, events).loops);
  }

  lemma NobodyHolds(loops: map<Session, LoopPc>)
    requires forall ch | ch in loops :: loops[ch] == Reading
    ensures InHand(loops) == {}
  {
  }

  /** The first Start, whose loop then counts a packet. */
  lemma FirstSession(desc: Descriptor, now: int) returns (events: seq<Event>)
    ensures Run(desc, events)
    ensures var s := After(desc, events);
            && s.record == Counted(Installed(0)) && s.loops == map[0 := Holding(now)]
            && s.made == 1 && s.caller == Idle
  {
    hide Judged, LastOf, InHand;
    events := Extend(desc, [], StartCall);
    events := Extend(desc, events, Bound);
    hide Run, After;
    events := Extend(desc, events, Arrived(0, now));
  }

  lemma Extend(desc: Descriptor, events: seq<Event>, e: Event) returns (more: seq<Event>)
    requires Run(desc, events) && Enabled(After(desc, events), e)
    ensures more == events + [e] && Run(desc, more)
    ensures After(desc, more) == Apply(desc, After(desc, events), e)
  {
    more := events + [e];
    assert more[..|events|] == events;
  }
}
