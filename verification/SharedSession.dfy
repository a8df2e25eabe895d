/** The shared G27 HID session: one lock-protected record, changed by concurrent openers,
    one read loop per session, an output invalidator and a closer. Handles are closed
    outside the lock, and the operating system may hand a closed handle's number out again.
    Every open object gets a session number that is never reused; the code never sees it. */
module SharedSession {
  import opened Optional

  type Handle = int
  type Session = nat
  type Thread = nat

  const INVALID: Handle := -1
  const NO_PATH := ""

  /** An input report: the object it really came from, what it says, and whether it parses. */
  datatype Report = Report(session: Session, data: int, parses: bool)

  /** What a reader publishes: a report's session and contents, and the generation current
      when it was published. */
  datatype Sample = Sample(session: Session, generation: nat, data: int)

  /** The lock-protected record, as far as sessions depend on it. Times are nanoseconds. */
  datatype Record = Record(
    path: string, handle: Handle, generation: nat, latest: Option<Sample>, malformed: nat,
    nextOpen: int, failures: nat, reconnects: nat, everOpened: bool)

  predicate IsOpen(h: Handle) {
    h != 0 && h != INVALID
  }

  // ---- The critical sections ----

  /** 250 ms doubled with each failure in a row, at most 16-fold. */
  function Backoff(failures: nat): (delay: int)
    requires failures > 0
    ensures 250_000_000 <= delay <= 4_000_000_000
  {
    var shift := if failures - 1 > 4 then 4 else failures - 1;
    250_000_000 * [1, 2, 4, 8, 16][shift]
  }

  /** The delay starts at 250 ms, doubles with every further failure, and stays once at 4 s. */
  lemma BackoffDoubles(failures: nat)
    requires failures > 0
    ensures Backoff(1) == 250_000_000
    ensures Backoff(failures + 1) == if failures < 5 then 2 * Backoff(failures) else 4_000_000_000
  {
  }

  function OpenFailed(r: Record, now: int): Record {
    var delay := Backoff(r.failures + 1);
    r.(failures := r.failures + 1, nextOpen := now + if delay > 5_000_000_000 then 5_000_000_000 else delay)
  }

  function Installed(r: Record, path: string, h: Handle): Record {
    Record(path, h, r.generation + 1, None, 0, 0, 0, if r.everOpened then r.reconnects + 1 else r.reconnects, true)
  }

  predicate Matches(r: Record, path: string, h: Handle, generation: nat) {
    generation != 0 && r.generation == generation && r.handle == h && r.path == path
  }

  predicate ReaderMatches(r: Record, h: Handle, generation: nat) {
    r.generation == generation && r.handle == h
  }

  function Detached(r: Record, now: int): Record {
    r.(generation := r.generation + 1, handle := INVALID, path := NO_PATH,
       failures := r.failures + 1, nextOpen := now + Backoff(r.failures + 1))
  }

  function Closed(r: Record): Record {
    Record(NO_PATH, INVALID, r.generation + 1, None, 0, 0, 0, r.reconnects, false)
  }

  function Published(r: Record, sample: Sample): Record {
    r.(latest := Some(sample), malformed := 0)
  }

  function Connected(r: Record): bool {
    IsOpen(r.handle) && r.path != NO_PATH
  }

  /** A Found sample as readG27SharedInput would return it. */
  function FoundSample(r: Record): Option<Sample> {
    if Connected(r) then r.latest else None
  }

  function Healthy(r: Record, path: string, h: Handle, generation: nat): bool {
    Matches(r, path, h, generation) && IsOpen(h)
  }

  /** The record as an object: each method is one critical section. A returned handle is
      one the caller has claimed and must close. */
  class G27Shared {
    var path: string
    var handle: Handle
    var generation: nat
    var latest: Option<Sample>
    var malformed: nat
    var nextOpen: int
    var failures: nat
    var reconnects: nat
    var everOpened: bool

    ghost function View(): Record reads this {
      Record(path, handle, generation, latest, malformed, nextOpen, failures, reconnects, everOpened)
    }

    constructor ()
      ensures View() == Record(NO_PATH, INVALID, 0, None, 0, 0, 0, 0, false)
    {
      path, handle, generation, latest, malformed := NO_PATH, INVALID, 0, None, 0;
      nextOpen, failures, reconnects, everOpened := 0, 0, 0, false;
    }

    method NoteOpenFailure(now: int)
      modifies this
      ensures View() == OpenFailed(old(View()), now)
    {
      failures := failures + 1;
      var delay := Backoff(failures);
      if delay > 5_000_000_000 {
        delay := 5_000_000_000;
      }
      nextOpen := now + delay;
    }

    method Install(newPath: string, h: Handle) returns (claimed: Option<Handle>, gen: nat)
      modifies this
      ensures View() == Installed(old(View()), newPath, h) && gen == generation
      ensures claimed == if IsOpen(old(handle)) then Some(old(handle)) else None
    {
      claimed := if IsOpen(handle) then Some(handle) else None;
      generation := generation + 1;
      gen := generation;
      path, handle := newPath, h;
      if everOpened {
        reconnects := reconnects + 1;
      } else {
        everOpened := true;
      }
      latest, malformed, nextOpen, failures := None, 0, 0, 0;
    }

    method InvalidateOutput(p: string, h: Handle, gen: nat, now: int) returns (claimed: Option<Handle>)
      modifies this
      ensures View() == if Matches(old(View()), p, h, gen) then Detached(old(View()), now) else old(View())
      ensures claimed == if Matches(old(View()), p, h, gen) && IsOpen(h) then Some(h) else None
    {
      claimed := None;
      if gen != 0 && generation == gen && handle == h && path == p {
        generation := generation + 1;
        handle, path := INVALID, NO_PATH;
        failures := failures + 1;
        nextOpen := now + Backoff(failures);
        if IsOpen(h) {
          claimed := Some(h);
        }
      }
    }

    method ReadFailed(h: Handle, gen: nat, now: int) returns (claimed: Option<Handle>)
      modifies this
      ensures View() == if ReaderMatches(old(View()), h, gen) then Detached(old(View()), now) else old(View())
      ensures claimed == if ReaderMatches(old(View()), h, gen) then Some(h) else None
    {
      claimed := None;
      if generation == gen && handle == h {
        generation := generation + 1;
        handle, path := INVALID, NO_PATH;
        failures := failures + 1;
        nextOpen := now + Backoff(failures);
        claimed := Some(h);
      }
    }

    method Publish(h: Handle, gen: nat, report: Report)
      modifies this
      ensures View() == var r := old(View());
                        if !ReaderMatches(r, h, gen) then r
                        else if report.parses then Published(r, Sample(report.session, gen, report.data))
                        else r.(malformed := r.malformed + 1)
    {
      if generation == gen && handle == h {
        if report.parses {
          latest := Some(Sample(report.session, gen, report.data));
          malformed := 0;
        } else {
          malformed := malformed + 1;
        }
      }
    }

    method CloseInput() returns (claimed: Option<Handle>)
      modifies this
      ensures View() == Closed(old(View()))
      ensures claimed == if IsOpen(old(handle)) then Some(old(handle)) else None
    {
      claimed := if IsOpen(handle) then Some(handle) else None;
      generation := generation + 1;
      path, handle, latest, malformed := NO_PATH, INVALID, None, 0;
      nextOpen, failures, everOpened := 0, 0, false;
    }

    method BorrowOutput(p: string) returns (borrowed: Option<(Handle, nat)>)
      ensures borrowed == if IsOpen(handle) && path != NO_PATH && path == p then Some((handle, generation)) else None
    {
      if !IsOpen(handle) || path == NO_PATH || path != p {
        return None;
      }
      return Some((handle, generation));
    }
  }

  // ---- The transition system ----

  /** An opener between its steps: past the first look at the record, past the second, or
      holding a fresh handle. Others may install and detach in between. */
  datatype Opener = Asking(path: string) | Cleared(path: string) | Holding(path: string, handle: Handle, session: Session)

  /** A read loop, with the report it has read but not yet published, if any. */
  datatype Reader = Reader(
    path: string, handle: Handle, generation: nat, session: Session, report: Option<Report>)

  /** `objects` gives every open object its handle number; `pending` holds the claimed
      handles whose CloseHandle is still to come, by the session they were claimed from. */
  datatype State = State(
    rec: Record,
    current: Option<Session>,
    objects: map<Session, Handle>,
    openers: map<Thread, Opener>,
    readers: set<Reader>,
    pending: map<Session, Handle>,
    claims: map<Session, nat>,
    closes: map<Session, nat>,
    made: nat)

  datatype Event =
    | Ask(t: Thread, path: string)
    | Clear(t: Thread, now: int)
    | GiveUp(t: Thread, now: int)
    | OpenFails(t: Thread, now: int)
    | OpenSucceeds(t: Thread, h: Handle)
    | Install(t: Thread)
    | ReadReport(r: Reader, report: Report)
    | PublishReport(r: Reader)
    | ReadFails(r: Reader, now: int)
    | ReaderQuits(r: Reader)
    | Invalidate(path: string, h: Handle, generation: nat, now: int)
    | CloseInput
    | CloseHandle(claimed: Session, x: Session)

  /** The first look: is that path open already? */
  predicate AlreadyOpen(r: Record, path: string) {
    r.path == path && IsOpen(r.handle)
  }

  /** The second look: is it too early for another attempt? */
  predicate TooEarly(r: Record, now: int) {
    r.nextOpen != 0 && now < r.nextOpen
  }

  predicate Holds(s: State, t: Thread) {
    t in s.openers && s.openers[t].Holding?
  }

  predicate Denotes(s: State, h: Handle, x: Session) {
    x in s.objects && s.objects[x] == h
  }

  /** A successful open yields a valid handle number that no open object has; nothing else
      is assumed about it, so it may well have been used before. Reading and closing act on
      whatever object the number denotes at that moment. */
  ghost predicate Enabled(s: State, e: Event) {
    match e
    case Ask(t, path) => t !in s.openers && path != NO_PATH && !AlreadyOpen(s.rec, path)
    case Clear(t, now) => t in s.openers && s.openers[t].Asking? && !TooEarly(s.rec, now)
    case GiveUp(t, now) => t in s.openers && s.openers[t].Asking? && TooEarly(s.rec, now)
    case OpenFails(t, _) => t in s.openers && s.openers[t].Cleared?
    case OpenSucceeds(t, h) => t in s.openers && s.openers[t].Cleared? && IsOpen(h) && h !in s.objects.Values
    case Install(t) => Holds(s, t)
    case ReadReport(r, report) => r in s.readers && r.report.None? && Denotes(s, r.handle, report.session)
    case PublishReport(r) => r in s.readers && r.report.Some?
    case ReadFails(r, _) => r in s.readers && r.report.None?
    case ReaderQuits(r) => r in s.readers && r.report.None? && !Healthy(s.rec, r.path, r.handle, r.generation)
    case Invalidate(_, _, _, _) => true
    case CloseInput => true
    case CloseHandle(c, x) => c in s.pending && Denotes(s, s.pending[c], x)
  }

  function Count(m: map<Session, nat>, x: Session): nat {
    if x in m then m[x] else 0
  }

  function CountUp(m: map<Session, nat>, x: Session): map<Session, nat> {
    m[x := Count(m, x) + 1]
  }

  /** The current handle leaves the record; if it denotes an object, that is now claimed. */
  function Claimed(s: State): State {
    match s.current
    case None => s
    case Some(x) => s.(current := None, pending := s.pending[x := s.rec.handle], claims := CountUp(s.claims, x))
  }

  /** Opener t gets a new object under handle number h. */
  function Opened(s: State, t: Thread, h: Handle): State
    requires t in s.openers
  {
    s.(objects := s.objects[s.made := h], openers := s.openers[t := Holding(s.openers[t].path, h, s.made)],
       made := s.made + 1)
  }

  /** The close owed for session c is carried out and ends object x. */
  function Ended(s: State, c: Session, x: Session): State {
    s.(objects := s.objects - {x}, pending := s.pending - {c}, closes := CountUp(s.closes, x))
  }

  ghost function Apply(s: State, e: Event): State
    requires Enabled(s, e)
  {
    match e
    case Ask(t, path) => s.(openers := s.openers[t := Asking(path)])
    case Clear(t, _) => s.(openers := s.openers[t := Cleared(s.openers[t].path)])
    case GiveUp(t, _) => s.(openers := s.openers - {t})
    case OpenFails(t, now) => s.(openers := s.openers - {t}, rec := OpenFailed(s.rec, now))
    case OpenSucceeds(t, h) => Opened(s, t, h)
    case Install(t) =>
      var o := s.openers[t];
      var rec := Installed(s.rec, o.path, o.handle);
      Claimed(s).(rec := rec, current := Some(o.session), openers := s.openers - {t},
                  readers := s.readers + {Reader(o.path, o.handle, rec.generation, o.session, None)})
    case ReadReport(r, report) => s.(readers := s.readers - {r} + {r.(report := Some(report))})
    case PublishReport(r) => s.(rec := AfterPublish(s.rec, r), readers := s.readers - {r} + {r.(report := None)})
    case ReadFails(r, now) =>
      (if ReaderMatches(s.rec, r.handle, r.generation) then Claimed(s).(rec := Detached(s.rec, now)) else s)
        .(readers := s.readers - {r})
    case ReaderQuits(r) => s.(readers := s.readers - {r})
    case Invalidate(path, h, generation, now) =>
      if Matches(s.rec, path, h, generation) then Claimed(s).(rec := Detached(s.rec, now)) else s
    case CloseInput => Claimed(s).(rec := Closed(s.rec))
    case CloseHandle(c, x) => Ended(s, c, x)
  }

  function AfterPublish(rec: Record, r: Reader): Record
    requires r.report.Some?
  {
    if !ReaderMatches(rec, r.handle, r.generation) then rec
    else if r.report.value.parses then Published(rec, Sample(r.report.value.session, r.generation, r.report.value.data))
    else rec.(malformed := rec.malformed + 1)
  }

  function Initial(): State {
    State(Record(NO_PATH, INVALID, 0, None, 0, 0, 0, 0, false), None, map[], map[], {}, map[], map[], map[], 0)
  }

  /** s' is reached from s by some sequence of enabled events. */
  ghost predicate Run(s: State, events: seq<Event>, s': State)
    decreases |events|
  {
    if events == [] then s' == s
    else Enabled(s, events[0]) && Run(Apply(s, events[0]), events[1..], s')
  }

  // ---- What every step keeps ----

  ghost predicate HandlesInv(s: State) {
    // The record's handle is open exactly when a session is current, and denotes that session.
    && (IsOpen(s.rec.handle) <==> s.current.Some?)
    && (s.current.Some? ==> s.rec.path != NO_PATH && Denotes(s, s.rec.handle, s.current.value))
    && (forall x <- s.pending :: Denotes(s, s.pending[x], x))
    && (forall t <- s.openers :: s.openers[t].path != NO_PATH)
    && (forall t | Holds(s, t) :: Denotes(s, s.openers[t].handle, s.openers[t].session))
    // Open objects have distinct, valid numbers.
    && (forall x <- s.objects :: x < s.made && IsOpen(s.objects[x]))
    && (forall x <- s.objects, y <- s.objects :: s.objects[x] == s.objects[y] ==> x == y)
  }

  ghost predicate Placed(s: State, x: Session) {
    s.current == Some(x) || x in s.pending || exists t :: Holds(s, t) && s.openers[t].session == x
  }

  /** Every open object is in exactly one place: current, held by an opener, or pending. */
  ghost predicate PlacesInv(s: State) {
    && (forall x <- s.objects :: Placed(s, x))
    && (s.current.Some? ==> s.current.value !in s.pending)
    && (forall t | Holds(s, t) :: s.openers[t].session !in s.pending && s.current != Some(s.openers[t].session))
    && (forall t, u | Holds(s, t) && Holds(s, u) :: s.openers[t].session == s.openers[u].session ==> t == u)
  }

  /** An object has been closed once if it is gone, and claimed once if it has left the record. */
  ghost predicate AccountsInv(s: State) {
    && (forall x: Session :: Count(s.closes, x) == if x < s.made && x !in s.objects then 1 else 0)
    && (forall x: Session :: Count(s.claims, x) == if x in s.pending || (x < s.made && x !in s.objects) then 1 else 0)
  }

  /** A reader of the current generation is the current session's, and so is its report. */
  ghost predicate ReadersInv(s: State) {
    && (forall r <- s.readers :: 0 < r.generation <= s.rec.generation)
    && (forall r <- s.readers :: r.generation == s.rec.generation ==>
          && s.rec.handle == r.handle && s.current == Some(r.session) && s.rec.path == r.path
          && (r.report.Some? ==> r.report.value.session == r.session))
    && (s.current.Some? && s.rec.latest.Some? ==>
          s.rec.latest.value.session == s.current.value && s.rec.latest.value.generation == s.rec.generation)
    && (s.rec.generation == 0 ==> s.current.None?)
  }

  ghost predicate Inv(s: State) {
    SessionsInv(s) && ReadersInv(s)
  }

  ghost predicate SessionsInv(s: State) {
    HandlesInv(s) && PlacesInv(s) && AccountsInv(s)
  }

  /** The current session, if any, is claimed and the record forgets its handle. */
  function Left(s: State, rec: Record): State {
    Claimed(s).(rec := rec)
  }

  lemma LeaveKeeps(s: State, rec: Record)
    requires SessionsInv(s) && !IsOpen(rec.handle)
    ensures SessionsInv(Left(s, rec))
  {
    LeaveKeepsHandles(s, rec);
    LeaveKeepsPlaces(s, rec);
    LeaveKeepsAccounts(s, rec);
  }

  lemma LeaveKeepsHandles(s: State, rec: Record)
    requires HandlesInv(s) && !IsOpen(rec.handle)
    ensures HandlesInv(Left(s, rec))
  {
    assert forall t :: Holds(Left(s, rec), t) <==> Holds(s, t);
  }

  lemma LeaveKeepsPlaces(s: State, rec: Record)
    requires PlacesInv(s)
    ensures PlacesInv(Left(s, rec))
  {
    var s' := Left(s, rec);
    assert forall t :: Holds(s', t) <==> Holds(s, t);
    forall x <- s'.objects
      ensures Placed(s', x)
    {
      assert Placed(s, x);
      if x !in s'.pending {
        var u :| Holds(s, u) && s.openers[u].session == x;
        assert Holds(s', u) && s'.openers[u].session == x;
      }
    }
  }

  lemma LeaveKeepsAccounts(s: State, rec: Record)
    requires AccountsInv(s)
    requires s.current.Some? ==> s.current.value !in s.pending && s.current.value in s.objects
    ensures AccountsInv(Left(s, rec))
  {
    var s' := Left(s, rec);
    forall x: Session
      ensures Count(s'.claims, x) == if x in s'.pending || (x < s'.made && x !in s'.objects) then 1 else 0
      ensures Count(s'.closes, x) == Count(s.closes, x)
    {
      assert Count(s.claims, x) == if x in s.pending || (x < s.made && x !in s.objects) then 1 else 0;
    }
  }

  function Taken(s: State, t: Thread, rec: Record): State
    requires Holds(s, t)
  {
    s.(rec := rec, current := Some(s.openers[t].session), openers := s.openers - {t})
  }

  lemma TakeKeeps(s: State, t: Thread, rec: Record)
    requires SessionsInv(s) && s.current.None? && Holds(s, t)
    requires rec.handle == s.openers[t].handle && rec.path == s.openers[t].path
    ensures SessionsInv(Taken(s, t, rec))
  {
    hide HandlesInv, PlacesInv, AccountsInv;
    TakeKeepsHandles(s, t, rec);
    TakeKeepsPlaces(s, t, rec);
    AccountsDepend(s, Taken(s, t, rec));
  }

  lemma TakeKeepsHandles(s: State, t: Thread, rec: Record)
    requires HandlesInv(s) && Holds(s, t)
    requires rec.handle == s.openers[t].handle && rec.path == s.openers[t].path
    ensures HandlesInv(Taken(s, t, rec))
  {
    var s' := Taken(s, t, rec);
    assert forall u :: Holds(s', u) <==> Holds(s, u) && u != t;
    assert Denotes(s', rec.handle, s.openers[t].session) by { assert Denotes(s, rec.handle, s.openers[t].session); }
  }

  lemma TakeKeepsPlaces(s: State, t: Thread, rec: Record)
    requires PlacesInv(s) && s.current.None? && Holds(s, t)
    ensures PlacesInv(Taken(s, t, rec))
  {
    var s' := Taken(s, t, rec);
    assert forall u :: Holds(s', u) <==> Holds(s, u) && u != t;
    forall x <- s'.objects
      ensures Placed(s', x)
    {
      assert Placed(s, x);
      if s'.current != Some(x) && x !in s'.pending {
        var u :| Holds(s, u) && s.openers[u].session == x;
        assert Holds(s', u) && s'.openers[u].session == x;
      }
    }
  }

  lemma AccountsDepend(s: State, s': State)
    requires AccountsInv(s)
    requires s'.objects == s.objects && s'.pending == s.pending && s'.made == s.made
    requires s'.claims == s.claims && s'.closes == s.closes
    ensures AccountsInv(s')
  {
    forall x: Session
      ensures Count(s'.claims, x) == Count(s.claims, x) && Count(s'.closes, x) == Count(s.closes, x)
    {
    }
  }

  lemma OpenKeeps(s: State, t: Thread, h: Handle)
    requires SessionsInv(s) && Enabled(s, OpenSucceeds(t, h))
    ensures SessionsInv(Opened(s, t, h))
  {
    OpenKeepsHandles(s, t, h);
    NextIsUnused(s);
    OpenKeepsPlaces(s, t, h);
    OpenKeepsAccounts(s, t, h);
  }

  lemma OpenKeepsAccounts(s: State, t: Thread, h: Handle)
    requires AccountsInv(s) && t in s.openers && s.made !in s.pending
    ensures AccountsInv(Opened(s, t, h))
  {
    var s' := Opened(s, t, h);
    forall x: Session
      ensures Count(s'.claims, x) == Count(s.claims, x) && Count(s'.closes, x) == Count(s.closes, x)
    {
    }
  }

  lemma OpenKeepsHandles(s: State, t: Thread, h: Handle)
    requires HandlesInv(s) && t in s.openers && s.openers[t].Cleared? && IsOpen(h) && h !in s.objects.Values
    ensures HandlesInv(Opened(s, t, h)) && s.made !in s.pending
  {
    var s' := Opened(s, t, h);
    assert Holds(s', t) && forall u :: u != t ==> (Holds(s', u) <==> Holds(s, u));
    assert forall x <- s.objects :: x < s.made && s.objects[x] in s.objects.Values;
    assert forall x <- s.pending :: Denotes(s, s.pending[x], x);
    assert forall k, x :: Denotes(s, k, x) ==> Denotes(s', k, x);
  }

  /** The next session number is not in use anywhere. */
  ghost predicate NextUnused(s: State) {
    && s.made !in s.pending && s.current != Some(s.made)
    && forall u | Holds(s, u) :: s.openers[u].session != s.made
  }

  lemma NextIsUnused(s: State)
    requires HandlesInv(s)
    ensures NextUnused(s)
  {
    assert s.made !in s.objects;
    assert forall x <- s.pending :: Denotes(s, s.pending[x], x);
    assert forall u | Holds(s, u) :: Denotes(s, s.openers[u].handle, s.openers[u].session);
  }

  lemma OpenKeepsPlaces(s: State, t: Thread, h: Handle)
    requires PlacesInv(s) && NextUnused(s) && t in s.openers && s.openers[t].Cleared?
    ensures PlacesInv(Opened(s, t, h))
  {
    var s' := Opened(s, t, h);
    forall x <- s'.objects
      ensures Placed(s', x)
    {
      OpenKeepsPlaced(s, t, h, x);
    }
    hide Placed;
    assert forall u | Holds(s', u) :: s'.openers[u].session == if u == t then s.made else s.openers[u].session;
    assert forall u | Holds(s', u) && u != t :: Holds(s, u);
  }

  lemma OpenKeepsPlaced(s: State, t: Thread, h: Handle, x: Session)
    requires t in s.openers && s.openers[t].Cleared? && (x == s.made || Placed(s, x))
    ensures Placed(Opened(s, t, h), x)
  {
    var s' := Opened(s, t, h);
    assert Holds(s', t) && s'.openers[t].session == s.made;
    if x != s.made && s.current != Some(x) && x !in s.pending {
      var u :| Holds(s, u) && s.openers[u].session == x;
      assert Holds(s', u) && s'.openers[u].session == x;
    }
  }

  /** Closing a claimed handle hits exactly the object it was claimed from. */
  lemma CloseHits(s: State, c: Session, x: Session)
    requires SessionsInv(s) && Enabled(s, CloseHandle(c, x))
    ensures x == c
  {
    assert Denotes(s, s.pending[c], c);
  }

  lemma CloseKeeps(s: State, c: Session)
    requires SessionsInv(s) && c in s.pending
    ensures SessionsInv(Ended(s, c, c))
  {
    CloseKeepsHandles(s, c);
    CloseKeepsPlaces(s, c);
    CloseKeepsAccounts(s, c);
  }

  lemma CloseKeepsHandles(s: State, c: Session)
    requires HandlesInv(s) && PlacesInv(s) && c in s.pending
    ensures HandlesInv(Ended(s, c, c)) && c in s.objects && c < s.made
  {
    var s' := Ended(s, c, c);
    assert Denotes(s, s.pending[c], c);
    assert forall t :: Holds(s', t) <==> Holds(s, t);
    assert forall k, x :: x != c && Denotes(s, k, x) ==> Denotes(s', k, x);
  }

  lemma CloseKeepsPlaces(s: State, c: Session)
    requires PlacesInv(s) && c in s.pending
    ensures PlacesInv(Ended(s, c, c))
  {
    var s' := Ended(s, c, c);
    assert forall t :: Holds(s', t) <==> Holds(s, t);
    forall x <- s'.objects
      ensures Placed(s', x)
    {
      assert Placed(s, x);
      if s'.current != Some(x) && x !in s'.pending {
        var u :| Holds(s, u) && s.openers[u].session == x;
        assert Holds(s', u) && s'.openers[u].session == x;
      }
    }
  }

  lemma CloseKeepsAccounts(s: State, c: Session)
    requires AccountsInv(s) && c in s.pending && c in s.objects && c < s.made
    ensures AccountsInv(Ended(s, c, c))
  {
    var s' := Ended(s, c, c);
    forall y: Session
      ensures Count(s'.claims, y) == Count(s.claims, y)
      ensures Count(s'.closes, y) == Count(s.closes, y) + if y == c then 1 else 0
    {
    }
  }

  /** Changing which threads are about to open, or the record's bookkeeping, moves no handle. */
  lemma BookkeepingKeeps(s: State, s': State)
    requires SessionsInv(s)
    requires s'.rec.handle == s.rec.handle && s'.rec.path == s.rec.path
    requires s' == s.(rec := s'.rec, openers := s'.openers, readers := s'.readers)
    requires forall t <- s'.openers :: s'.openers[t].path != NO_PATH
    requires forall t :: (Holds(s', t) <==> Holds(s, t)) && (Holds(s, t) ==> s'.openers[t] == s.openers[t])
    ensures SessionsInv(s')
  {
    AccountsDepend(s, s');
    forall x <- s'.objects
      ensures Placed(s', x)
    {
      assert Placed(s, x);
      if s'.current != Some(x) && x !in s'.pending {
        var u :| Holds(s, u) && s.openers[u].session == x;
        assert Holds(s', u) && s'.openers[u].session == x;
      }
    }
  }

  lemma SessionsKept(s: State, e: Event)
    requires SessionsInv(s) && Enabled(s, e)
    ensures SessionsInv(Apply(s, e))
  {
    hide SessionsInv, Installed, Detached, Closed, OpenFailed, Published;
    match e {
      case OpenSucceeds(t, h) => OpenKeeps(s, t, h);
      case CloseHandle(c, x) =>
        CloseHits(s, c, x);
        CloseKeeps(s, c);
      case Install(t) => InstallKeeps(s, t);
      case ReadFails(r, now) => ReadFailureKeeps(s, r, now);
      case Invalidate(_, _, _, now) => LeaveKeeps(s, Detached(s.rec, now)) by { DetachedIsShut(s.rec, now); }
      case CloseInput => LeaveKeeps(s, Closed(s.rec)) by { ClosedIsShut(s.rec); }
      case PublishReport(r) => RecordKeeps(s, Apply(s, e)) by { PublishKeepsHandle(s.rec, r); }
      case ReadReport(r, _) => ReadersIrrelevant(s, Apply(s, e));
      case ReaderQuits(r) => ReadersIrrelevant(s, Apply(s, e));
      case _ => OpenerEventKeeps(s, e);
    }
  }

  lemma DetachedIsShut(r: Record, now: int)
    ensures !IsOpen(Detached(r, now).handle)
  {
  }

  lemma ClosedIsShut(r: Record)
    ensures !IsOpen(Closed(r).handle)
  {
  }

  lemma PublishKeepsHandle(rec: Record, r: Reader)
    requires r.report.Some?
    ensures AfterPublish(rec, r).handle == rec.handle && AfterPublish(rec, r).path == rec.path
  {
  }

  lemma InstallKeeps(s: State, t: Thread)
    requires SessionsInv(s) && Enabled(s, Install(t))
    ensures SessionsInv(Apply(s, Install(t)))
  {
    hide SessionsInv;
    var s' := Apply(s, Install(t));
    var left := Left(s, Closed(s.rec));
    LeaveKeeps(s, Closed(s.rec));
    TakeKeeps(left, t, s'.rec);
    ReadersIrrelevant(Taken(left, t, s'.rec), s');
  }

  lemma ReadFailureKeeps(s: State, r: Reader, now: int)
    requires SessionsInv(s) && Enabled(s, ReadFails(r, now))
    ensures SessionsInv(Apply(s, ReadFails(r, now)))
  {
    hide SessionsInv;
    var s' := Apply(s, ReadFails(r, now));
    if ReaderMatches(s.rec, r.handle, r.generation) {
      LeaveKeeps(s, Detached(s.rec, now));
      ReadersIrrelevant(Left(s, Detached(s.rec, now)), s');
    } else {
      ReadersIrrelevant(s, s');
    }
  }

  /** Openers that hold no handle come, go and move on without touching any. */
  lemma OpenerEventKeeps(s: State, e: Event)
    requires SessionsInv(s) && Enabled(s, e) && (e.Ask? || e.Clear? || e.GiveUp? || e.OpenFails?)
    ensures SessionsInv(Apply(s, e))
  {
    PathsKnown(s);
    hide SessionsInv;
    OpenerChangeKeeps(s, Apply(s, e), e.t);
  }

  lemma PathsKnown(s: State)
    requires SessionsInv(s)
    ensures forall t <- s.openers :: s.openers[t].path != NO_PATH
  {
  }

  lemma ReadersIrrelevant(s: State, s': State)
    requires SessionsInv(s) && s' == s.(readers := s'.readers)
    ensures SessionsInv(s')
  {
    assert SessionsInv(s) ==> forall t <- s.openers :: s.openers[t].path != NO_PATH;
    BookkeepingKeeps(s, s');
  }

  lemma RecordKeeps(s: State, s': State)
    requires SessionsInv(s) && s' == s.(rec := s'.rec, readers := s'.readers)
    requires s'.rec.handle == s.rec.handle && s'.rec.path == s.rec.path
    ensures SessionsInv(s')
  {
    BookkeepingKeeps(s, s');
  }

  lemma OpenerChangeKeeps(s: State, s': State, t: Thread)
    requires SessionsInv(s) && !Holds(s, t) && !Holds(s', t)
    requires s' == s.(rec := s'.rec, openers := s'.openers)
    requires s'.rec.handle == s.rec.handle && s'.rec.path == s.rec.path
    requires s'.openers - {t} == s.openers - {t}
    requires t in s'.openers ==> s'.openers[t].path != NO_PATH
    ensures SessionsInv(s')
  {
    forall u
      ensures u != t ==> (u in s'.openers <==> u in s.openers) && (u in s.openers ==> s'.openers[u] == s.openers[u])
    {
      assert u != t ==> (u in s'.openers <==> u in s'.openers - {t}) && (u in s.openers <==> u in s.openers - {t});
      assert u != t && u in s.openers ==> (s'.openers - {t})[u] == (s.openers - {t})[u];
    }
    BookkeepingKeeps(s, s');
  }

  /** The record moves on to a later generation with no reader, and so with no sample. */
  lemma LaterKeepsReaders(s: State, s': State)
    requires ReadersInv(s) && s'.readers <= s.readers && s'.rec.generation > s.rec.generation
    requires s'.current.None?
    ensures ReadersInv(s')
  {
  }

  lemma InstallKeepsReaders(s: State, t: Thread)
    requires ReadersInv(s) && Holds(s, t)
    ensures ReadersInv(Apply(s, Install(t)))
  {
    var s' := Apply(s, Install(t));
    assert s'.rec.generation == s.rec.generation + 1 && s'.rec.latest.None?;
    var r := Reader(s.openers[t].path, s.openers[t].handle, s'.rec.generation, s.openers[t].session, None);
    assert s'.readers == s.readers + {r};
  }

  /** Reading acts on whatever object the handle denotes: for a reader of the current
      generation that is the current session. */
  lemma ReadKeepsReaders(s: State, r: Reader, report: Report)
    requires HandlesInv(s) && ReadersInv(s) && Enabled(s, ReadReport(r, report))
    ensures ReadersInv(Apply(s, ReadReport(r, report)))
  {
    assert r.generation == s.rec.generation ==> report.session == r.session by {
      if r.generation == s.rec.generation {
        assert Denotes(s, s.rec.handle, s.current.value) && Denotes(s, s.rec.handle, report.session);
      }
    }
  }

  lemma PublishKeepsReaders(s: State, r: Reader)
    requires ReadersInv(s) && Enabled(s, PublishReport(r))
    ensures ReadersInv(Apply(s, PublishReport(r)))
  {
    hide Healthy;
    var rec := AfterPublish(s.rec, r);
    assert rec.generation == s.rec.generation && rec.handle == s.rec.handle && rec.path == s.rec.path;
    assert rec.latest == s.rec.latest || rec.latest == Some(Sample(r.session, s.rec.generation, r.report.value.data));
  }

  lemma FewerKeepReaders(s: State, s': State)
    requires ReadersInv(s) && s'.readers <= s.readers && s'.current == s.current
    requires s'.rec == s.rec.(failures := s'.rec.failures, nextOpen := s'.rec.nextOpen)
    ensures ReadersInv(s')
  {
  }

  lemma ReadersKept(s: State, e: Event)
    requires Inv(s) && Enabled(s, e)
    ensures ReadersInv(Apply(s, e))
  {
    var s' := Apply(s, e);
    hide HandlesInv, PlacesInv, AccountsInv, ReadersInv;
    match e {
      case Install(t) => InstallKeepsReaders(s, t);
      case ReadReport(r, report) => ReadKeepsReaders(s, r, report);
      case PublishReport(r) => PublishKeepsReaders(s, r);
      case ReadFails(r, _) =>
        if ReaderMatches(s.rec, r.handle, r.generation) { LaterKeepsReaders(s, s'); } else { FewerKeepReaders(s, s'); }
      case Invalidate(path, h, generation, _) =>
        if Matches(s.rec, path, h, generation) { LaterKeepsReaders(s, s'); }
      case CloseInput => LaterKeepsReaders(s, s');
      case _ => FewerKeepReaders(s, s');
    }
  }

  lemma InvKept(s: State, e: Event)
    requires Inv(s) && Enabled(s, e)
    ensures Inv(Apply(s, e))
  {
    SessionsKept(s, e);
    ReadersKept(s, e);
  }

  lemma {:induction false} InvAlongRun(s: State, events: seq<Event>, s': State)
    requires Inv(s) && Run(s, events, s')
    ensures Inv(s')
    decreases |events|
  {
    hide Inv, Enabled, Apply;
    if events != [] {
      InvKept(s, events[0]);
      InvAlongRun(Apply(s, events[0]), events[1..], s');
    }
  }

  lemma InvReachable(events: seq<Event>, s: State)
    requires Run(Initial(), events, s)
    ensures Inv(s)
  {
    assert Inv(Initial());
    InvAlongRun(Initial(), events, s);
  }

  // ---- Main results ----

  /** In every interleaving, each opened object leaves the record through exactly one
      claimant: none while it is current or still with its opener, one as soon as it is
      neither. It is closed at most once, only after that, and has been closed exactly when
      it is gone. */
  lemma ClosedExactlyOnce(events: seq<Event>, s: State, x: Session)
    requires Run(Initial(), events, s) && x < s.made
    ensures Count(s.claims, x) <= 1 && Count(s.closes, x) <= Count(s.claims, x)
    ensures s.current == Some(x) ==> Count(s.claims, x) == 0
    ensures Count(s.closes, x) == 1 <==> x !in s.objects
    ensures Count(s.claims, x) == 1 <==> s.current != Some(x) && forall t | Holds(s, t) :: s.openers[t].session != x
  {
    InvReachable(events, s);
    ClaimedIffOut(s, x);
  }

  lemma ClaimedIffOut(s: State, x: Session)
    requires SessionsInv(s) && x < s.made
    ensures Count(s.claims, x) == 1 <==> s.current != Some(x) && forall t | Holds(s, t) :: s.openers[t].session != x
  {
    assert x in s.objects ==> Placed(s, x);
    assert s.current == Some(x) ==> Denotes(s, s.rec.handle, x) && x !in s.pending;
    assert forall t | Holds(s, t) :: Denotes(s, s.openers[t].handle, s.openers[t].session) && s.openers[t].session !in s.pending;
  }

  /** Every claimed handle can be closed, and its CloseHandle ends the very object it was
      claimed from, however often its number has been used before. */
  lemma CloseIsExact(events: seq<Event>, s: State, c: Session, x: Session)
    requires Run(Initial(), events, s) && c in s.pending
    ensures Enabled(s, CloseHandle(c, x)) <==> x == c
  {
    InvReachable(events, s);
    if Enabled(s, CloseHandle(c, x)) {
      CloseHits(s, c, x);
    }
  }

  /** With no close outstanding and no opener holding a fresh handle, nothing is open but
      the current session: no handle leaks. */
  lemma NoLeak(events: seq<Event>, s: State)
    requires Run(Initial(), events, s)
    requires s.pending == map[] && forall t :: !Holds(s, t)
    ensures s.objects.Keys == if s.current.Some? then {s.current.value} else {}
  {
    InvReachable(events, s);
  }

  /** Every change of the record's handle or session raises the generation. */
  lemma HandleChangeRaisesGeneration(events: seq<Event>, s: State, e: Event)
    requires Run(Initial(), events, s) && Enabled(s, e)
    ensures var s' := Apply(s, e);
            && s.rec.generation <= s'.rec.generation
            && (s'.rec.handle != s.rec.handle || s'.current != s.current ==> s.rec.generation < s'.rec.generation)
  {
    InvReachable(events, s);
  }

  /** Session x, installed with handle h under generation g, has either been current ever
      since or is gone from the record for good. */
  ghost predicate Tracks(s: State, x: Session, path: string, h: Handle, g: nat) {
    && g <= s.rec.generation && x < s.made
    && (s.current == Some(x) ==> s.rec.generation == g && s.rec.handle == h && s.rec.path == path)
    && (s.rec.generation == g ==> s.current == Some(x))
    && forall t | Holds(s, t) :: s.openers[t].session != x
  }

  /** What one step may do to the record's session: nothing, or raise the generation and
      leave it empty or with a session an opener was holding. */
  lemma StepOfSession(s: State, e: Event)
    requires Enabled(s, e)
    ensures var s' := Apply(s, e);
            || (s'.rec.generation == s.rec.generation && s'.current == s.current
                && s'.rec.handle == s.rec.handle && s'.rec.path == s.rec.path)
            || (s'.rec.generation > s.rec.generation
                && (s'.current.None? || exists t :: Holds(s, t) && s'.current == Some(s.openers[t].session)))
  {
    hide Denotes, Healthy, CountUp, AlreadyOpen, TooEarly;
    match e
    case Install(t) => assert Holds(s, t);
    case _ =>
  }

  /** What one step may do to the openers: one of them may come to hold a new session. */
  lemma StepOfOpeners(s: State, e: Event)
    requires Enabled(s, e)
    ensures var s' := Apply(s, e);
            && s.made <= s'.made
            && forall t | Holds(s', t) :: s'.openers[t].session == s.made || (Holds(s, t) && s'.openers[t] == s.openers[t])
  {
    hide Denotes, Healthy, AlreadyOpen, TooEarly, Matches, ReaderMatches, AfterPublish;
  }

  lemma TracksKept(s: State, e: Event, x: Session, path: string, h: Handle, g: nat)
    requires Enabled(s, e) && Tracks(s, x, path, h, g)
    ensures Tracks(Apply(s, e), x, path, h, g)
  {
    StepOfSession(s, e);
    StepOfOpeners(s, e);
    hide Apply, Enabled;
  }

  lemma {:induction false} TracksAlongRun(
    s: State, events: seq<Event>, s': State, x: Session, path: string, h: Handle, g: nat)
    requires Run(s, events, s') && Tracks(s, x, path, h, g)
    ensures Tracks(s', x, path, h, g)
    decreases |events|
  {
    hide Enabled, Apply, Tracks;
    if events != [] {
      TracksKept(s, events[0], x, path, h, g);
      TracksAlongRun(Apply(s, events[0]), events[1..], s', x, path, h, g);
    }
  }

  /** A borrowed (handle, generation) pair is healthy exactly as long as the session it was
      borrowed from is the one installed, whatever happens to the handle number. */
  lemma BorrowedHealthyIffInstalled(events: seq<Event>, s: State, later: seq<Event>, s': State)
    requires Run(Initial(), events, s) && Run(s, later, s')
    requires Connected(s.rec)
    ensures s.current.Some?
    ensures Healthy(s'.rec, s.rec.path, s.rec.handle, s.rec.generation) <==> s'.current == s.current
  {
    InvReachable(events, s);
    InvAlongRun(s, later, s');
    assert Tracks(s, s.current.value, s.rec.path, s.rec.handle, s.rec.generation);
    TracksAlongRun(s, later, s', s.current.value, s.rec.path, s.rec.handle, s.rec.generation);
  }

  /** A superseded reader never publishes: a publish that changes the record comes from the
      current session's own reader, with a report read from that session. */
  lemma SupersededNeverPublishes(events: seq<Event>, s: State, r: Reader)
    requires Run(Initial(), events, s) && Enabled(s, PublishReport(r))
    ensures Apply(s, PublishReport(r)).rec != s.rec ==>
              s.current == Some(r.session) && r.report.value.session == r.session && r.generation == s.rec.generation
  {
    InvReachable(events, s);
  }

  /** A Found sample was parsed from a report of the very session and generation installed
      now, even where handle numbers were reused in between. */
  lemma FoundSampleIsCurrent(events: seq<Event>, s: State, sample: Sample)
    requires Run(Initial(), events, s) && FoundSample(s.rec) == Some(sample)
    ensures s.current == Some(sample.session) && sample.generation == s.rec.generation
  {
    InvReachable(events, s);
  }

  /** A reader that is not superseded does publish: a report that parses becomes the found
      sample, and one that does not is counted and leaves the found sample alone. */
  lemma PublishIsFound(events: seq<Event>, s: State, r: Reader)
    requires Run(Initial(), events, s)
    ensures Enabled(s, PublishReport(r)) && r.generation == s.rec.generation ==>
              var rec, report := Apply(s, PublishReport(r)).rec, r.report.value;
              if report.parses then
                FoundSample(rec) == Some(Sample(report.session, s.rec.generation, report.data)) && rec.malformed == 0
              else
                FoundSample(rec) == FoundSample(s.rec) && rec.malformed == s.rec.malformed + 1
  {
    InvReachable(events, s);
    if Enabled(s, PublishReport(r)) && r.generation == s.rec.generation {
      CurrentReaderIsConnected(s, r);
    }
  }

  lemma CurrentReaderIsConnected(s: State, r: Reader)
    requires Inv(s) && r in s.readers && r.generation == s.rec.generation
    ensures ReaderMatches(s.rec, r.handle, r.generation) && Connected(s.rec)
  {
  }

  /** What the events of a run say of the record: the last report of the present generation
      that parsed, how many did not since, how many opens and sessions failed since the last
      install or close, and when the next open may be tried. */
  datatype Heard = Heard(sample: Option<Sample>, malformed: nat, failures: nat, retryAt: int)

  const UNHEARD := Heard(None, 0, 0, 0)

  /** One more failure: the next try waits for the delay that number of failures demands. */
  function Failure(h: Heard, now: int): Heard {
    h.(failures := h.failures + 1, retryAt := now + Backoff(h.failures + 1))
  }

  function Heed(rec: Record, e: Event, h: Heard): Heard {
    match e
    case Install(_) => UNHEARD
    case CloseInput => UNHEARD
    case OpenFails(_, now) => Failure(h, now)
    case ReadFails(r, now) => if r.generation == rec.generation then Failure(h, now).(sample := None) else h
    case Invalidate(path, hd, g, now) => if Matches(rec, path, hd, g) then Failure(h, now).(sample := None) else h
    case PublishReport(r) =>
      if r.report.None? || r.generation != rec.generation then h
      else if !r.report.value.parses then h.(malformed := h.malformed + 1)
      else h.(sample := Some(Sample(r.report.value.session, r.generation, r.report.value.data)), malformed := 0)
    case _ => h
  }

  ghost function HeardFrom(s: State, events: seq<Event>, h: Heard): Heard
    decreases |events|
  {
    if events == [] || !Enabled(s, events[0]) then h
    else HeardFrom(Apply(s, events[0]), events[1..], Heed(s.rec, events[0], h))
  }

  ghost predicate Records(rec: Record, h: Heard) {
    && FoundSample(rec) == h.sample && rec.malformed == h.malformed
    && rec.failures == h.failures && rec.nextOpen == h.retryAt
  }

  lemma StepRecords(s: State, e: Event, h: Heard)
    requires Inv(s) && Enabled(s, e) && Records(s.rec, h)
    ensures Records(Apply(s, e).rec, Heed(s.rec, e, h))
  {
    hide Denotes, AlreadyOpen, TooEarly, CountUp, HandlesInv, PlacesInv, AccountsInv, Inv, Backoff;
    match e
    case PublishReport(r) =>
      if r.generation == s.rec.generation { CurrentReaderIsConnected(s, r); }
    case ReadFails(r, now) =>
      BackoffDoubles(s.rec.failures + 1);
      if r.generation == s.rec.generation { CurrentReaderIsConnected(s, r); }
    case OpenFails(_, _) => DelayUncapped(s.rec.failures + 1);
    case _ =>
  }

  /** The 5 s cap on a failed open's delay never acts. */
  lemma DelayUncapped(failures: nat)
    requires failures > 0
    ensures Backoff(failures) <= 5_000_000_000
  {
  }

  lemma {:induction false} RecordsAlongRun(s: State, events: seq<Event>, s': State, h: Heard)
    requires Inv(s) && Run(s, events, s') && Records(s.rec, h)
    ensures Records(s'.rec, HeardFrom(s, events, h))
    decreases |events|
  {
    hide Inv, Enabled, Apply, Records;
    if events != [] {
      StepRecords(s, events[0], h);
      InvKept(s, events[0]);
      RecordsAlongRun(Apply(s, events[0]), events[1..], s', Heed(s.rec, events[0], h));
    }
  }

  /** Over every run the record says what the events say: the found sample is that of the last
      report published under the present generation that parsed, or none if there was none, and
      the failure count and the time of the next try are those the failures since the last
      install or close demand. */
  lemma RecordIsHeard(events: seq<Event>, s: State)
    requires Run(Initial(), events, s)
    ensures Records(s.rec, HeardFrom(Initial(), events, UNHEARD))
  {
    assert Inv(Initial());
    RecordsAlongRun(Initial(), events, s, UNHEARD);
  }

  /** The installs in a run that follow another one with no close of the input in between. */
  function Reopenings(events: seq<Event>, before: bool): nat {
    if events == [] then 0
    else
      match events[0]
      case Install(_) => (if before then 1 else 0) + Reopenings(events[1..], true)
      case CloseInput => Reopenings(events[1..], false)
      case _ => Reopenings(events[1..], before)
  }

  /** The reconnect counter shown to users counts exactly those, over every run. */
  lemma {:induction false} ReconnectsCounted(s: State, events: seq<Event>, s': State)
    requires Run(s, events, s')
    ensures s'.rec.reconnects == s.rec.reconnects + Reopenings(events, s.rec.everOpened)
    decreases |events|
  {
    hide Enabled, Apply;
    if events != [] {
      ReconnectStep(s, events[0]);
      ReconnectsCounted(Apply(s, events[0]), events[1..], s');
    }
  }

  lemma ReconnectStep(s: State, e: Event)
    requires Enabled(s, e)
    ensures var s' := Apply(s, e);
            && s'.rec.reconnects == s.rec.reconnects + (if e.Install? && s.rec.everOpened then 1 else 0)
            && s'.rec.everOpened == (e.Install? || (s.rec.everOpened && !e.CloseInput?))
  {
    hide Denotes, Healthy, AlreadyOpen, TooEarly, CountUp;
  }

  /** From the start of the program, then, it counts the reopenings of the whole run. */
  lemma ReconnectsFromStart(events: seq<Event>, s: State)
    requires Run(Initial(), events, s)
    ensures s.rec.reconnects == Reopenings(events, false)
  {
    ReconnectsCounted(Initial(), events, s);
  }

  /** A session is installed exactly while the record holds a handle that is neither zero nor
      the invalid one. */
  lemma HandleIffInstalled(events: seq<Event>, s: State)
    requires Run(Initial(), events, s)
    ensures s.current.Some? <==> s.rec.handle != 0 && s.rec.handle != -1
    ensures forall x <- s.objects :: s.objects[x] != 0 && s.objects[x] != -1
  {
    InvReachable(events, s);
  }

  /** Who may open: a path is asked for exactly if no session of it can be borrowed, and the
      asker goes on to open exactly if the delay after the last failure is over. */
  lemma OpensWhenDue(events: seq<Event>, s: State, t: Thread, path: string, now: int)
    requires Run(Initial(), events, s)
    ensures Enabled(s, Ask(t, path)) <==>
              t !in s.openers && path != NO_PATH && !exists h: Handle :: Healthy(s.rec, path, h, s.rec.generation)
    ensures t in s.openers && s.openers[t].Asking? ==>
              var due := HeardFrom(Initial(), events, UNHEARD).retryAt;
              && (Enabled(s, Clear(t, now)) <==> due == 0 || due <= now)
              && (Enabled(s, GiveUp(t, now)) <==> due != 0 && now < due)
  {
    InvReachable(events, s);
    RecordIsHeard(events, s);
    assert AlreadyOpen(s.rec, path) ==> Healthy(s.rec, path, s.rec.handle, s.rec.generation);
  }

  /** A report that is read is then the one its reader publishes, and the reader goes on: from
      the current session, a report that parses is found next. */
  lemma ReadIsPublished(events: seq<Event>, s: State, r: Reader, report: Report)
    requires Run(Initial(), events, s)
    ensures Enabled(s, ReadReport(r, report)) ==>
              var s1, r1 := Apply(s, ReadReport(r, report)), r.(report := Some(report));
              && r !in s1.readers && Enabled(s1, PublishReport(r1))
              && var s2 := Apply(s1, PublishReport(r1));
                 && r in s2.readers && r1 !in s2.readers
                 && (r.generation == s.rec.generation && report.parses ==>
                       s.current.Some? && FoundSample(s2.rec) == Some(Sample(s.current.value, s.rec.generation, report.data)))
  {
    if Enabled(s, ReadReport(r, report)) {
      InvReachable(events, s);
      var s1, r1 := Apply(s, ReadReport(r, report)), r.(report := Some(report));
      InvKept(s, ReadReport(r, report));
      if r.generation == s.rec.generation {
        CurrentReaderIsConnected(s1, r1);
      }
      assert Denotes(s, r.handle, report.session);
    }
  }

  /** The installed session always has its read loop. */
  ghost predicate CurrentIsRead(s: State) {
    s.current.Some? ==> exists r <- s.readers :: r.generation == s.rec.generation
  }

  lemma StepKeepsReading(s: State, e: Event)
    requires Inv(s) && Enabled(s, e) && CurrentIsRead(s)
    ensures CurrentIsRead(Apply(s, e))
  {
    hide HandlesInv, PlacesInv, AccountsInv, Inv, Denotes, AlreadyOpen, TooEarly, CountUp;
    var s' := Apply(s, e);
    match e {
      case Install(t) =>
        assert Reader(s.openers[t].path, s.openers[t].handle, s'.rec.generation, s.openers[t].session, None) in s'.readers;
      case CloseInput =>
      case _ =>
        if s'.current.Some? {
          ReadingGoesOn(s, e);
        }
    }
  }

  lemma ReadingGoesOn(s: State, e: Event)
    requires Inv(s) && Enabled(s, e) && CurrentIsRead(s) && !e.Install? && Apply(s, e).current.Some?
    ensures CurrentIsRead(Apply(s, e))
  {
    StepOfSession(s, e);
    var s' := Apply(s, e);
    assert s'.rec.generation == s.rec.generation && s.current.Some? by { OnlyInstallPuts(s, e); }
    var r :| r in s.readers && r.generation == s.rec.generation;
    match e {
      case ReadReport(q, report) => if q == r { assert r.(report := Some(report)) in s'.readers; } else { assert r in s'.readers; }
      case PublishReport(q) => if q == r { assert r.(report := None) in s'.readers; } else { assert r in s'.readers; }
      case ReadFails(q, _) => CurrentReaderIsConnected(s, r); assert r in s'.readers;
      case ReaderQuits(q) => CurrentReaderIsConnected(s, r); assert r in s'.readers;
      case _ => assert r in s'.readers;
    }
  }

  /** A step that leaves a session installed, without installing one, leaves the same. */
  lemma OnlyInstallPuts(s: State, e: Event)
    requires Enabled(s, e) && !e.Install? && Apply(s, e).current.Some?
    ensures Apply(s, e).rec.generation == s.rec.generation && Apply(s, e).current == s.current
  {
    hide Denotes, Healthy, AlreadyOpen, TooEarly, CountUp;
  }

  lemma {:induction false} ReadingAlongRun(s: State, events: seq<Event>, s': State)
    requires Inv(s) && Run(s, events, s') && CurrentIsRead(s)
    ensures CurrentIsRead(s')
    decreases |events|
  {
    hide Inv, Enabled, Apply, CurrentIsRead;
    if events != [] {
      StepKeepsReading(s, events[0]);
      InvKept(s, events[0]);
      ReadingAlongRun(Apply(s, events[0]), events[1..], s');
    }
  }

  /** In every reachable state the installed session has a reader of its generation: no
      interleaving leaves a connected wheel that nobody reads. */
  lemma CurrentIsAlwaysRead(events: seq<Event>, s: State)
    requires Run(Initial(), events, s)
    ensures s.current.Some? ==> exists r <- s.readers :: r.generation == s.rec.generation && r.session == s.current.value
  {
    InvReachable(events, s);
    assert Inv(Initial());
    ReadingAlongRun(Initial(), events, s);
    if s.current.Some? {
      var r :| r in s.readers && r.generation == s.rec.generation;
      CurrentReaderIsConnected(s, r);
    }
  }
}
