/** The migration journal: one record file per migration, rewritten whole by each operation.
    Unresolved records block new migrations until recovery can prove their target state. */
module MigrationJournal {
  import opened Optional

  type Id = string

  datatype Status = Pending | Running | Succeeded | Failed | Cancelled

  datatype JournalStep = JournalStep(name: string, status: string, detail: string)

  datatype Journal = Journal(
    id: Id, action: string, started: int, status: Status, success: bool, completed: bool, error: string,
    steps: seq<JournalStep>)

  /** A journal file either holds a record or cannot be read or parsed. */
  datatype Entry = Readable(m: Journal) | Damaged

  type Dir = map<Id, Entry>

  predicate Unresolved(m: Journal) {
    !m.completed || m.status == Pending || m.status == Running
  }

  predicate UnresolvedAt(d: Dir, id: Id) {
    id in d && d[id].Readable? && Unresolved(d[id].m)
  }

  predicate AllReadable(d: Dir) {
    forall id <- d :: d[id].Readable?
  }

  /** Records sit in the file named by their own id. */
  ghost predicate Named(d: Dir) {
    forall id <- d :: d[id].Readable? ==> d[id].m.id == id && id != ""
  }

  function Load(d: Dir, id: Id): Option<Journal> {
    if id != "" && id in d && d[id].Readable? then Some(d[id].m) else None
  }

  // ---- The record rewrites ----

  function Begun(id: Id, action: string, now: int): Journal {
    Journal(id, action, now, Pending, false, false, "", [])
  }

  /** A new record is pending, for the given action, with no steps and no outcome. */
  lemma BegunIsPending(id: Id, action: string, now: int)
    ensures var m := Begun(id, action, now);
            && m.id == id && m.action == action && m.started == now && m.status == Pending && Unresolved(m)
            && !m.success && !m.completed && m.steps == [] && m.error == ""
  {
  }

  function MarkedRunning(m: Journal, action: string): Journal {
    m.(action := action, status := Running)
  }

  function Appended(m: Journal, step: JournalStep): Journal {
    m.(steps := m.steps + [step])
  }

  function Completed(m: Journal, success: bool, cause: Option<string>): Journal {
    m.(completed := true, success := success,
       status := if success then Succeeded else Failed,
       error := if success then "" else if cause.Some? then cause.value else m.error)
  }

  function CancelledFor(m: Journal, reason: string): Journal {
    m.(completed := true, success := false, status := Cancelled, error := reason)
  }

  /** What an operation asks of a loaded record: a rewrite, or nothing. */
  datatype Edit =
    | MarkRunning(action: string)
    | Append(step: JournalStep)
    | Complete(success: bool, cause: Option<string>)
    | Cancel(reason: string)

  function Rewrite(m: Journal, e: Edit): Option<Journal> {
    match e
    case MarkRunning(action) => Some(MarkedRunning(m, action))
    case Append(step) => if m.completed then None else Some(Appended(m, step))
    case Complete(success, cause) => Some(Completed(m, success, cause))
    case Cancel(reason) => Some(CancelledFor(m, reason))
  }

  /** Load, modify, write back; `written` says whether the atomic write succeeds. */
  function Edited(d: Dir, id: Id, e: Edit, written: bool): (r: (Dir, bool)) {
    match Load(d, id)
    case None => (d, false)
    case Some(m) =>
      match Rewrite(m, e)
      case None => (d, false)
      case Some(m') => if written then (d[m'.id := Readable(m')], true) else (d, false)
  }

  predicate Removable(d: Dir, id: Id) {
    id in d && d[id].Readable? && d[id].m.completed
  }

  /** Old completed records are deleted, where the deletion works. */
  function Cleaned(d: Dir, deleted: Id -> bool): Dir {
    map id <- d | !(Removable(d, id) && deleted(id)) :: d[id]
  }

  /** RecoverInterruptedMigrations closes exactly the unresolved records whose target check holds. */
  function Recovered(d: Dir, satisfied: Journal -> bool): Dir {
    map id <- d :: if UnresolvedAt(d, id) && satisfied(d[id].m) then Readable(Completed(d[id].m, true, None)) else d[id]
  }

  /** The unresolved records among the given files, in order. */
  function UnresolvedOf(d: Dir, entries: seq<Id>): (ms: seq<Journal>) {
    if entries == [] then []
    else
      var n := |entries| - 1;
      UnresolvedOf(d, entries[..n]) + if UnresolvedAt(d, entries[n]) then [d[entries[n]].m] else []
  }

  /** Listing finds each unresolved record once, and nothing else. */
  lemma {:induction false} UnresolvedOfSound(d: Dir, entries: seq<Id>)
    requires Named(d)
    ensures forall m <- UnresolvedOf(d, entries) :: m.id in entries && UnresolvedAt(d, m.id) && d[m.id].m == m
    ensures forall id <- entries :: UnresolvedAt(d, id) ==> d[id].m in UnresolvedOf(d, entries)
  {
    if entries != [] {
      var n := |entries| - 1;
      UnresolvedOfSound(d, entries[..n]);
      assert entries == entries[..n] + [entries[n]];
    }
  }

  ghost predicate Enumerates(entries: seq<Id>, d: Dir) {
    && (forall id :: id in entries <==> id in d)
    && forall i, j | 0 <= i < j < |entries| :: entries[i] != entries[j]
  }

  /** What the clean-up deletes: completed records it finds old and can remove, nothing else;
      damaged ones and every other record stay as they are. */
  lemma CleanedExactly(d: Dir, deleted: Id -> bool, id: Id)
    ensures id in Cleaned(d, deleted) <==> id in d && !(d[id].Readable? && d[id].m.completed && deleted(id))
    ensures id in Cleaned(d, deleted) ==> Cleaned(d, deleted)[id] == d[id]
  {
  }

  // ---- Listing in order of start time ----

  ghost predicate SortedByStart(ms: seq<Journal>) {
    forall i, j | 0 <= i < j < |ms| :: ms[i].started <= ms[j].started
  }

  /** The same records, some order. */
  ghost predicate SameRecords(ms: seq<Journal>, ms': seq<Journal>) {
    multiset(ms) == multiset(ms')
  }

  lemma SameMembers(ms: seq<Journal>, ms': seq<Journal>)
    requires SameRecords(ms, ms')
    ensures forall m :: m in ms <==> m in ms'
    ensures |ms| == |ms'|
  {
    assert forall m :: m in ms <==> m in multiset(ms);
    assert forall m :: m in ms' <==> m in multiset(ms');
    assert |multiset(ms)| == |ms| && |multiset(ms')| == |ms'|;
  }

  /** A record put before the first one that started later. */
  function Inserted(ms: seq<Journal>, m: Journal): (r: seq<Journal>)
    ensures multiset(r) == multiset(ms) + multiset{m}
    ensures SortedByStart(ms) ==> SortedByStart(r)
    ensures r[0] == m || (ms != [] && r[0] == ms[0])
  {
    if ms == [] || m.started < ms[0].started then [m] + ms
    else
      assert ms == [ms[0]] + ms[1..];
      var rest := Inserted(ms[1..], m);
      InsertedSorted(ms, m, rest);
      [ms[0]] + rest
  }

  lemma InsertedSorted(ms: seq<Journal>, m: Journal, rest: seq<Journal>)
    requires ms != [] && ms[0].started <= m.started && multiset(rest) == multiset(ms[1..]) + multiset{m}
    ensures SortedByStart(ms) && SortedByStart(rest) ==> SortedByStart([ms[0]] + rest)
  {
    forall i | 0 <= i < |rest|
      ensures SortedByStart(ms) ==> ms[0].started <= rest[i].started
    {
      assert rest[i] in multiset(rest);
      assert rest[i] == m || rest[i] in ms[1..];
    }
  }

  /** sort.Slice by start time: some sorted arrangement of the same records. */
  method SortByStart(ms: seq<Journal>) returns (sorted: seq<Journal>)
    ensures SortedByStart(sorted) && SameRecords(sorted, ms)
  {
    sorted := [];
    for i := 0 to |ms|
      invariant SortedByStart(sorted) && multiset(sorted) == multiset(ms[..i])
    {
      assert ms[..i + 1] == ms[..i] + [ms[i]];
      sorted := Inserted(sorted, ms[i]);
    }
    assert ms[..|ms|] == ms;
  }

  /** Some of the records recovery means to close are closed, and nothing else changed. */
  ghost predicate PartlyRecovered(d: Dir, now: Dir, satisfied: Journal -> bool) {
    && now.Keys == d.Keys
    && forall id <- now :: now[id] == d[id] || now[id] == Recovered(d, satisfied)[id]
  }

  lemma NothingRecovered(d: Dir, satisfied: Journal -> bool)
    ensures PartlyRecovered(d, d, satisfied)
  {
  }

  /** A complete listing in any order is as good as the directory. */
  lemma ListedExactly(d: Dir, entries: seq<Id>, ms: seq<Journal>)
    requires Enumerates(entries, d) && Named(d) && SameRecords(ms, UnresolvedOf(d, entries))
    ensures forall m <- ms :: UnresolvedAt(d, m.id) && m.id in d && d[m.id].Readable? && d[m.id].m == m
    ensures forall id | UnresolvedAt(d, id) :: id in d && d[id].Readable? && d[id].m in ms && d[id].m.id == id
    ensures |ms| > 0 <==> exists id :: UnresolvedAt(d, id)
  {
    UnresolvedOfSound(d, entries);
    SameMembers(ms, UnresolvedOf(d, entries));
    assert forall id | UnresolvedAt(d, id) :: id in entries;
    if |ms| > 0 {
      assert ms[0] in ms && UnresolvedAt(d, ms[0].id);
    }
  }

  /** Where every listed record is closed or left as it should be, the directory is recovered. */
  lemma AllClosed(d: Dir, now: Dir, satisfied: Journal -> bool, ms: seq<Journal>)
    requires PartlyRecovered(d, now, satisfied)
    requires forall id | UnresolvedAt(d, id) :: id in d && d[id].Readable? && d[id].m in ms && d[id].m.id == id
    requires forall m <- ms :: m.id in now && m.id in Recovered(d, satisfied) && now[m.id] == Recovered(d, satisfied)[m.id]
    ensures now == Recovered(d, satisfied)
  {
  }

  lemma RecoveredKeys(d: Dir, satisfied: Journal -> bool)
    ensures Recovered(d, satisfied).Keys == d.Keys
  {
  }

  /** One turn of the recovery loop: closing a satisfied record, again if need be, or leaving
      another one. */
  lemma CloseOne(d: Dir, now: Dir, satisfied: Journal -> bool, m: Journal)
    requires PartlyRecovered(d, now, satisfied) && Named(d) && UnresolvedAt(d, m.id) && d[m.id].m == m
    ensures m.id in now && m.id in Recovered(d, satisfied)
    ensures satisfied(m) ==>
              && Edited(now, m.id, Complete(true, None), true) == (now[m.id := Recovered(d, satisfied)[m.id]], true)
              && Edited(now, m.id, Complete(true, None), false) == (now, false)
              && PartlyRecovered(d, now[m.id := Recovered(d, satisfied)[m.id]], satisfied)
    ensures !satisfied(m) ==> now[m.id] == Recovered(d, satisfied)[m.id]
  {
    assert m.id != "";
    assert Completed(Completed(m, true, None), true, None) == Completed(m, true, None);
  }

  class JournalDir {
    var dir: Dir

    constructor FromFiles(dir: Dir)
      ensures this.dir == dir
    {
      this.dir := dir;
    }

    method WriteMigration(m: Journal, written: bool) returns (ok: bool)
      modifies this
      ensures ok == written && dir == if written then old(dir)[m.id := Readable(m)] else old(dir)
    {
      if written {
        dir := dir[m.id := Readable(m)];
      }
      ok := written;
    }

    method EditMigration(id: Id, e: Edit, written: bool) returns (ok: bool)
      modifies this
      ensures (dir, ok) == Edited(old(dir), id, e, written)
    {
      var loaded := Load(dir, id);
      if loaded.None? {
        return false;
      }
      var next := Rewrite(loaded.value, e);
      if next.None? {
        return false;
      }
      ok := WriteMigration(next.value, written);
    }

    /** Nothing at all if the directory or one of its files cannot be read, which `listed`
        says, or if any journal is damaged; otherwise the unresolved ones, oldest first. */
    method ListIncompleteMigrations(entries: seq<Id>, listed: bool) returns (pending: Option<seq<Journal>>)
      requires Enumerates(entries, dir)
      ensures pending.Some? <==> listed && AllReadable(dir)
      ensures pending.Some? ==> SortedByStart(pending.value) && SameRecords(pending.value, UnresolvedOf(dir, entries))
    {
      if !listed {
        return None;
      }
      var out: seq<Journal> := [];
      for i := 0 to |entries|
        invariant forall j | 0 <= j < i :: dir[entries[j]].Readable?
        invariant out == UnresolvedOf(dir, entries[..i])
      {
        assert entries[..i + 1][..i] == entries[..i] && entries[i] in dir;
        match dir[entries[i]] {
          case Damaged =>
            return None;
          case Readable(m) =>
            if Unresolved(m) {
              out := out + [m];
            }
        }
      }
      assert entries[..|entries|] == entries;
      var sorted := SortByStart(out);
      pending := Some(sorted);
    }

    /** Refused exactly while a complete listing shows something unresolved; a listing that
        fails is ignored, as in the source. `deleted` says which old records the clean-up
        finds past their age and can delete. The events are what happened on disk, step by
        step; `used` are the ids ever given out. */
    method BeginMigration(
      entries: seq<Id>, listed: bool, id: Id, action: string, now: int, written: bool, deleted: Id -> bool, ghost used: set<Id>)
      returns (ok: bool, ghost events: seq<Event>)
      requires Enumerates(entries, dir) && Named(dir) && dir.Keys <= used && id !in used && id != ""
      modifies this
      ensures ok <==> written && BeginAllowed(old(dir), listed)
      ensures dir == if ok then Cleaned(old(dir)[id := Readable(Begun(id, action, now))], deleted) else old(dir)
      ensures Run(State(old(dir), used), events, State(dir, if ok then used + {id} else used))
      ensures if ok then events != [] && events[0] == New(id, action, now, listed) else events == []
    {
      events := [];
      var pending := ListIncompleteMigrations(entries, listed);
      if pending.Some? {
        ListedExactly(dir, entries, pending.value);
        if |pending.value| > 0 {
          return false, [];
        }
      }
      ok := WriteMigration(Begun(id, action, now), written);
      if !ok {
        return;
      }
      ghost var start, begun := State(old(dir), used), State(dir, used + {id});
      RunExtends(start, [], start, New(id, action, now, listed));
      ghost var cleaning := CleanupOldMigrations(entries + [id], deleted, used + {id});
      events := [New(id, action, now, listed)] + cleaning;
      RunsCompose(start, [New(id, action, now, listed)], begun, cleaning, State(dir, used + {id}));
    }

    method CleanupOldMigrations(entries: seq<Id>, deleted: Id -> bool, ghost used: set<Id>) returns (ghost events: seq<Event>)
      requires forall id <- dir :: id in entries
      modifies this
      ensures dir == Cleaned(old(dir), deleted)
      ensures Run(State(old(dir), used), events, State(dir, used))
    {
      events := [];
      var i := 0;
      while i < |entries|
        invariant 0 <= i <= |entries|
        invariant dir == CleanedUpTo(old(dir), deleted, entries[..i])
        invariant Run(State(old(dir), used), events, State(dir, used))
      {
        assert entries[..i + 1] == entries[..i] + [entries[i]];
        if Removable(dir, entries[i]) && deleted(entries[i]) {
          RunExtends(State(old(dir), used), events, State(dir, used), Delete(entries[i]));
          events := events + [Delete(entries[i])];
          dir := dir - {entries[i]};
        }
        i := i + 1;
      }
      assert entries[..|entries|] == entries;
    }

    /** The recovery loop: closes the satisfied ones of the given records, up to a failed write. */
    method CloseSatisfied(ms: seq<Journal>, satisfied: Journal -> bool, written: Id -> bool, ghost used: set<Id>)
      returns (ok: bool, ghost events: seq<Event>)
      requires Named(dir)
      requires forall m <- ms :: UnresolvedAt(dir, m.id) && dir[m.id].m == m
      modifies this
      ensures PartlyRecovered(old(dir), dir, satisfied)
      ensures ok ==> forall m <- ms :: m.id in dir && m.id in Recovered(old(dir), satisfied) && dir[m.id] == Recovered(old(dir), satisfied)[m.id]
      ensures ok <==> forall m <- ms :: satisfied(m) ==> written(m.id)
      ensures Run(State(old(dir), used), events, State(dir, used))
    {
      hide Run, Edited, Recovered, UnresolvedAt, Completed;
      events := [];
      EmptyRun(State(dir, used));
      ghost var goal := Recovered(dir, satisfied);
      RecoveredKeys(dir, satisfied);
      for i := 0 to |ms|
        invariant PartlyRecovered(old(dir), dir, satisfied)
        invariant forall j | 0 <= j < i :: ms[j].id in dir && ms[j].id in goal && dir[ms[j].id] == goal[ms[j].id]
        invariant forall j | 0 <= j < i :: satisfied(ms[j]) ==> written(ms[j].id)
        invariant Run(State(old(dir), used), events, State(dir, used))
      {
        var m := ms[i];
        assert m in ms;
        CloseOne(old(dir), dir, satisfied, m);
        if satisfied(m) {
          ghost var e := Edits(m.id, Complete(true, None), written(m.id));
          RunExtends(State(old(dir), used), events, State(dir, used), e);
          events := events + [e];
          var done := EditMigration(m.id, Complete(true, None), written(m.id));
          if !done {
            return false, events;
          }
        }
      }
      ok := true;
    }

    /** Recovery as the caller sees it. An error of the first listing is returned, one of the
        second is dropped: `listed` and `relisted` say whether the two could be read. */
    method RecoverInterruptedMigrations(
      entries: seq<Id>, listed: bool, relisted: bool, satisfied: Journal -> bool, written: Id -> bool, ghost used: set<Id>)
      returns (ok: bool, ghost events: seq<Event>)
      requires Enumerates(entries, dir) && Named(dir)
      modifies this
      ensures !listed || !AllReadable(old(dir)) ==> !ok && dir == old(dir)
      ensures ok ==> dir == Recovered(old(dir), satisfied) && RecoveryAccepted(old(dir), satisfied, relisted)
      ensures ok <==>
                && listed && AllReadable(old(dir)) && RecoveryAccepted(old(dir), satisfied, relisted)
                && CanCloseAll(old(dir), satisfied, written)
      ensures listed && AllReadable(old(dir)) && CanCloseAll(old(dir), satisfied, written) ==>
                dir == Recovered(old(dir), satisfied)
      ensures PartlyRecovered(old(dir), dir, satisfied)
      ensures Run(State(old(dir), used), events, State(dir, used))
    {
      hide Run, Recovered, UnresolvedAt, UnresolvedOf, SameRecords, Completed;
      EmptyRun(State(dir, used));
      RecoveredNamed(dir, satisfied);
      NothingRecovered(dir, satisfied);
      var pending := ListIncompleteMigrations(entries, listed);
      if pending.None? {
        return false, [];
      }
      ListedExactly(dir, entries, pending.value);
      assert CanCloseAll(dir, satisfied, written) <==> forall m <- pending.value :: satisfied(m) ==> written(m.id);
      var closed;
      closed, events := CloseSatisfied(pending.value, satisfied, written, used);
      if !closed {
        return false, events;
      }
      AllClosed(old(dir), dir, satisfied, pending.value);
      var remaining := ListIncompleteMigrations(entries, relisted);
      if remaining.Some? {
        ListedExactly(dir, entries, remaining.value);
        if |remaining.value| > 0 {
          return false, events;
        }
      }
      ok := true;
    }
  }

  function CleanedUpTo(d: Dir, deleted: Id -> bool, entries: seq<Id>): Dir {
    map id <- d | !(Removable(d, id) && deleted(id) && id in entries) :: d[id]
  }

  /** Every record recovery means to close can be written. */
  ghost predicate CanCloseAll(d: Dir, satisfied: Journal -> bool, written: Id -> bool) {
    forall id | UnresolvedAt(d, id) && satisfied(d[id].m) :: written(id)
  }

  /** No error is reported by recovery, given that its first listing and its writes work. */
  ghost predicate RecoveryAccepted(d: Dir, satisfied: Journal -> bool, relisted: bool) {
    relisted ==> forall id :: !UnresolvedAt(Recovered(d, satisfied), id)
  }

  /** What the absence of an error is worth: it means that nothing unresolved is left exactly
      if the second listing could be read or every target check held anyway. */
  lemma RecoveryMeansNothingLeft(d: Dir, satisfied: Journal -> bool, relisted: bool)
    requires RecoveryAccepted(d, satisfied, relisted)
    ensures (forall id :: !UnresolvedAt(Recovered(d, satisfied), id))
            <==> relisted || forall id :: UnresolvedAt(d, id) ==> satisfied(d[id].m)
  {
    forall id
      ensures UnresolvedAt(Recovered(d, satisfied), id) <==> UnresolvedAt(d, id) && !satisfied(d[id].m)
    {
      if id in d && d[id].Readable? {
        RecoveredLeaves(d, satisfied, id);
      }
    }
  }

  /** A failing run: one pending record whose check fails, and a second listing that fails.
      Recovery reports success although the record is still unresolved. */
  method RecoverySilentlyFails() returns (ok: bool, left: Dir)
    ensures ok && UnresolvedAt(left, "a")
  {
    var j := new JournalDir.FromFiles(map["a" := Readable(Begun("a", "setup-modern", 0))]);
    assert j.dir.Keys == {"a"};
    ghost var events;
    ok, events := j.RecoverInterruptedMigrations(["a"], true, false, _ => false, _ => true, {"a"});
    left := j.dir;
  }

  lemma RecoveredNamed(d: Dir, satisfied: Journal -> bool)
    requires Named(d)
    ensures Named(Recovered(d, satisfied))
    ensures AllReadable(d) ==> AllReadable(Recovered(d, satisfied))
  {
  }

  // ---- Begin and Recover, as they look from outside ----

  /** After recovery exactly the unresolved records whose target check failed are left; a
      closed one reads as a successful, completed migration with its steps intact. */
  lemma RecoveredLeaves(d: Dir, satisfied: Journal -> bool, id: Id)
    requires id in d && d[id].Readable?
    ensures UnresolvedAt(Recovered(d, satisfied), id) <==> UnresolvedAt(d, id) && !satisfied(d[id].m)
    ensures Recovered(d, satisfied)[id].Readable? && Evolved(d[id].m, Recovered(d, satisfied)[id].m)
    ensures Recovered(d, satisfied)[id] != d[id] ==>
              Recovered(d, satisfied)[id].m.success && Recovered(d, satisfied)[id].m.completed
  {
  }

  // ---- Runs of single writes and deletions ----

  /** One durable step: a new record under an unused id, a rewrite, or a deletion of the
      clean-up. Begin and Recover are runs of these, as their contracts say, so whatever holds
      at the end of every run holds wherever they may be stopped. */
  datatype Event =
    | New(id: Id, action: string, now: int, listed: bool)
    | Edits(id: Id, edit: Edit, written: bool)
    | Delete(id: Id)

  /** `used` are the ids ever given out. */
  datatype State = State(dir: Dir, used: set<Id>)

  ghost predicate Enabled(s: State, e: Event) {
    match e
    case New(id, _, _, _) => id !in s.used && id != ""
    case Edits(_, _, _) => true
    case Delete(id) => Removable(s.dir, id)
  }

  function Apply(s: State, e: Event): State {
    match e
    case New(id, action, now, _) => State(s.dir[id := Readable(Begun(id, action, now))], s.used + {id})
    case Edits(id, edit, written) => s.(dir := Edited(s.dir, id, edit, written).0)
    case Delete(id) => s.(dir := s.dir - {id})
  }

  ghost predicate Run(s: State, events: seq<Event>, s': State)
    decreases |events|
  {
    if events == [] then s' == s else Enabled(s, events[0]) && Run(Apply(s, events[0]), events[1..], s')
  }

  lemma EmptyRun(s: State)
    ensures Run(s, [], s)
  {
  }

  lemma {:induction false} RunExtends(s: State, events: seq<Event>, s': State, e: Event)
    requires Run(s, events, s') && Enabled(s', e)
    ensures Run(s, events + [e], Apply(s', e))
    decreases |events|
  {
    hide Enabled, Apply;
    if events == [] {
      assert [e][1..] == [];
    } else {
      RunExtends(Apply(s, events[0]), events[1..], s', e);
      assert (events + [e])[1..] == events[1..] + [e];
    }
  }

  lemma {:induction false} RunsCompose(s: State, events: seq<Event>, s1: State, more: seq<Event>, s2: State)
    requires Run(s, events, s1) && Run(s1, more, s2)
    ensures Run(s, events + more, s2)
    decreases |events|
  {
    hide Enabled, Apply;
    if events == [] {
      assert events + more == more;
    } else {
      RunsCompose(Apply(s, events[0]), events[1..], s1, more, s2);
      assert (events + more)[1..] == events[1..] + more;
    }
  }

  ghost predicate Inv(s: State) {
    && Named(s.dir) && s.dir.Keys <= s.used
    && forall id <- s.dir :: s.dir[id].Readable? ==> Consistent(s.dir[id].m)
  }

  /** What flags, status and error of one record always say about each other. */
  predicate Consistent(m: Journal) {
    && (m.success ==> m.completed && m.error == "")
    && (m.status == Succeeded ==> m.success)
    && (m.status == Failed || m.status == Cancelled ==> m.completed && !m.success)
  }

  /** The completed flag and the status agree. */
  predicate Settled(d: Dir) {
    forall id <- d :: d[id].Readable? ==>
      (d[id].m.completed <==> d[id].m.status != Pending && d[id].m.status != Running)
  }

  /** How a record may change: never back from completed, steps only appended, and none once
      completed. */
  ghost predicate Evolved(m: Journal, m': Journal) {
    && m'.id == m.id && m.steps <= m'.steps
    && (m.completed ==> m'.completed && m'.steps == m.steps)
  }

  ghost predicate StepOk(s: State, s': State) {
    && s.used <= s'.used
    && (forall id :: id in s.used && id !in s.dir ==> id !in s'.dir)
    && (forall id <- s.dir :: id in s'.dir ==>
          (s.dir[id].Readable? <==> s'.dir[id].Readable?)
          && (s.dir[id].Readable? ==> Evolved(s.dir[id].m, s'.dir[id].m)))
    && (forall id <- s.dir :: id !in s'.dir ==> s.dir[id].Readable?)
  }

  lemma StepKeeps(s: State, e: Event)
    requires Inv(s) && Enabled(s, e)
    ensures Inv(Apply(s, e)) && StepOk(s, Apply(s, e))
    ensures forall id <- s.dir :: id !in Apply(s, e).dir ==> s.dir[id].Readable? && s.dir[id].m.completed
  {
  }

  /** Over every run: success implies completion without an error, a final status implies the
      flags that go with it, and every record that is still there has
      only evolved: completed never reverts, steps are appended and frozen on completion. */
  lemma {:induction false} JournalHistory(s: State, events: seq<Event>, s': State)
    requires Inv(s) && Run(s, events, s')
    ensures Inv(s') && StepOk(s, s')
    decreases |events|
  {
    if events != [] {
      var s1 := Apply(s, events[0]);
      StepKeeps(s, events[0]);
      JournalHistory(s1, events[1..], s');
      hide Inv, Run;
    }
  }

  /** Over every run: a record is removed only when completed; what is unresolved by its
      completed flag stays until some edit completes it. */
  lemma {:induction false} UncompletedNeverRemoved(s: State, events: seq<Event>, s': State, id: Id)
    requires Inv(s) && Run(s, events, s') && id in s.dir && s.dir[id].Readable? && !s.dir[id].m.completed
    requires forall e <- events :: e.Edits? && e.id == id ==> !e.edit.Complete? && !e.edit.Cancel?
    ensures id in s'.dir && s'.dir[id].Readable? && !s'.dir[id].m.completed
    decreases |events|
  {
    if events != [] {
      var e, s1 := events[0], Apply(s, events[0]);
      StepKeeps(s, e);
      assert e in events;
      assert id in s1.dir && s1.dir[id].Readable? && !s1.dir[id].m.completed;
      assert forall x <- events[1..] :: x in events;
      UncompletedNeverRemoved(s1, events[1..], s', id);
    }
  }

  /** What the events of a run say of one record's steps: those appended while it could be
      written and was not completed, in order. */
  ghost function StepsTold(s: State, events: seq<Event>, id: Id, told: seq<JournalStep>): seq<JournalStep>
    decreases |events|
  {
    if events == [] then told
    else
      var e := events[0];
      StepsTold(
        Apply(s, e), events[1..], id,
        if e.New? && e.id == id then []
        else if e.Edits? && e.id == id && e.written && e.edit.Append? && id in s.dir && !s.dir[id].Damaged? && !s.dir[id].m.completed
        then told + [e.edit.step]
        else told)
  }

  /** Over every run a record's steps are exactly those: none lost, repeated or reordered, and
      no other operation touches them. */
  lemma {:induction false} StepsAreThoseAppended(s: State, events: seq<Event>, s': State, id: Id, told: seq<JournalStep>)
    requires Inv(s) && Run(s, events, s') && id in s'.dir && s'.dir[id].Readable?
    requires id in s.dir && s.dir[id].Readable? ==> s.dir[id].m.steps == told
    ensures s'.dir[id].m.steps == StepsTold(s, events, id, told)
    decreases |events|
  {
    if events != [] {
      var e := events[0];
      StepKeeps(s, e);
      var told' := if e.New? && e.id == id then []
                   else if e.Edits? && e.id == id && e.written && e.edit.Append? && id in s.dir && !s.dir[id].Damaged? && !s.dir[id].m.completed
                   then told + [e.edit.step]
                   else told;
      StepTold(s, e, id, told);
      StepsAreThoseAppended(Apply(s, e), events[1..], s', id, told');
    }
  }

  lemma StepTold(s: State, e: Event, id: Id, told: seq<JournalStep>)
    requires Inv(s) && Enabled(s, e) && (id in s.dir && s.dir[id].Readable? ==> s.dir[id].m.steps == told)
    ensures var s1 := Apply(s, e);
            id in s1.dir && s1.dir[id].Readable? ==>
              s1.dir[id].m.steps ==
                if e.New? && e.id == id then []
                else if e.Edits? && e.id == id && e.written && e.edit.Append? && id in s.dir && !s.dir[id].Damaged? && !s.dir[id].m.completed
                then told + [e.edit.step]
                else told
  {
  }

  /** What an edit that gets through makes of the record, and when it gets through: for any
      readable record, but for a step on a completed one. */
  lemma EditsDo(d: Dir, id: Id, e: Edit, written: bool)
    requires Named(d)
    ensures var (d', ok) := Edited(d, id, e, written);
            && (ok <==> written && id in d && d[id].Readable? && (e.Append? ==> !d[id].m.completed))
            && (!ok ==> d' == d)
            && (forall x | x != id :: x in d' <==> x in d) && (forall x <- d | x != id :: d'[x] == d[x])
            && (ok ==> id in d' && d'[id].Readable? && var m, m' := d[id].m, d'[id].m;
                  && m'.id == m.id && m'.started == m.started
                  && m'.action == (if e.MarkRunning? then e.action else m.action)
                  && m'.status == (match e
                                   case MarkRunning(_) => Running
                                   case Append(_) => m.status
                                   case Complete(success, _) => if success then Succeeded else Failed
                                   case Cancel(_) => Cancelled)
                  && (m'.completed <==> m.completed || e.Complete? || e.Cancel?)
                  && (m'.success <==> if e.Complete? then e.success else !e.Cancel? && m.success)
                  && (e.Cancel? ==> m'.error == e.reason)
                  && (e.Complete? && !e.success && e.cause.Some? ==> m'.error == e.cause.value)
                  && (e.Complete? && e.success ==> m'.error == "")
                  && (!e.Complete? && !e.Cancel? ==> m'.error == m.error))
  {
  }

  /** What BeginMigration checks: a listing that fails is taken for an empty one. */
  ghost predicate BeginAllowed(d: Dir, listed: bool) {
    !listed || !AllReadable(d) || forall id :: !UnresolvedAt(d, id)
  }

  ghost predicate OneInFlight(d: Dir) {
    forall a, b :: UnresolvedAt(d, a) && UnresolvedAt(d, b) ==> a == b
  }

  /** A run in which new records pass Begin's check, whether or not it could list the others,
      and nothing marks a resolved record as running again. */
  ghost predicate GuardedRun(s: State, events: seq<Event>, s': State)
    decreases |events|
  {
    if events == [] then s' == s
    else
      var e := events[0];
      && Enabled(s, e)
      && (e.New? ==> BeginAllowed(s.dir, e.listed))
      && (e.Edits? && e.edit.MarkRunning? ==> UnresolvedAt(s.dir, e.id) || Load(s.dir, e.id).None?)
      && GuardedRun(Apply(s, e), events[1..], s')
  }

  /** With readable journals and listings that work so does the guard: never is more than one
      migration unresolved, and completed records are exactly those with a final status. */
  lemma {:induction false} OneMigrationInFlight(s: State, events: seq<Event>, s': State)
    requires Inv(s) && AllReadable(s.dir) && OneInFlight(s.dir) && Settled(s.dir) && GuardedRun(s, events, s')
    requires forall e <- events :: e.New? ==> e.listed
    ensures AllReadable(s'.dir) && OneInFlight(s'.dir) && Settled(s'.dir)
    decreases |events|
  {
    if events != [] {
      var e := events[0];
      assert e in events && forall x <- events[1..] :: x in events;
      StepKeeps(s, e);
      GuardedStep(s, e);
      hide Inv, AllReadable, OneInFlight, Settled, BeginAllowed, UnresolvedAt, Apply;
      OneMigrationInFlight(Apply(s, e), events[1..], s');
    }
  }

  lemma GuardedStep(s: State, e: Event)
    requires Inv(s) && AllReadable(s.dir) && OneInFlight(s.dir) && Settled(s.dir) && Enabled(s, e)
    requires e.New? ==> e.listed && BeginAllowed(s.dir, e.listed)
    requires e.Edits? && e.edit.MarkRunning? ==> UnresolvedAt(s.dir, e.id) || Load(s.dir, e.id).None?
    ensures AllReadable(Apply(s, e).dir) && OneInFlight(Apply(s, e).dir) && Settled(Apply(s, e).dir)
  {
    var s1 := Apply(s, e);
    forall id | UnresolvedAt(s1.dir, id)
      ensures UnresolvedAt(s.dir, id) || (e.New? && e.id == id)
    {
    }
  }

  /** Beside an unresolved record the guard lets a second one through exactly if the listing
      failed or some journal is damaged, and then two are in flight. */
  lemma GuardFailsIff(d: Dir, listed: bool, id: Id)
    requires UnresolvedAt(d, id)
    ensures BeginAllowed(d, listed) <==> !listed || exists x :: x in d && d[x].Damaged?
    ensures BeginAllowed(d, listed) ==> forall x, action, now | x !in d ::
              !OneInFlight(d[x := Readable(Begun(x, action, now))])
  {
    forall x, action, now | x !in d
      ensures !OneInFlight(d[x := Readable(Begun(x, action, now))])
    {
      var d' := d[x := Readable(Begun(x, action, now))];
      assert UnresolvedAt(d', x) && UnresolvedAt(d', id);
    }
  }
}
