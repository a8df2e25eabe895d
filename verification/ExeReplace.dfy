/** Replacing and rolling back the executable. The file system is a map; every primitive is
    one atomic step except copying, which may leave any partial file behind. Any primitive
    may fail, and the process may stop after any of them, so what counts is the sequence of
    all states the disk goes through. */
module ExeReplace {
  import opened Optional
  import opened StopPoints

  type Bytes = seq<int>

  /** The files replaceExeTransactional and rollbackExe touch: the target with its .new,
      .previous and .failed companions, and anything else, such as the staged executable. */
  datatype Path = Target | New | Previous | Failed | Other(name: string)

  type Disk = map<Path, Bytes>

  function Removed(d: Disk, p: Path): Disk {
    d - {p}
  }

  function At(d: Disk, p: Path): Option<Bytes> {
    if p in d then Some(d[p]) else None
  }

  /** Renaming replaces an existing destination, as os.Rename does on Windows. */
  function Renamed(d: Disk, src: Path, dst: Path): Disk {
    if src in d then (d - {src})[dst := d[src]] else d
  }

  /** What may go wrong in one call: each flag says whether that primitive does its work.
      `partial` is what a copy leaves half-way; the two stat flags model a Stat that fails
      although the file is there. */
  datatype Faults = Faults(
    removeNew: bool, create: bool, partial: Bytes, copyDone: bool, removePrevious: bool, statTarget: bool,
    renameOld: bool, renameNew: bool, renameBack: bool, cleanUp: bool)

  datatype RollbackFaults = RollbackFaults(
    statPrevious: bool, removeFailed: bool, statTarget: bool, renameAway: bool, renameBack: bool, cleanUp: bool)

  /** The bytes a complete copy of `src` over `dst` leaves: copying a file onto itself
      truncates it before it is read. */
  function CopiedBytes(d: Disk, src: Path, dst: Path): Bytes
    requires src in d
  {
    if src == dst then [] else d[src]
  }

  /** The first half of replaceExeTransactional: the new file is copied beside the target
      and an older fallback is removed. */
  function Stage(h: History<Disk>, newExe: Path, f: Faults): (t: Outcome<Disk, Option<()>>) {
    var h1 := h.Step(f.removeNew, Removed(h.now, New));
    if newExe !in h1.now || !f.create then Outcome(h1, None)
    else
      var copied := CopiedBytes(h1.now, newExe, New);
      var h2 := h1.Step(true, h1.now[New := []]);
      var h3 := h2.Step(true, h2.now[New := f.partial]);
      if !f.copyDone then Outcome(h3, None)
      else
        var h4 := h3.Step(true, h3.now[New := copied]);
        Outcome(h4.Step(f.removePrevious, Removed(h4.now, Previous)), Some(()))
  }

  /** The second half: the old executable steps aside and the new one takes its name. The
      result tells whether an old executable was kept as a fallback. */
  function Activate(h: History<Disk>, f: Faults): (t: Outcome<Disk, Option<bool>>) {
    if Target in h.now && f.statTarget then
      if !f.renameOld then Outcome(h.Step(f.cleanUp, Removed(h.now, New)), None)
      else
        var h1 := h.Step(true, Renamed(h.now, Target, Previous));
        if f.renameNew then Outcome(h1.Step(true, Renamed(h1.now, New, Target)), Some(true))
        else
          var h2 := h1.Step(f.renameBack, Renamed(h1.now, Previous, Target));
          Outcome(h2.Step(f.cleanUp, Removed(h2.now, New)), None)
    else if f.renameNew then Outcome(h.Step(true, Renamed(h.now, New, Target)), Some(false))
    else Outcome(h.Step(f.cleanUp, Removed(h.now, New)), None)
  }

  function Replace(h: History<Disk>, newExe: Path, f: Faults): (t: Outcome<Disk, Option<bool>>) {
    var s := Stage(h, newExe, f);
    if s.result.None? then Outcome(s.history, None) else Activate(s.history, f)
  }

  /** rollbackExe; without a previous executable it succeeds and does nothing. */
  function Rollback(h: History<Disk>, hasPrevious: bool, f: RollbackFaults): (t: Outcome<Disk, Option<()>>) {
    if !hasPrevious then Outcome(h, Some(()))
    else if Previous !in h.now || !f.statPrevious then Outcome(h, None)
    else
      var h1 := h.Step(f.removeFailed, Removed(h.now, Failed));
      var h2 := h1.Step(Target in h1.now && f.statTarget && f.renameAway, Renamed(h1.now, Target, Failed));
      if !f.renameBack then Outcome(h2, None)
      else
        var h3 := h2.Step(true, Renamed(h2.now, Previous, Target));
        Outcome(h3.Step(f.cleanUp, Removed(h3.now, Failed)), Some(()))
  }

  /** A disk whose steps are recorded: the operations in the order of the source, proved to
      take exactly the steps of the traces above. */
  class RecordedDisk {
    var files: Disk
    ghost var history: History<Disk>

    ghost predicate Valid() reads this {
      files == history.now
    }

    constructor (files: Disk)
      ensures Valid() && this.files == files && history == Start(files)
    {
      this.files := files;
      history := Start(files);
    }

    method Do(works: bool, next: Disk)
      requires Valid()
      modifies this
      ensures Valid() && history == old(history).Step(works, next)
    {
      if works {
        files := next;
      }
      history := History(history.past + [history.now], files);
    }

    method StageNew(newExe: Path, f: Faults) returns (ok: bool)
      requires Valid()
      modifies this
      ensures Valid() && history == Stage(old(history), newExe, f).history
      ensures ok == Stage(old(history), newExe, f).result.Some?
    {
      hide Removed, CopiedBytes;
      Do(f.removeNew, Removed(files, New));
      if newExe !in files || !f.create {
        return false;
      }
      var copied := CopiedBytes(files, newExe, New);
      Do(true, files[New := []]);
      Do(true, files[New := f.partial]);
      if !f.copyDone {
        return false;
      }
      Do(true, files[New := copied]);
      Do(f.removePrevious, Removed(files, Previous));
      ok := true;
    }

    method ActivateNew(f: Faults) returns (r: Option<bool>)
      requires Valid()
      modifies this
      ensures Valid() && Outcome(history, r) == Activate(old(history), f)
    {
      hide Removed, Renamed;
      var hadTarget := false;
      if Target in files && f.statTarget {
        if !f.renameOld {
          Do(f.cleanUp, Removed(files, New));
          return None;
        }
        Do(true, Renamed(files, Target, Previous));
        hadTarget := true;
      }
      if !f.renameNew {
        if hadTarget {
          Do(f.renameBack, Renamed(files, Previous, Target));
        }
        Do(f.cleanUp, Removed(files, New));
        return None;
      }
      Do(true, Renamed(files, New, Target));
      r := Some(hadTarget);
    }

    method ReplaceExeTransactional(newExe: Path, f: Faults) returns (r: Option<bool>)
      requires Valid()
      modifies this
      ensures Valid() && Outcome(history, r) == Replace(old(history), newExe, f)
    {
      hide Stage, Activate;
      var staged := StageNew(newExe, f);
      if !staged {
        return None;
      }
      r := ActivateNew(f);
    }

    method RollbackExe(hasPrevious: bool, f: RollbackFaults) returns (r: Option<()>)
      requires Valid()
      modifies this
      ensures Valid() && Outcome(history, r) == Rollback(old(history), hasPrevious, f)
    {
      hide Removed, Renamed;
      if !hasPrevious {
        return Some(());
      }
      if Previous !in files || !f.statPrevious {
        return None;
      }
      Do(f.removeFailed, Removed(files, Failed));
      Do(Target in files && f.statTarget && f.renameAway, Renamed(files, Target, Failed));
      if !f.renameBack {
        return None;
      }
      Do(true, Renamed(files, Previous, Target));
      Do(f.cleanUp, Removed(files, Failed));
      r := Some(());
    }
  }

  /** The old bytes can still be found under one of the two names. */
  ghost predicate Survives(d: Disk, exe: Bytes) {
    (Target in d && d[Target] == exe) || (Previous in d && d[Previous] == exe)
  }

  ghost predicate SurvivesThroughout(h: History<Disk>, exe: Bytes) {
    Survives(h.now, exe) && forall i | 0 <= i < |h.past| :: Survives(h.past[i], exe)
  }

  /** The only way to lose the old executable is the branch that believes there is none: a
      Stat that fails on an existing target, after which the new file is renamed over it. */
  ghost predicate BlindOverwrite(d: Disk, newExe: Path, f: Faults) {
    !f.statTarget && f.renameNew && CopyCompletes(d, newExe, f)
  }

  /** The new file is still there once target.new is gone, and can be copied beside the target. */
  predicate CopyCompletes(d: Disk, newExe: Path, f: Faults) {
    f.create && f.copyDone && newExe in (if f.removeNew then Removed(d, New) else d)
  }

  ghost predicate InPlace(h: History<Disk>, exe: Bytes) {
    SurvivesThroughout(h, exe) && Target in h.now && h.now[Target] == exe
  }

  lemma StepInPlace(h: History<Disk>, works: bool, next: Disk, exe: Bytes)
    requires InPlace(h, exe) && Target in next && next[Target] == exe
    ensures InPlace(h.Step(works, next), exe)
    ensures h.Step(works, next).now == if works then next else h.now
  {
  }

  lemma OldSurvivesStage(d: Disk, newExe: Path, f: Faults)
    requires Target in d
    ensures var t := Stage(Start(d), newExe, f);
            && InPlace(t.history, d[Target])
            && (t.result.Some? ==> New in t.history.now
                                   && StagedBytes(d, newExe, f) == Some(t.history.now[New]))
  {
    hide InPlace, SurvivesThroughout, CopiedBytes;
    var exe := d[Target];
    assert InPlace(Start(d), exe) by { SingletonInPlace(d); }
    var h1 := Start(d).Step(f.removeNew, Removed(d, New));
    StepInPlace(Start(d), f.removeNew, Removed(d, New), exe);
    if newExe in h1.now && f.create {
      var h2 := h1.Step(true, h1.now[New := []]);
      InPlaceNow(h1, exe);
      StepInPlace(h1, true, h1.now[New := []], exe);
      var h3 := h2.Step(true, h2.now[New := f.partial]);
      StepInPlace(h2, true, h2.now[New := f.partial], exe);
      if f.copyDone {
        var copied := CopiedBytes(h1.now, newExe, New);
        var h4 := h3.Step(true, h3.now[New := copied]);
        StepInPlace(h3, true, h3.now[New := copied], exe);
        StepInPlace(h4, f.removePrevious, Removed(h4.now, Previous), exe);
      }
    }
  }

  lemma SingletonInPlace(d: Disk)
    requires Target in d
    ensures InPlace(Start(d), d[Target])
  {
  }

  lemma InPlaceNow(h: History<Disk>, exe: Bytes)
    requires InPlace(h, exe)
    ensures Target in h.now && h.now[Target] == exe
  {
  }

  /** What a complete copy of the staged executable reads. */
  function StagedBytes(d: Disk, newExe: Path, f: Faults): Option<Bytes> {
    var d1 := if f.removeNew then Removed(d, New) else d;
    if newExe in d1 then Some(CopiedBytes(d1, newExe, New)) else None
  }

  lemma OldSurvivesActivate(h: History<Disk>, f: Faults, exe: Bytes)
    requires SurvivesThroughout(h, exe) && Target in h.now && h.now[Target] == exe && New in h.now
    requires f.statTarget || !f.renameNew
    ensures SurvivesThroughout(Activate(h, f).history, exe)
  {
  }

  /** When the old executable is safe from a blind overwrite after all: the update is the same
      file, or the earlier fallback, which could not be removed, is. */
  ghost predicate OverwriteHarmless(d: Disk, newExe: Path, f: Faults)
    requires Target in d
  {
    || StagedBytes(d, newExe, f) == Some(d[Target])
    || (Previous in d && !f.removePrevious && d[Previous] == d[Target])
  }

  /** Under every combination of failing steps, the old executable is at target or
      target.previous at every stop point exactly if no failing Stat lets the new file be
      renamed over it, or that does no harm. */
  lemma OldSurvivesReplaceIff(d: Disk, newExe: Path, f: Faults)
    requires Target in d
    ensures SurvivesThroughout(Replace(Start(d), newExe, f).history, d[Target])
            <==> !BlindOverwrite(d, newExe, f) || OverwriteHarmless(d, newExe, f)
  {
    OldSurvivesStage(d, newExe, f);
    var s := Stage(Start(d), newExe, f);
    if BlindOverwrite(d, newExe, f) {
      BlindOverwriteOutcome(d, newExe, f);
      StagedFallback(d, newExe, f);
    } else if s.result.Some? {
      OldSurvivesActivate(s.history, f, d[Target]);
    }
  }

  /** In the blind case the call reports success, and whether the old executable survived is
      decided by the last state alone, where target holds the copied file and the fallback is
      the one staging left. */
  lemma BlindOverwriteOutcome(d: Disk, newExe: Path, f: Faults)
    requires Target in d && BlindOverwrite(d, newExe, f)
    ensures var t, staged := Replace(Start(d), newExe, f), Stage(Start(d), newExe, f).history.now;
            && t.result == Some(false)
            && (SurvivesThroughout(t.history, d[Target]) <==> Survives(t.history.now, d[Target]))
            && Target in t.history.now && StagedBytes(d, newExe, f) == Some(t.history.now[Target])
            && At(t.history.now, Previous) == At(staged, Previous)
  {
    OldSurvivesStage(d, newExe, f);
    var s, t := Stage(Start(d), newExe, f), Replace(Start(d), newExe, f);
    assert t.history == s.history.Step(true, t.history.now);
    assert t.history.past[|t.history.past| - 1] == s.history.now;
  }

  /** A complete staging leaves the earlier fallback only where it could not be removed. */
  lemma StagedFallback(d: Disk, newExe: Path, f: Faults)
    requires Stage(Start(d), newExe, f).result.Some?
    ensures At(Stage(Start(d), newExe, f).history.now, Previous) == if f.removePrevious then None else At(d, Previous)
  {
  }

  /** One losing disk: an old executable, an older fallback, an update, and nothing failing
      but the Stat of the target. Both old files are gone and the call reports success. */
  lemma LosingDisk()
    ensures var d := map[Target := [1], Previous := [0], Other("LogiMate.exe") := [2]];
            var f := Faults(true, true, [], true, true, false, true, true, true, true);
            var t := Replace(Start(d), Other("LogiMate.exe"), f);
            && t.result == Some(false)
            && t.history.now[Target] == [2] && Previous !in t.history.now
            && !SurvivesThroughout(t.history, [1])
  {
    var d := map[Target := [1], Previous := [0], Other("LogiMate.exe") := [2]];
    var f := Faults(true, true, [], true, true, false, true, true, true, true);
    BlindOverwriteOutcome(d, Other("LogiMate.exe"), f);
    OldSurvivesReplaceIff(d, Other("LogiMate.exe"), f);
    StagedFallback(d, Other("LogiMate.exe"), f);
    hide Replace, Stage;
  }

  /** Success: target holds the new bytes and previous the old ones. The staged file must not
      be target.new itself, which is removed, or truncated, before it is read. */
  lemma ReplaceSucceeds(d: Disk, newExe: Path, f: Faults)
    requires Replace(Start(d), newExe, f).result.Some? && newExe in d && f.statTarget
    ensures var kept, final := Replace(Start(d), newExe, f).result.value, Replace(Start(d), newExe, f).history.now;
            && kept == (Target in d)
            && Target in final && (final[Target] == d[newExe] <==> newExe != New || d[newExe] == [])
            && (kept ==> Previous in final && final[Previous] == d[Target])
            && New !in final
  {
  }

  /** A failed replace leaves the old executable in place, unless renaming it back failed too,
      in which case it is at .previous. */
  lemma ReplaceFails(d: Disk, newExe: Path, f: Faults)
    requires Target in d && Replace(Start(d), newExe, f).result.None?
    ensures var final := Replace(Start(d), newExe, f).history.now;
            if Target in final then final[Target] == d[Target]
            else !f.renameBack && Previous in final && final[Previous] == d[Target]
  {
    OldSurvivesStage(d, newExe, f);
    hide Stage;
  }

  /** When a replace succeeds at all: the copy completes, an old executable that is seen steps
      aside, and the new one takes its name. A failed copy leaves everything but target.new. */
  lemma ReplaceSucceedsIff(d: Disk, newExe: Path, f: Faults)
    ensures var t := Replace(Start(d), newExe, f);
            && (t.result.Some? <==> CopyCompletes(d, newExe, f) && (Target in d && f.statTarget ==> f.renameOld) && f.renameNew)
            && (!CopyCompletes(d, newExe, f) ==> t.history.now - {New} == d - {New})
  {
  }

  /** When a rollback succeeds, and what it leaves: the fallback is at target and its place is
      empty, or, where there was nothing to roll back, the disk is as it was. A failed one keeps
      the fallback. */
  lemma RollbackOutcome(d: Disk, hasPrevious: bool, f: RollbackFaults)
    ensures var t := Rollback(Start(d), hasPrevious, f); var final := t.history.now;
            && (t.result.Some? <==> !hasPrevious || (Previous in d && f.statPrevious && f.renameBack))
            && (!hasPrevious || Previous !in d || !f.statPrevious ==> t.history == Start(d))
            && (hasPrevious && t.result.Some? ==> At(final, Target) == At(d, Previous) && Previous !in final)
            && (t.result.None? ==> At(final, Previous) == At(d, Previous))
            && (forall p | p !in {Target, Previous, Failed} :: At(final, p) == At(d, p))
  {
  }

  /** Rolling back keeps the old executable findable at every stop point, too. */
  lemma OldSurvivesRollback(d: Disk, hasPrevious: bool, f: RollbackFaults)
    requires Previous in d
    ensures SurvivesThroughout(Rollback(Start(d), hasPrevious, f).history, d[Previous])
  {
  }

  /** A successful rollback after any successful replace, with the same answer about a kept
      fallback, restores the target exactly if that replace saw the old executable, or wrote
      the very same bytes. Whatever happened to other files in between does not matter. */
  lemma RollbackRestoresIff(d: Disk, newExe: Path, f: Faults, between: Disk, g: RollbackFaults)
    requires Replace(Start(d), newExe, f).result.Some?
    requires var after := Replace(Start(d), newExe, f).history.now;
             At(between, Target) == At(after, Target) && At(between, Previous) == At(after, Previous)
    requires Rollback(Start(between), Replace(Start(d), newExe, f).result.value, g).result.Some?
    ensures At(Rollback(Start(between), Replace(Start(d), newExe, f).result.value, g).history.now, Target) == At(d, Target)
            <==> (Target in d && f.statTarget) || StagedBytes(d, newExe, f) == At(d, Target)
  {
    var kept := Replace(Start(d), newExe, f).result.value;
    ReplaceOutcome(d, newExe, f);
    hide Replace, Stage, StagedBytes;
    assert !kept ==> Rollback(Start(between), kept, g).history.now == between;
  }

  /** What a successful replace leaves under the two names. */
  lemma ReplaceOutcome(d: Disk, newExe: Path, f: Faults)
    requires Replace(Start(d), newExe, f).result.Some?
    ensures var kept, after := Replace(Start(d), newExe, f).result.value, Replace(Start(d), newExe, f).history.now;
            && kept == (Target in d && f.statTarget)
            && At(after, Target) == StagedBytes(d, newExe, f)
            && (kept ==> At(after, Previous) == At(d, Target))
  {
    StagedTarget(d, newExe, f);
    hide Stage;
  }

  lemma StagedTarget(d: Disk, newExe: Path, f: Faults)
    requires Stage(Start(d), newExe, f).result.Some?
    ensures var s := Stage(Start(d), newExe, f).history.now;
            && At(s, Target) == At(d, Target)
            && StagedBytes(d, newExe, f) == At(s, New) && New in s
  {
  }

  /** The failing case: after a blind overwrite there is nothing to roll back to, so rollback
      succeeds at once, on every disk, and leaves the new executable in place. */
  lemma RollbackAfterBlindOverwrite(d: Disk, newExe: Path, f: Faults, g: RollbackFaults)
    requires Target in d && BlindOverwrite(d, newExe, f)
    ensures var t := Replace(Start(d), newExe, f);
            && t.result == Some(false)
            && Rollback(t.history, false, g) == Outcome(t.history, Some(()))
            && At(t.history.now, Target) == StagedBytes(d, newExe, f)
  {
    BlindOverwriteOutcome(d, newExe, f);
  }

  // ---- Runs of calls ----

  datatype Call = Call(newExe: Path, faults: Faults)

  /** Where the version last put in place can be after a call: at target, or, if a call failed
      and could not undo itself, only at .previous. */
  ghost predicate Holds(d: Disk, version: Bytes) {
    if Target in d then d[Target] == version else At(d, Previous) == Some(version)
  }

  /** The call does not lose the version in place: found at target, it is not overwritten
      blindly; found at .previous only, the copy fails or .previous cannot be removed. */
  ghost predicate Safe(d: Disk, c: Call) {
    if Target in d then !BlindOverwrite(d, c.newExe, c.faults) || OverwriteHarmless(d, c.newExe, c.faults)
    else !CopyCompletes(d, c.newExe, c.faults) || !c.faults.removePrevious
  }

  function DiskAfter(d: Disk, c: Call): Disk {
    Replace(Start(d), c.newExe, c.faults).history.now
  }

  /** A successful call puts its own file in place. */
  function VersionAfter(d: Disk, version: Bytes, c: Call): Bytes {
    if Replace(Start(d), c.newExe, c.faults).result.None? then version
    else
      match StagedBytes(d, c.newExe, c.faults)
      case Some(bytes) => bytes
      case None => version
  }

  /** At every stop point of every call, the version in place when it began can be found. */
  ghost predicate NeverLost(d: Disk, version: Bytes, calls: seq<Call>)
    decreases |calls|
  {
    calls != [] ==>
      && SurvivesThroughout(Replace(Start(d), calls[0].newExe, calls[0].faults).history, version)
      && NeverLost(DiskAfter(d, calls[0]), VersionAfter(d, version, calls[0]), calls[1..])
  }

  ghost predicate AllSafe(d: Disk, calls: seq<Call>)
    decreases |calls|
  {
    calls != [] ==> Safe(d, calls[0]) && AllSafe(DiskAfter(d, calls[0]), calls[1..])
  }

  /** With the version at .previous only, a call loses it exactly if it gets past the copy and
      removes .previous: at once, whatever follows. */
  lemma StrandedSurvivesIff(d: Disk, c: Call, version: Bytes)
    requires Target !in d && At(d, Previous) == Some(version)
    ensures SurvivesThroughout(Replace(Start(d), c.newExe, c.faults).history, version) <==> Safe(d, c)
    ensures Safe(d, c) && Replace(Start(d), c.newExe, c.faults).result.None? ==> Holds(DiskAfter(d, c), version)
  {
    var s := Stage(Start(d), c.newExe, c.faults);
    StrandedStage(d, c, version);
    if s.result.Some? {
      StrandedActivate(s.history, c.faults, version);
    }
    hide Stage, Activate;
  }

  lemma StrandedStage(d: Disk, c: Call, version: Bytes)
    requires Target !in d && At(d, Previous) == Some(version)
    ensures var s := Stage(Start(d), c.newExe, c.faults);
            && (s.result.Some? <==> CopyCompletes(d, c.newExe, c.faults))
            && Target !in s.history.now
            && (s.result.Some? ==> New in s.history.now)
            && (s.result.None? || !c.faults.removePrevious ==>
                  SurvivesThroughout(s.history, version) && At(s.history.now, Previous) == Some(version))
            && (s.result.Some? && c.faults.removePrevious ==> !Survives(s.history.now, version))
  {
  }

  lemma StrandedActivate(h: History<Disk>, f: Faults, version: Bytes)
    requires Target !in h.now && New in h.now
    ensures var a := Activate(h, f);
            && (SurvivesThroughout(h, version) && At(h.now, Previous) == Some(version) ==>
                  SurvivesThroughout(a.history, version)
                  && (a.result.None? ==> Target !in a.history.now && At(a.history.now, Previous) == Some(version)))
            && (!Survives(h.now, version) ==> !SurvivesThroughout(a.history, version))
  {
    var a := Activate(h, f);
    assert a.history.past[|a.history.past| - 1] == h.now;
  }

  /** Each call keeps track of the version in place, as long as it does not lose it. */
  lemma CallKeepsHold(d: Disk, c: Call, version: Bytes)
    requires Holds(d, version)
    ensures SurvivesThroughout(Replace(Start(d), c.newExe, c.faults).history, version) <==> Safe(d, c)
    ensures Safe(d, c) ==> Holds(DiskAfter(d, c), VersionAfter(d, version, c))
  {
    if Replace(Start(d), c.newExe, c.faults).result.Some? {
      ReplaceOutcome(d, c.newExe, c.faults);
      StagedTarget(d, c.newExe, c.faults);
    }
    if Target in d {
      OldSurvivesReplaceIff(d, c.newExe, c.faults);
      if Replace(Start(d), c.newExe, c.faults).result.None? {
        ReplaceFails(d, c.newExe, c.faults);
      }
    } else {
      StrandedSurvivesIff(d, c, version);
    }
    hide Stage, Activate, Replace, StagedBytes, SurvivesThroughout, BlindOverwrite, OverwriteHarmless, CopyCompletes;
  }

  /** Over any run of calls, whatever fails in each: the version in place is never lost, at any
      stop point, exactly if every call is safe on the disk it finds. */
  lemma {:induction false} NeverLostIff(d: Disk, version: Bytes, calls: seq<Call>)
    requires Holds(d, version)
    ensures NeverLost(d, version, calls) <==> AllSafe(d, calls)
    decreases |calls|
  {
    hide Holds, Safe, Replace, SurvivesThroughout, DiskAfter, VersionAfter;
    if calls != [] {
      CallKeepsHold(d, calls[0], version);
      if Safe(d, calls[0]) {
        NeverLostIff(DiskAfter(d, calls[0]), VersionAfter(d, version, calls[0]), calls[1..]);
      }
    }
  }

  /** Two calls lose the executable although no Stat fails: the first can neither activate the
      new file nor undo itself, the second removes .previous and fails as well. */
  lemma TwoCallsLose()
    ensures var d := map[Target := [1], Other("LogiMate.exe") := [2]];
            var update := Other("LogiMate.exe");
            var first := Faults(true, true, [], true, true, true, true, false, false, true);
            var second := Faults(true, true, [], true, true, true, true, false, true, true);
            var d1 := DiskAfter(d, Call(update, first));
            var d2 := DiskAfter(d1, Call(update, second));
            && Safe(d, Call(update, first)) && At(d1, Previous) == Some([1]) && Target !in d1
            && !Safe(d1, Call(update, second)) && Target !in d2 && Previous !in d2
  {
  }
}
