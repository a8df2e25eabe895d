/** Log rotation: slot 0 is the log itself, slot i the file with suffix ".i". A rename of a
    missing file does nothing, and any remove or rename may fail. */
module LogRotation {
  import opened Optional

  type Bytes = seq<int>

  type Slots = map<nat, Bytes>

  function At(s: Slots, i: nat): Option<Bytes> {
    if i in s then Some(s[i]) else None
  }

  function Renamed(s: Slots, from: nat, to: nat): Slots {
    if from in s then (s - {from})[to := s[from]] else s
  }

  /** The renames i -> i+1, i-1 -> i, ..., 1 -> 2, of which number j happens if works(j). */
  function ShiftedUp(s: Slots, i: nat, works: nat -> bool): Slots
    decreases i
  {
    if i == 0 then s
    else ShiftedUp(if works(i) then Renamed(s, i, i + 1) else s, i - 1, works)
  }

  function Kept(keep: int): (k: nat)
    ensures 1 <= k
  {
    if keep < 1 then 1 else keep
  }

  /** `works(k)` also says whether the oldest slot k can be removed, `works(0)` whether the
      log itself can be renamed. */
  function Rotated(s: Slots, keep: int, works: nat -> bool): Slots {
    var k := Kept(keep);
    var s1 := if works(k) then s - {k} else s;
    var s2 := ShiftedUp(s1, k - 1, works);
    if works(0) then Renamed(s2, 0, 1) else s2
  }

  class LogFiles {
    var slots: Slots

    method RotateLogFile(maxBytes: int, keep: int, works: nat -> bool)
      modifies this
      ensures slots == if 0 in old(slots) && |old(slots)[0]| >= maxBytes
                       then Rotated(old(slots), keep, works) else old(slots)
    {
      if 0 !in slots || |slots[0]| < maxBytes {
        return;
      }
      var k := if keep < 1 then 1 else keep;
      if works(k) {
        slots := slots - {k};
      }
      ghost var goal := ShiftedUp(slots, k - 1, works);
      var i := k - 1;
      while i >= 1
        invariant 0 <= i
        invariant ShiftedUp(slots, i, works) == goal
      {
        if works(i) {
          slots := Renamed(slots, i, i + 1);
        }
        i := i - 1;
      }
      if works(0) {
        slots := Renamed(slots, 0, 1);
      }
    }
  }

  lemma {:induction false} ShiftedUpSlots(s: Slots, i: nat, works: nat -> bool, j: nat)
    requires i + 1 !in s && forall n | 1 <= n <= i :: works(n)
    ensures At(ShiftedUp(s, i, works), j) ==
            if j == 0 || j > i + 1 then At(s, j) else if j == 1 then None else At(s, j - 1)
    decreases i
  {
    if i > 0 {
      ShiftedUpSlots(Renamed(s, i, i + 1), i - 1, works, j);
    }
  }

  /** When nothing fails, for any keep and whichever files are missing: every kept slot moves
      up by one, the log becomes slot 1, the oldest slot is gone, higher ones are untouched. */
  lemma RotationShifts(s: Slots, keep: int, works: nat -> bool, j: nat)
    requires 0 in s && forall n: nat :: works(n)
    ensures At(Rotated(s, keep, works), j) ==
            var k := if keep < 1 then 1 else keep;
            if j == 0 then None else if j <= k then At(s, j - 1) else At(s, j)
  {
    var k := Kept(keep);
    ShiftedUpSlots(s - {k}, k - 1, works, j);
    ShiftedUpSlots(s - {k}, k - 1, works, 0);
  }

  lemma {:induction false} ShiftedUpTouches(s: Slots, i: nat, works: nat -> bool, j: nat)
    requires j == 0 || j > i + 1
    ensures At(ShiftedUp(s, i, works), j) == At(s, j)
    decreases i
  {
    if i > 0 {
      ShiftedUpTouches(if works(i) then Renamed(s, i, i + 1) else s, i - 1, works, j);
    }
  }

  /** Whatever fails, the log being rotated is not lost and slots above keep are untouched. */
  lemma RotationKeepsLog(s: Slots, keep: int, works: nat -> bool, j: nat)
    requires 0 in s
    ensures At(Rotated(s, keep, works), if works(0) then 1 else 0) == At(s, 0)
    ensures j > Kept(keep) ==> At(Rotated(s, keep, works), j) == At(s, j)
  {
    var k := Kept(keep);
    var s1 := if works(k) then s - {k} else s;
    ShiftedUpTouches(s1, k - 1, works, 0);
    if j > k {
      ShiftedUpTouches(s1, k - 1, works, j);
    }
  }

  /** Logs written and rotated one after the other, each rotation succeeding. */
  function AfterLogs(s: Slots, keep: int, works: nat -> bool, logs: seq<Bytes>): Slots {
    if logs == [] then s
    else Rotated(AfterLogs(s, keep, works, logs[..|logs| - 1])[0 := logs[|logs| - 1]], keep, works)
  }

  /** After any number of rotations the kept slots hold the most recent logs, newest first. */
  lemma {:induction false} KeptSlotsAreLatest(s: Slots, keep: int, works: nat -> bool, logs: seq<Bytes>, j: nat)
    requires forall n: nat :: works(n)
    requires 1 <= j <= Kept(keep) && j <= |logs|
    ensures At(AfterLogs(s, keep, works, logs), j) == Some(logs[|logs| - j])
  {
    var before := AfterLogs(s, keep, works, logs[..|logs| - 1])[0 := logs[|logs| - 1]];
    RotationShifts(before, keep, works, j);
    if j > 1 {
      KeptSlotsAreLatest(s, keep, works, logs[..|logs| - 1], j - 1);
    }
  }
}
