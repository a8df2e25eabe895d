/** Configuration files under corruption. Unreadable bytes are backed up before anyone can
    fall back to defaults, and a marker then blocks ordinary writes until an explicit reset.
    Every write and removal is one atomic step that may fail, and the process may stop after
    any of them. */
module ConfigIntegrity {
  import opened Optional
  import opened StopPoints

  type Bytes = seq<int>

  /** A configuration file, its marker (the ".corrupt" file beside it) and its backups in the
      Corrupt directory, told apart by their time stamps. */
  datatype Path = Config(name: string) | Marker(name: string) | Backup(name: string, stamp: nat)

  /** A marker records which backup it announces. */
  datatype Content = Data(bytes: Bytes) | Note(backup: Path)

  type Files = map<Path, Content>

  /** Which bytes a given configuration file can be unmarshalled from. */
  type Format = (string, Bytes) -> bool

  datatype ReadResult = Absent | Unreadable | Corrupt | Loaded(bytes: Bytes)

  datatype ReadFaults = ReadFaults(read: bool, mkdir: bool, backup: bool, marker: bool)

  datatype WriteFaults = WriteFaults(stat: bool, write: bool)

  datatype ResetFaults = ResetFaults(write: bool, clear: bool)

  function DataAt(files: Files, name: string): Option<Bytes> {
    if Config(name) in files && files[Config(name)].Data? then Some(files[Config(name)].bytes) else None
  }

  predicate Marked(files: Files, name: string) {
    Marker(name) in files
  }

  function Preserve(h: History<Files>, name: string, bytes: Bytes, stamp: nat, f: ReadFaults)
    : (t: Outcome<Files, bool>)
  {
    if !f.mkdir then Outcome(h, false)
    else
      var backup := Backup(name, stamp);
      var h1 := h.Step(f.backup, h.now[backup := Data(bytes)]);
      if !f.backup then Outcome(h1, false)
      else Outcome(h1.Step(f.marker, h1.now[Marker(name) := Note(backup)]), f.marker)
  }

  function ReadStrict(format: Format, h: History<Files>, name: string, stamp: nat, f: ReadFaults)
    : (t: Outcome<Files, ReadResult>)
  {
    match DataAt(h.now, name)
    case None => Outcome(h, Absent)
    case Some(bytes) =>
      if !f.read then Outcome(h, Unreadable)
      else if format(name, bytes) then Outcome(h, Loaded(bytes))
      else Outcome(Preserve(h, name, bytes, stamp, f).history, Corrupt)
  }

  /** The marker check fails closed: an error of Stat other than "not there" also refuses. */
  function WriteAllowed(files: Files, name: string, stat: bool): bool {
    !Marked(files, name) && stat
  }

  function WriteStrict(h: History<Files>, name: string, bytes: Bytes, f: WriteFaults): (t: Outcome<Files, bool>) {
    if !WriteAllowed(h.now, name, f.stat) then Outcome(h, false)
    else Outcome(h.Step(f.write, h.now[Config(name) := Data(bytes)]), f.write)
  }

  function Reset(h: History<Files>, name: string, bytes: Bytes, f: ResetFaults): (t: Outcome<Files, bool>) {
    var h1 := h.Step(f.write, h.now[Config(name) := Data(bytes)]);
    if !f.write then Outcome(h1, false)
    else if !Marked(h1.now, name) then Outcome(h1, true)
    else Outcome(h1.Step(f.clear, h1.now - {Marker(name)}), f.clear)
  }

  /** A saver: it reads, computes the new contents from the old ones (or refuses, as for a
      newer schema), and writes. */
  function Save(
    format: Format, h: History<Files>, name: string, update: Option<Bytes> -> Option<Bytes>, stamp: nat,
    rf: ReadFaults, wf: WriteFaults): (t: Outcome<Files, bool>)
  {
    var r := ReadStrict(format, h, name, stamp, rf);
    if r.result.Unreadable? || r.result.Corrupt? then Outcome(r.history, false)
    else
      match update(if r.result.Loaded? then Some(r.result.bytes) else None)
      case None => Outcome(r.history, false)
      case Some(bytes) => WriteStrict(r.history, name, bytes, wf)
  }

  /** The store as an object; each method performs exactly the steps of its function. */
  class ConfigStore {
    const format: Format
    var files: Files
    ghost var history: History<Files>

    ghost predicate Valid() reads this {
      files == history.now
    }

    constructor (format: Format, files: Files)
      ensures Valid() && this.format == format && history == Start(files)
    {
      this.format := format;
      this.files := files;
      history := Start(files);
    }

    method AtomicStep(works: bool, next: Files)
      requires Valid()
      modifies this
      ensures Valid() && history == old(history).Step(works, next)
    {
      if works {
        files := next;
      }
      history := History(history.past + [history.now], files);
    }

    method PreserveCorruptConfig(name: string, bytes: Bytes, stamp: nat, f: ReadFaults) returns (ok: bool)
      requires Valid()
      modifies this
      ensures Valid() && Outcome(history, ok) == Preserve(old(history), name, bytes, stamp, f)
    {
      if !f.mkdir {
        return false;
      }
      AtomicStep(f.backup, files[Backup(name, stamp) := Data(bytes)]);
      if !f.backup {
        return false;
      }
      AtomicStep(f.marker, files[Marker(name) := Note(Backup(name, stamp))]);
      ok := f.marker;
    }

    method ReadJSONConfigStrict(name: string, stamp: nat, f: ReadFaults) returns (r: ReadResult)
      requires Valid()
      modifies this
      ensures Valid() && Outcome(history, r) == ReadStrict(format, old(history), name, stamp, f)
    {
      var data := DataAt(files, name);
      if data.None? {
        return Absent;
      }
      if !f.read {
        return Unreadable;
      }
      if !format(name, data.value) {
        var ok := PreserveCorruptConfig(name, data.value, stamp, f);
        return Corrupt;
      }
      r := Loaded(data.value);
    }

    method WriteJSONConfigStrict(name: string, bytes: Bytes, f: WriteFaults) returns (ok: bool)
      requires Valid()
      modifies this
      ensures Valid() && Outcome(history, ok) == WriteStrict(old(history), name, bytes, f)
    {
      if !WriteAllowed(files, name, f.stat) {
        return false;
      }
      AtomicStep(f.write, files[Config(name) := Data(bytes)]);
      ok := f.write;
    }

    method ResetJSONConfig(name: string, bytes: Bytes, f: ResetFaults) returns (ok: bool)
      requires Valid()
      modifies this
      ensures Valid() && Outcome(history, ok) == Reset(old(history), name, bytes, f)
    {
      AtomicStep(f.write, files[Config(name) := Data(bytes)]);
      if !f.write {
        return false;
      }
      if Marker(name) !in files {
        return true;
      }
      AtomicStep(f.clear, files - {Marker(name)});
      ok := f.clear;
    }
  }

  // ---- Runs ----

  /** Operations, and damage done to a configuration file from outside. */
  datatype Op =
    | Read(name: string, stamp: nat, rf: ReadFaults)
    | Write(name: string, bytes: Bytes, wf: WriteFaults)
    | ResetTo(name: string, bytes: Bytes, xf: ResetFaults)
    | SaveBy(name: string, update: Option<Bytes> -> Option<Bytes>, stamp: nat, rf: ReadFaults, wf: WriteFaults)
    | Damage(name: string, content: Option<Bytes>)

  function Perform(format: Format, files: Files, op: Op): History<Files> {
    match op
    case Read(name, stamp, rf) => ReadStrict(format, Start(files), name, stamp, rf).history
    case Write(name, bytes, wf) => WriteStrict(Start(files), name, bytes, wf).history
    case ResetTo(name, bytes, xf) => Reset(Start(files), name, bytes, xf).history
    case SaveBy(name, update, stamp, rf, wf) => Save(format, Start(files), name, update, stamp, rf, wf).history
    case Damage(name, content) =>
      Start(files).Step(true, match content
                              case None => files - {Config(name)}
                              case Some(bytes) => files[Config(name) := Data(bytes)])
  }

  /** Backup names carry a nanosecond time stamp and a hash; they are taken to be new. */
  ghost predicate FreshStamp(files: Files, op: Op) {
    && (op.Read? ==> Backup(op.name, op.stamp) !in files)
    && (op.SaveBy? ==> Backup(op.name, op.stamp) !in files)
  }

  /** One operation, stopped after any of its steps. */
  ghost predicate CanReach(format: Format, files: Files, op: Op, files': Files) {
    FreshStamp(files, op) && files' in Perform(format, files, op).States()
  }

  ghost predicate Run(format: Format, files: Files, ops: seq<Op>, stops: seq<Files>)
    decreases |ops|
  {
    && |stops| == |ops|
    && (ops != [] ==> CanReach(format, files, ops[0], stops[0]) && Run(format, stops[0], ops[1..], stops[1..]))
  }

  function Last(files: Files, stops: seq<Files>): Files {
    if stops == [] then files else stops[|stops| - 1]
  }

  /** In one of these states the file held exactly these bytes. */
  ghost predicate OnceHeld(seen: seq<Files>, name: string, bytes: Bytes) {
    exists i | 0 <= i < |seen| :: DataAt(seen[i], name) == Some(bytes)
  }

  /** Every marker announces an existing backup of bytes that its file, in one of the states
      seen so far, held, and that it could not be read from. */
  ghost predicate MarkersSound(format: Format, seen: seq<Files>, files: Files) {
    forall name | Marked(files, name) ::
      && files[Marker(name)].Note?
      && var b := files[Marker(name)].backup;
         && b.Backup? && b.name == name && b in files && files[b].Data?
         && !format(name, files[b].bytes) && OnceHeld(seen, name, files[b].bytes)
  }

  lemma HeldNow(seen: seq<Files>, files: Files, name: string)
    requires files in seen && DataAt(files, name).Some?
    ensures OnceHeld(seen, name, DataAt(files, name).value)
  {
    var i :| 0 <= i < |seen| && seen[i] == files;
  }

  /** Seeing more states keeps markers sound. */
  lemma SeenMore(format: Format, seen: seq<Files>, more: seq<Files>, files: Files)
    requires MarkersSound(format, seen, files)
    ensures MarkersSound(format, seen + more, files)
  {
    forall name, bytes | OnceHeld(seen, name, bytes)
      ensures OnceHeld(seen + more, name, bytes)
    {
      var i :| 0 <= i < |seen| && DataAt(seen[i], name) == Some(bytes);
      assert (seen + more)[i] == seen[i];
    }
  }

  ghost predicate BackupsKept(files: Files, files': Files) {
    forall p <- files :: p.Backup? ==> p in files' && files'[p] == files[p]
  }

  lemma PreserveSteps(
    format: Format, seen: seq<Files>, files: Files, name: string, bytes: Bytes, stamp: nat, f: ReadFaults, s: Files)
    requires Backup(name, stamp) !in files && !format(name, bytes) && OnceHeld(seen, name, bytes)
    requires s in Preserve(Start(files), name, bytes, stamp, f).history.States()
    ensures MarkersSound(format, seen, files) ==> MarkersSound(format, seen, s)
    ensures BackupsKept(files, s)
    ensures forall n :: DataAt(s, n) == DataAt(files, n)
    ensures forall n | Marked(files, n) :: Marked(s, n)
    ensures forall n | n != name && Marked(s, n) :: Marked(files, n)
  {
    var s1 := files[Backup(name, stamp) := Data(bytes)];
    PreserveStates(files, name, bytes, stamp, f, s);
    BackupKeeps(format, seen, files, name, bytes, stamp);
    MarkKeeps(format, seen, s1, name, bytes, stamp);
    hide Preserve, MarkersSound, OnceHeld;
  }

  lemma PreserveStates(files: Files, name: string, bytes: Bytes, stamp: nat, f: ReadFaults, s: Files)
    requires s in Preserve(Start(files), name, bytes, stamp, f).history.States()
    ensures var s1 := files[Backup(name, stamp) := Data(bytes)];
            s == files || s == s1 || s == s1[Marker(name) := Note(Backup(name, stamp))]
  {
  }

  lemma BackupKeeps(format: Format, seen: seq<Files>, files: Files, name: string, bytes: Bytes, stamp: nat)
    requires Backup(name, stamp) !in files
    ensures var s := files[Backup(name, stamp) := Data(bytes)];
            && (MarkersSound(format, seen, files) ==> MarkersSound(format, seen, s))
            && BackupsKept(files, s)
            && (forall n :: DataAt(s, n) == DataAt(files, n) && (Marked(s, n) <==> Marked(files, n)))
  {
    hide OnceHeld;
  }

  lemma MarkKeeps(format: Format, seen: seq<Files>, files: Files, name: string, bytes: Bytes, stamp: nat)
    requires Backup(name, stamp) in files && files[Backup(name, stamp)] == Data(bytes)
    requires !format(name, bytes) && OnceHeld(seen, name, bytes)
    ensures var s := files[Marker(name) := Note(Backup(name, stamp))];
            && (MarkersSound(format, seen, files) ==> MarkersSound(format, seen, s))
            && BackupsKept(files, s)
            && (forall n :: DataAt(s, n) == DataAt(files, n) && (Marked(s, n) <==> Marked(files, n) || n == name))
  {
    hide OnceHeld;
  }

  /** No other configuration file, and no other file's marker, is touched. */
  ghost predicate OthersKept(files: Files, s: Files, name: string) {
    forall n | n != name :: DataAt(s, n) == DataAt(files, n) && (Marked(s, n) <==> Marked(files, n))
  }

  /** Every stop point of every operation keeps markers sound and all backups. */
  lemma OpKeepsMarkers(format: Format, seen: seq<Files>, files: Files, op: Op, files': Files)
    requires files in seen && CanReach(format, files, op, files') && MarkersSound(format, seen, files)
    ensures MarkersSound(format, seen, files') && BackupsKept(files, files')
  {
    match op {
      case Read(name, stamp, rf) => ReadStops(format, seen, files, name, stamp, rf, files');
      case Write(name, bytes, wf) =>
      case ResetTo(name, bytes, xf) => ResetStops(format, seen, files, name, bytes, xf, files');
      case SaveBy(name, update, stamp, rf, wf) => SaveStops(format, seen, files, name, update, stamp, rf, wf, files');
      case Damage(name, content) =>
    }
  }

  lemma ReadStops(format: Format, seen: seq<Files>, files: Files, name: string, stamp: nat, f: ReadFaults, s: Files)
    requires files in seen && Backup(name, stamp) !in files
    requires s in ReadStrict(format, Start(files), name, stamp, f).history.States()
    ensures MarkersSound(format, seen, files) ==> MarkersSound(format, seen, s)
    ensures BackupsKept(files, s) && OthersKept(files, s, name)
    ensures DataAt(s, name) == DataAt(files, name)
    ensures forall n | Marked(files, n) :: Marked(s, n)
  {
    hide Preserve, MarkersSound, OnceHeld;
    var data := DataAt(files, name);
    if data.Some? && f.read && !format(name, data.value) {
      HeldNow(seen, files, name);
      PreserveSteps(format, seen, files, name, data.value, stamp, f, s);
    } else {
      assert s == files;
    }
  }

  lemma ResetStops(format: Format, seen: seq<Files>, files: Files, name: string, bytes: Bytes, f: ResetFaults, s: Files)
    requires s in Reset(Start(files), name, bytes, f).history.States()
    ensures MarkersSound(format, seen, files) ==> MarkersSound(format, seen, s)
    ensures BackupsKept(files, s) && OthersKept(files, s, name)
    ensures Marked(files, name) && !Marked(s, name) ==> f.write && f.clear && DataAt(s, name) == Some(bytes)
  {
    var s1 := files[Config(name) := Data(bytes)];
    assert s == files || (f.write && s == s1) || (f.write && f.clear && s == s1 - {Marker(name)});
    WriteKeeps(format, seen, files, name, bytes);
    hide MarkersSound, Reset;
    if s == s1 - {Marker(name)} {
      UnmarkKeeps(format, seen, s1, name);
    }
  }

  lemma WriteKeeps(format: Format, seen: seq<Files>, files: Files, name: string, bytes: Bytes)
    ensures var s := files[Config(name) := Data(bytes)];
            && (MarkersSound(format, seen, files) ==> MarkersSound(format, seen, s))
            && BackupsKept(files, s) && OthersKept(files, s, name)
            && (Marked(s, name) <==> Marked(files, name)) && DataAt(s, name) == Some(bytes)
  {
  }

  lemma UnmarkKeeps(format: Format, seen: seq<Files>, files: Files, name: string)
    ensures var s := files - {Marker(name)};
            && (MarkersSound(format, seen, files) ==> MarkersSound(format, seen, s))
            && BackupsKept(files, s) && OthersKept(files, s, name) && DataAt(s, name) == DataAt(files, name)
  {
  }

  lemma SaveStops(
    format: Format, seen: seq<Files>, files: Files, name: string, update: Option<Bytes> -> Option<Bytes>, stamp: nat,
    rf: ReadFaults, wf: WriteFaults, s: Files)
    requires files in seen && Backup(name, stamp) !in files
    requires s in Save(format, Start(files), name, update, stamp, rf, wf).history.States()
    ensures MarkersSound(format, seen, files) ==> MarkersSound(format, seen, s)
    ensures BackupsKept(files, s) && OthersKept(files, s, name)
    ensures Marked(files, name) ==> Marked(s, name) && DataAt(s, name) == DataAt(files, name)
    ensures DataAt(files, name).Some? && !format(name, DataAt(files, name).value) ==> DataAt(s, name) == DataAt(files, name)
  {
    var r := ReadStrict(format, Start(files), name, stamp, rf);
    if r.result.Unreadable? || r.result.Corrupt? {
      ReadStops(format, seen, files, name, stamp, rf, s);
    } else {
      assert r.history == Start(files);
    }
  }

  lemma BackupsKeptReflexive(a: Files)
    ensures BackupsKept(a, a)
  {
  }

  lemma BackupsKeptTransitive(a: Files, b: Files, c: Files)
    requires BackupsKept(a, b) && BackupsKept(b, c)
    ensures BackupsKept(a, c)
  {
  }

  lemma MarkersStep(format: Format, seen: seq<Files>, files: Files, op: Op, files': Files)
    requires files in seen && CanReach(format, files, op, files') && MarkersSound(format, seen, files)
    ensures files' in seen + [files'] && MarkersSound(format, seen + [files'], files') && BackupsKept(files, files')
  {
    hide MarkersSound, CanReach, BackupsKept;
    OpKeepsMarkers(format, seen, files, op, files');
    SeenMore(format, seen, [files'], files');
    assert (seen + [files'])[|seen|] == files';
  }

  /** In every run, with crashes and failures anywhere, whenever a marker exists there is a
      backup holding exactly the unreadable bytes its file had at some earlier point of that
      run, or before it, and no backup ever changes. */
  lemma {:induction false} MarkersAlwaysSound(
    format: Format, seen: seq<Files>, files: Files, ops: seq<Op>, stops: seq<Files>)
    requires Run(format, files, ops, stops) && files in seen && MarkersSound(format, seen, files)
    ensures MarkersSound(format, seen + stops, Last(files, stops)) && BackupsKept(files, Last(files, stops))
    decreases |ops|
  {
    hide MarkersSound, CanReach, BackupsKept, Last;
    if ops != [] {
      MarkersStep(format, seen, files, ops[0], stops[0]);
      MarkersAlwaysSound(format, seen + [stops[0]], stops[0], ops[1..], stops[1..]);
      StopsJoin(seen, files, stops);
      BackupsKeptTransitive(files, stops[0], Last(files, stops));
    } else {
      assert seen + stops == seen;
      assert Last(files, []) == files by { NoStops(files); }
      BackupsKeptReflexive(files);
    }
  }

  lemma StopsJoin(seen: seq<Files>, files: Files, stops: seq<Files>)
    requires stops != []
    ensures seen + [stops[0]] + stops[1..] == seen + stops
    ensures Last(stops[0], stops[1..]) == Last(files, stops)
  {
  }

  lemma NoStops(files: Files)
    ensures Last(files, []) == files
  {
  }

  /** A read that meets unreadable bytes and can back them up leaves the file as it is, marks
      it, and has the marker announce a backup of exactly those bytes. */
  lemma PreservedExactly(format: Format, files: Files, name: string, bytes: Bytes, stamp: nat, f: ReadFaults)
    requires DataAt(files, name) == Some(bytes) && !format(name, bytes) && f.read
    ensures var t := ReadStrict(format, Start(files), name, stamp, f); var s := t.history.now;
            && t.result == Corrupt && DataAt(s, name) == Some(bytes)
            && (f.mkdir && f.backup && f.marker ==>
                  Marked(s, name) && s[Marker(name)] == Note(Backup(name, stamp)) && s[Backup(name, stamp)] == Data(bytes))
  {
  }

  /** A marked file changes only by an explicit reset or by outside damage, and loses its
      marker only by a reset that got through: all strict writes and saves are blocked. */
  lemma MarkedFileIsFrozen(format: Format, files: Files, op: Op, files': Files, name: string)
    requires CanReach(format, files, op, files') && Marked(files, name)
    ensures !(op.ResetTo? && op.name == name) ==> Marked(files', name)
    ensures !(op.ResetTo? && op.name == name) && !(op.Damage? && op.name == name) ==>
              DataAt(files', name) == DataAt(files, name)
    ensures op.ResetTo? && op.name == name && !Marked(files', name) ==>
              op.xf.write && op.xf.clear && DataAt(files', name) == Some(op.bytes)
  {
    OtherFilesKept(format, files, op, files');
    match op {
      case Read(n, stamp, rf) => ReadStops(format, [files], files, n, stamp, rf, files');
      case Write(n, bytes, wf) =>
      case ResetTo(n, bytes, xf) => ResetStops(format, [files], files, n, bytes, xf, files');
      case SaveBy(n, update, stamp, rf, wf) => SaveStops(format, [files], files, n, update, stamp, rf, wf, files');
      case Damage(n, content) =>
    }
  }

  lemma OtherFilesKept(format: Format, files: Files, op: Op, files': Files)
    requires CanReach(format, files, op, files')
    ensures OthersKept(files, files', op.name)
  {
    match op {
      case Read(n, stamp, rf) => ReadStops(format, [files], files, n, stamp, rf, files');
      case Write(n, bytes, wf) =>
      case ResetTo(n, bytes, xf) => ResetStops(format, [files], files, n, bytes, xf, files');
      case SaveBy(n, update, stamp, rf, wf) => SaveStops(format, [files], files, n, update, stamp, rf, wf, files');
      case Damage(n, content) =>
    }
  }

  /** A reset stopped after its first step has the new contents in place and is still blocked. */
  lemma HalfResetStaysBlocked(files: Files, name: string, bytes: Bytes, f: ResetFaults, wf: WriteFaults, later: Bytes)
    requires Marked(files, name) && f.write
    ensures var h := Reset(Start(files), name, bytes, f).history;
            && |h.past| == 2 && DataAt(h.past[1], name) == Some(bytes) && Marked(h.past[1], name)
            && WriteStrict(Start(h.past[1]), name, later, wf) == Outcome(Start(h.past[1]), false)
            && (Marked(h.now, name) <==> !f.clear)
  {
  }

  /** A saver never overwrites bytes it could not read, even if they could not be preserved,
      at any stop point. */
  lemma SaverSparesUnreadable(format: Format, files: Files, op: Op, files': Files, bytes: Bytes)
    requires CanReach(format, files, op, files') && op.SaveBy?
    requires DataAt(files, op.name) == Some(bytes) && !format(op.name, bytes)
    ensures DataAt(files', op.name) == Some(bytes)
  {
    SaveStops(format, [files], files, op.name, op.update, op.stamp, op.rf, op.wf, files');
  }

  // ---- What reading and writing are for ----

  /** Preserving succeeds exactly if nothing fails, and then the backup and the marker that
      announces it are there. */
  lemma PreservesIff(files: Files, name: string, bytes: Bytes, stamp: nat, f: ReadFaults)
    ensures var t := Preserve(Start(files), name, bytes, stamp, f); var s := t.history.now;
            && (t.result <==> f.mkdir && f.backup && f.marker)
            && (t.result ==> Marked(s, name) && s[Marker(name)] == Note(Backup(name, stamp))
                             && Backup(name, stamp) in s && s[Backup(name, stamp)] == Data(bytes))
            && (!t.result ==> (Marked(s, name) <==> Marked(files, name)))
  {
  }

  /** Damage from outside can leave anything in a file, or nothing. */
  lemma DamageReaches(format: Format, files: Files, name: string, content: Option<Bytes>) returns (damaged: Files)
    ensures CanReach(format, files, Damage(name, content), damaged) && DataAt(damaged, name) == content
  {
    var h := Perform(format, files, Damage(name, content));
    damaged := h.now;
    assert h.States()[|h.past|] == damaged;
  }

  /** What a read answers, both ways, and when it takes steps at all: only for bytes it read
      and could not parse. */
  lemma ReadTells(format: Format, files: Files, name: string, stamp: nat, f: ReadFaults)
    ensures var t, data := ReadStrict(format, Start(files), name, stamp, f), DataAt(files, name);
            && (t.result == Absent <==> data == None)
            && (t.result == Unreadable <==> data.Some? && !f.read)
            && (t.result == Corrupt <==> data.Some? && f.read && !format(name, data.value))
            && (forall bytes :: t.result == Loaded(bytes) <==> data == Some(bytes) && f.read && format(name, bytes))
            && (t.result != Corrupt ==> t.history == Start(files))
  {
  }

  /** What was written, or reset to, successfully is what the next readable read returns. */
  lemma WriteThenRead(
    format: Format, files: Files, name: string, bytes: Bytes, wf: WriteFaults, xf: ResetFaults, stamp: nat, rf: ReadFaults)
    requires format(name, bytes) && rf.read
    ensures var t := WriteStrict(Start(files), name, bytes, wf);
            t.result ==> ReadStrict(format, Start(t.history.now), name, stamp, rf).result == Loaded(bytes)
    ensures var t := Reset(Start(files), name, bytes, xf);
            t.result ==> ReadStrict(format, Start(t.history.now), name, stamp, rf).result == Loaded(bytes)
  {
  }

  /** A write gets through exactly if the file is not marked and nothing fails; a refused or
      failed one changes nothing. A reset needs no permission, and unmarks the file. */
  lemma WriteGetsThroughIff(files: Files, name: string, bytes: Bytes, wf: WriteFaults, xf: ResetFaults)
    ensures var t := WriteStrict(Start(files), name, bytes, wf);
            && (t.result <==> !Marked(files, name) && wf.stat && wf.write)
            && (if t.result then DataAt(t.history.now, name) == Some(bytes) else t.history.now == files)
    ensures var t := Reset(Start(files), name, bytes, xf);
            && (t.result <==> xf.write && (Marked(files, name) ==> xf.clear))
            && (t.result ==> !Marked(t.history.now, name) && DataAt(t.history.now, name) == Some(bytes))
            && (!xf.write ==> t.history.now == files)
  {
  }

  /** A save gets through exactly if the file is absent or readable, its update is not refused,
      and the write goes through. It leaves the update of the very bytes the file held, or the
      update of nothing only where no file was; otherwise the file keeps its bytes. */
  lemma SaveGetsThroughIff(
    format: Format, files: Files, name: string, update: Option<Bytes> -> Option<Bytes>, stamp: nat,
    rf: ReadFaults, wf: WriteFaults)
    ensures var t, data := Save(format, Start(files), name, update, stamp, rf, wf), DataAt(files, name);
            && (t.result <==>
                  && (data.Some? ==> rf.read && format(name, data.value))
                  && update(data).Some? && !Marked(files, name) && wf.stat && wf.write)
            && DataAt(t.history.now, name) == if t.result then update(data) else data
  {
    ReadTells(format, files, name, stamp, rf);
    var data := DataAt(files, name);
    if data.Some? && rf.read && !format(name, data.value) {
      CorruptKeepsData(format, files, name, stamp, rf);
    }
    hide Preserve;
  }

  lemma CorruptKeepsData(format: Format, files: Files, name: string, stamp: nat, f: ReadFaults)
    ensures DataAt(ReadStrict(format, Start(files), name, stamp, f).history.now, name) == DataAt(files, name)
  {
  }

  /** A write without the read before it has only the marker to stop it: it replaces bytes
      nobody could read exactly when they were never marked. */
  lemma BareWriteNeedsMarker(files: Files, name: string, bytes: Bytes)
    ensures WriteStrict(Start(files), name, bytes, WriteFaults(true, true)).result <==> !Marked(files, name)
    ensures DataAt(WriteStrict(Start(files), name, bytes, WriteFaults(true, true)).history.now, name)
            == if Marked(files, name) then DataAt(files, name) else Some(bytes)
  {
  }
}
