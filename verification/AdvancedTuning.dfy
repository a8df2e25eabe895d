/** Per-wheel force tuning: one file holds the settings of all wheels under one schema
    version. Schema 1 took a zero gain for "missing"; schema 2 stores zero as zero. */
module AdvancedTuning {
  import opened Optional
  import opened GoMath
  import opened GoText

  type Key = string

  datatype Tuning = Tuning(
    enabled: bool, preset: Text, constantGain: int, transientGain: int, deadband: int, minimumForce: int,
    responseExponent: real, lowPassHz: int, smoothing: int, outputLimit: int)

  /** The parsed file; `wheels` is None where the JSON has no such map. */
  datatype TuningFile = TuningFile(version: int, wheels: Option<map<Key, Tuning>>)

  const SCHEMA := 2
  const MAX_PRESET: nat := 64

  /** `name` is the neutral preset name of the wheel's model. */
  function Default(name: Text): Tuning {
    Tuning(true, name, 100, 100, 0, 0, 1.0, 0, 0, 100)
  }

  function FillZeroGains(t: Tuning): Tuning {
    t.(constantGain := if t.constantGain == 0 then 100 else t.constantGain,
       transientGain := if t.transientGain == 0 then 100 else t.transientGain)
  }

  function Migrate(t: Tuning, fromVersion: int, name: Text): Tuning {
    if 0 < fromVersion < 2 then
      t.(constantGain := if t.constantGain == 0 then Default(name).constantGain else t.constantGain,
         transientGain := if t.transientGain == 0 then Default(name).transientGain else t.transientGain)
    else t
  }

  function Normalize(t: Tuning, name: Text): (r: Tuning)
    ensures 0 <= r.constantGain <= 150 && 0 <= r.transientGain <= 150
    ensures 0 <= r.deadband <= 20 && 0 <= r.minimumForce <= 20 && 0 <= r.smoothing <= 90
    ensures 0.5 <= r.responseExponent <= 2.0 && 10 <= r.outputLimit <= 100
    ensures r.lowPassHz == 0 || 5 <= r.lowPassHz <= 100
  {
    Tuning(
      t.enabled,
      Cut(if Blank(t.preset) then name else t.preset, MAX_PRESET),
      ClampInt(t.constantGain, 0, 150),
      ClampInt(t.transientGain, 0, 150),
      ClampInt(t.deadband, 0, 20),
      ClampInt(t.minimumForce, 0, 20),
      Clamp(if t.responseExponent == 0.0 then 1.0 else t.responseExponent, 0.5, 2.0),
      if t.lowPassHz == 0 then 0 else ClampInt(t.lowPassHz, 5, 100),
      ClampInt(t.smoothing, 0, 90),
      ClampInt(if t.outputLimit == 0 then 100 else t.outputLimit, 10, 100))
  }

  /** Settings already in range are left exactly as they are. */
  lemma InRangeUntouched(t: Tuning, name: Text)
    requires !Blank(t.preset) && |Bytes(t.preset)| <= MAX_PRESET
    requires 0 <= t.constantGain <= 150 && 0 <= t.transientGain <= 150 && 0 <= t.deadband <= 20
    requires 0 <= t.minimumForce <= 20 && 0.5 <= t.responseExponent <= 2.0 && 0 <= t.smoothing <= 90
    requires t.lowPassHz == 0 || 5 <= t.lowPassHz <= 100
    requires 10 <= t.outputLimit <= 100
    ensures Normalize(t, name) == t
  {
    CutFits(t.preset, MAX_PRESET);
  }

  /** An entry as it comes back from the file it was written to. */
  function Stored(t: Tuning): Tuning {
    t.(preset := Json(t.preset))
  }

  function StoredAll(wheels: map<Key, Tuning>): map<Key, Tuning> {
    map k <- wheels :: Stored(wheels[k])
  }

  /** What ReadAdvancedFFBConfig returns for a wheel, given the file's readable contents. */
  function Effective(file: Option<TuningFile>, key: Key, name: Text): Tuning {
    if file.None? || file.value.wheels.None? || key !in file.value.wheels.value then Default(name)
    else Normalize(Migrate(Stored(file.value.wheels.value[key]), file.value.version, name), name)
  }

  /** The sibling entries a save carries over. */
  function CarriedWheels(file: Option<TuningFile>): map<Key, Tuning> {
    if file.None? || file.value.wheels.None? then map[]
    else
      var ws := StoredAll(file.value.wheels.value);
      if 0 < file.value.version < SCHEMA then map k <- ws :: FillZeroGains(ws[k]) else ws
  }

  predicate SaveRefused(file: Option<TuningFile>) {
    file.Some? && file.value.version > SCHEMA
  }

  function Saved(file: Option<TuningFile>, key: Key, name: Text, t: Tuning): Option<TuningFile> {
    Some(TuningFile(SCHEMA, Some(StoredAll(CarriedWheels(file)[key := Normalize(t, name)]))))
  }

  class TuningStore {
    var file: Option<TuningFile>

    /** `readable` and `written` are the outcomes of the strict read and the strict write. */
    method SaveAdvancedFFBConfig(wheelId: Text, key: Key, name: Text, t: Tuning, readable: bool, written: bool)
      returns (ok: bool)
      modifies this
      ensures ok <==> !Blank(wheelId) && readable && !SaveRefused(old(file)) && written
      ensures file == if ok then Saved(old(file), key, name, t) else old(file)
    {
      if Blank(wheelId) {
        return false;
      }
      var entry := Normalize(t, name);
      if !readable {
        return false;
      }
      var wheels: map<Key, Tuning> := map[];
      if file.Some? {
        if file.value.version > SCHEMA {
          return false;
        }
        if file.value.wheels.Some? {
          wheels := StoredAll(file.value.wheels.value);
          if 0 < file.value.version < SCHEMA {
            wheels := MigrateSiblings(wheels);
          }
        }
      }
      wheels := wheels[key := entry];
      if !written {
        return false;
      }
      file := Some(TuningFile(SCHEMA, Some(StoredAll(wheels))));
      ok := true;
    }

    /** The range loop over the wheel map, in whatever order. */
    method MigrateSiblings(wheels: map<Key, Tuning>) returns (migrated: map<Key, Tuning>)
      ensures migrated == map k <- wheels :: FillZeroGains(wheels[k])
    {
      migrated := wheels;
      var rest := wheels.Keys;
      while rest != {}
        invariant rest <= wheels.Keys
        invariant migrated == map k <- wheels :: if k in rest then wheels[k] else FillZeroGains(wheels[k])
        decreases rest
      {
        var k :| k in rest;
        var entry := migrated[k];
        if entry.constantGain == 0 {
          entry := entry.(constantGain := 100);
        }
        if entry.transientGain == 0 {
          entry := entry.(transientGain := 100);
        }
        migrated := migrated[k := entry];
        rest := rest - {k};
      }
    }
  }

  /** Saving one wheel changes no other wheel's effective settings, including when the save
      migrates the whole file from schema 1 to schema 2. */
  lemma SaveKeepsOthers(file: Option<TuningFile>, key: Key, name: Text, t: Tuning, other: Key, otherName: Text)
    requires !SaveRefused(file) && other != key
    ensures Effective(Saved(file, key, name, t), other, otherName) == Effective(file, other, otherName)
  {
    hide Normalize;
    if file.Some? && file.value.wheels.Some? && other in file.value.wheels.value {
      StoredTwice(file.value.wheels.value[other]);
    }
  }

  lemma StoredTwice(t: Tuning)
    ensures Stored(Stored(t)) == Stored(t)
  {
    JsonFacts(t.preset);
    JsonFacts(Json(t.preset));
  }

  /** The settings of one entry apart from its name. */
  function Unnamed(t: Tuning): Tuning {
    t.(preset := [])
  }

  /** A save reads back exactly what was asked for, normalised, unless cutting the preset name
      to 64 bytes split a character (other than one that begins like U+FFFD), the name had
      stray bytes before, or white space only was left of a name that had more. Nothing but
      the name is ever affected. */
  lemma SaveThenRead(file: Option<TuningFile>, key: Key, name: Text, t: Tuning)
    ensures var kept := Normalize(t, name).preset;
            Effective(Saved(file, key, name, t), key, name) == Normalize(t, name)
            <==> Intact(kept, MAX_PRESET) && (Blank(kept) ==> kept == Cut(name, MAX_PRESET))
    ensures Unnamed(Effective(Saved(file, key, name, t), key, name)) == Unnamed(Normalize(t, name))
  {
    var n := Normalize(t, name);
    var kept := n.preset;
    NameFits(if Blank(t.preset) then name else t.preset);
    JsonFacts(kept);
    JsonFacts(Json(kept));
    RecutIff(kept, MAX_PRESET);
    IntactIff(kept, MAX_PRESET);
    BlankIsWhole(kept);
    ReadBack(n, name);
    assert Effective(Saved(file, key, name, t), key, name) == Normalize(Stored(Stored(n)), name);
    hide Normalize, Cut, Json, Intact, IntactFrom, Blank;
  }

  lemma NameFits(t: Text)
    ensures |Bytes(Cut(t, MAX_PRESET))| <= MAX_PRESET
  {
    CutIsPrefix(t, MAX_PRESET);
  }

  lemma BlankIsWhole(t: Text)
    ensures Blank(t) ==> Whole(t)
  {
  }

  /** Reading normalised settings again can only touch their name. */
  lemma ReadBack(n: Tuning, name: Text)
    requires exists t: Tuning :: n == Normalize(t, name)
    ensures var r := Normalize(Stored(Stored(n)), name); var stored := Json(Json(n.preset));
            && Unnamed(r) == Unnamed(n)
            && r.preset == Cut(if Blank(stored) then name else stored, MAX_PRESET)
  {
    hide Cut, Json, Blank;
  }

  /** For plain ASCII names only the white space remains an exception. */
  lemma SaveThenReadAscii(file: Option<TuningFile>, key: Key, name: Text, t: Tuning)
    requires Ascii(name) && Ascii(t.preset)
    ensures Effective(Saved(file, key, name, t), key, name) == Normalize(t, name)
            <==> Blank(t.preset) || !Blank(Cut(t.preset, MAX_PRESET)) || Cut(t.preset, MAX_PRESET) == Cut(name, MAX_PRESET)
  {
    SaveThenRead(file, key, name, t);
    CutAscii(name, MAX_PRESET);
    CutAscii(t.preset, MAX_PRESET);
    hide Cut, Effective, Saved;
  }

  /** A preset name that comes back changed: 63 letters and an e with an acute accent, of
      which only the first byte fits. */
  lemma SplitNameChanges(file: Option<TuningFile>, key: Key, name: Text, t: Tuning)
    requires t.preset == seq(63, _ => Rune('a')) + [Rune('\U{00E9}')]
    ensures Normalize(t, name).preset == seq(63, _ => Rune('a')) + [Stray(0xC3)]
    ensures Effective(Saved(file, key, name, t), key, name).preset == seq(63, _ => Rune('a')) + [Stray(0xEF)]
  {
    var letters: Text := seq(63, _ => Rune('a'));
    SplitName(letters);
    hide Cut, Json, Blank;
    var n := Normalize(t, name);
    assert n.preset == letters + [Stray(0xC3)];
    ReadBack(n, name);
    assert Effective(Saved(file, key, name, t), key, name) == Normalize(Stored(Stored(n)), name);
    hide Normalize;
  }

  /** What becomes of the name: its last character is split, replaced and split again. */
  lemma SplitName(letters: Text)
    requires letters == seq(63, _ => Rune('a'))
    ensures Cut(letters + [Rune('\U{00E9}')], MAX_PRESET) == letters + [Stray(0xC3)]
    ensures Json(Json(letters + [Stray(0xC3)])) == letters + [Rune(REPLACEMENT)]
    ensures Cut(letters + [Rune(REPLACEMENT)], MAX_PRESET) == letters + [Stray(0xEF)]
    ensures !Blank(letters + [Rune('\U{00E9}')]) && !Blank(letters + [Rune(REPLACEMENT)])
  {
    Letters(63);
    CutAfter(letters, [Rune('\U{00E9}')], MAX_PRESET);
    CutAfter(letters, [Rune(REPLACEMENT)], MAX_PRESET);
    FirstByteStays('\U{00E9}');
    FirstByteStays(REPLACEMENT);
    JsonAfter(letters, [Stray(0xC3)]);
    JsonAfter(letters, [Rune(REPLACEMENT)]);
    JsonFacts(letters);
    StartsWithLetter(letters, Rune('\U{00E9}'));
    StartsWithLetter(letters, Rune(REPLACEMENT));
    OneUnit();
    hide Cut, Json, Blank;
  }

  lemma OneUnit()
    ensures Json([Stray(0xC3)]) == [Rune(REPLACEMENT)] == Json([Rune(REPLACEMENT)])
    ensures Utf8('\U{00E9}')[0] == 0xC3 && Utf8(REPLACEMENT)[0] == 0xEF
  {
  }

  lemma StartsWithLetter(letters: Text, u: Unit)
    requires letters == seq(63, _ => Rune('a'))
    ensures !Blank(letters + [u])
  {
    assert (letters + [u])[0] == Rune('a') && !IsSpace('a');
  }

  lemma FirstByteStays(c: char)
    requires |Utf8(c)| > 1
    ensures Cut([Rune(c)], 1) == [Stray(Utf8(c)[0])]
  {
    assert Strays(Utf8(c)[..1]) == [Stray(Utf8(c)[0])];
  }

  /** A zero gain saved by the user reads back as zero; only an entry of a schema 1 file, and
      of no other, reads its zero as 100. Everything else reads as it is stored, normalised. */
  lemma ZeroGainMeaning(file: TuningFile, key: Key, name: Text)
    requires file.wheels.Some? && key in file.wheels.value
    ensures var stored, r := file.wheels.value[key], Effective(Some(file), key, name);
            && r.constantGain == (if stored.constantGain == 0 && file.version == 1 then 100 else ClampInt(stored.constantGain, 0, 150))
            && r.transientGain == (if stored.transientGain == 0 && file.version == 1 then 100 else ClampInt(stored.transientGain, 0, 150))
            && Unnamed(r).(constantGain := 0, transientGain := 0)
               == Unnamed(Normalize(stored, name)).(constantGain := 0, transientGain := 0)
  {
    hide Cut, Blank, Json;
  }

  /** x is stored as the nearest value of a range. */
  predicate IsNearest(r: int, x: int, lo: int, hi: int) {
    lo <= r <= hi && (r == x || (r == lo && x < lo) || (r == hi && hi < x))
  }

  /** Normalisation moves each setting to the nearest value of its range; a zero exponent or
      output limit reads as 1 or 100, a zero low-pass stays off. */
  lemma NormalizeIsNearest(t: Tuning, name: Text)
    ensures var r := Normalize(t, name);
            && r.enabled == t.enabled
            && IsNearest(r.constantGain, t.constantGain, 0, 150) && IsNearest(r.transientGain, t.transientGain, 0, 150)
            && IsNearest(r.deadband, t.deadband, 0, 20) && IsNearest(r.minimumForce, t.minimumForce, 0, 20)
            && IsNearest(r.smoothing, t.smoothing, 0, 90)
            && (t.lowPassHz == 0 ==> r.lowPassHz == 0) && (t.lowPassHz != 0 ==> IsNearest(r.lowPassHz, t.lowPassHz, 5, 100))
            && (t.outputLimit == 0 ==> r.outputLimit == 100) && (t.outputLimit != 0 ==> IsNearest(r.outputLimit, t.outputLimit, 10, 100))
            && r.responseExponent ==
                 (if t.responseExponent == 0.0 then 1.0
                  else if t.responseExponent < 0.5 then 0.5
                  else if t.responseExponent > 2.0 then 2.0
                  else t.responseExponent)
  {
    hide Cut, Blank;
  }

  datatype SaveOp = SaveOp(key: Key, name: Text, tuning: Tuning)

  function AfterSaves(file: Option<TuningFile>, ops: seq<SaveOp>): Option<TuningFile> {
    if ops == [] then file
    else
      var before, op := AfterSaves(file, ops[..|ops| - 1]), ops[|ops| - 1];
      if SaveRefused(before) then before else Saved(before, op.key, op.name, op.tuning)
  }

  /** Over any sequence of saves a wheel's effective settings are those of its own last save,
      or of the original file if it has none, a zero gain chosen there included. */
  lemma {:induction false} OwnSavesDecide(file: Option<TuningFile>, before: seq<SaveOp>, after: seq<SaveOp>, key: Key, name: Text)
    requires !SaveRefused(file)
    requires forall op <- after :: op.key != key
    ensures !SaveRefused(AfterSaves(file, before + after))
    ensures Effective(AfterSaves(file, before + after), key, name) == Effective(AfterSaves(file, before), key, name)
    ensures before != [] && before[|before| - 1].key == key ==>
              Unnamed(Effective(AfterSaves(file, before + after), key, name))
              == Unnamed(Normalize(before[|before| - 1].tuning, name))
    decreases |before| + |after|
  {
    hide Effective, Saved, Normalize, SaveRefused;
    if after == [] {
      assert before + after == before;
      if before != [] {
        var op := before[|before| - 1];
        OwnSavesDecide(file, before[..|before| - 1], [], key, name);
        assert before[..|before| - 1] + [] == before[..|before| - 1];
        OwnSaveReads(AfterSaves(file, before[..|before| - 1]), op.key, op.name, op.tuning, name);
      }
    } else {
      var n := |after| - 1;
      OwnSavesDecide(file, before, after[..n], key, name);
      assert (before + after)[..|before| + n] == before + after[..n];
      var op := after[n];
      OwnSaveReads(AfterSaves(file, before + after[..n]), op.key, op.name, op.tuning, name);
      SaveKeepsOthers(AfterSaves(file, before + after[..n]), op.key, op.name, op.tuning, key, name);
    }
  }

  /** A save reads back its own settings, whatever default name either side goes by. */
  lemma OwnSaveReads(file: Option<TuningFile>, key: Key, name: Text, t: Tuning, readName: Text)
    ensures !SaveRefused(Saved(file, key, name, t))
    ensures Unnamed(Effective(Saved(file, key, name, t), key, readName)) == Unnamed(Normalize(t, readName))
  {
    hide Cut, Json, Blank;
    assert Effective(Saved(file, key, name, t), key, readName) == Normalize(Stored(Stored(Normalize(t, name))), readName);
  }
}
