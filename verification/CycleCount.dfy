/**
 Backup and restore of the battery's eight cycle-count bins: the fuel gauge's volatile copy (SRAM)
 and the persisted copy (storage), both text files.
 */
module CycleCount {
  import opened Wrappers
  import opened Decimal

  const BUCKETS := 8
  const BUFF_SIZE := 256
  const ZEROS: seq<int> := [0, 0, 0, 0, 0, 0, 0, 0]

  /** The two files. A missing file cannot be read. */
  datatype Files = Files(storage: Option<string>, sram: Option<string>)

  /** Which file operations of one call succeed. A failed write changes nothing. */
  datatype Io = Io(readStorage: bool, readSram: bool, writeSram: bool, writeStorage: bool)

  const FAULT_FREE := Io(true, true, true, true)

  /** The bins of the process and the files. */
  datatype State = State(sw: seq<int>, hw: seq<int>, files: Files)

  predicate Wellformed(s: State) { |s.sw| == |s.hw| == BUCKETS }

  // ---------- what the methods compute ----------

  /** sscanf assigns a prefix of the bins. */
  function Assign(values: seq<int>, bins: seq<int>): (r: seq<int>)
    requires |values| <= |bins|
    ensures |r| == |bins|
    ensures forall i :: 0 <= i < |bins| ==> r[i] == if i < |values| then values[i] else bins[i]
  {
    values + bins[|values|..]
  }

  function AfterReadStorage(s: State, ok: bool): (t: State)
    requires Wellformed(s)
    ensures Wellformed(t)
  {
    if ok && s.files.storage.Some? then s.(sw := Assign(ScanInts(s.files.storage.value, BUCKETS), s.sw)) else s
  }

  function AfterReadSram(s: State, ok: bool): (t: State)
    requires Wellformed(s)
    ensures Wellformed(t)
  {
    if ok && s.files.sram.Some? then s.(hw := Assign(ScanInts(Trim(s.files.sram.value), BUCKETS), s.hw)) else s
  }

  function Max(a: seq<int>, b: seq<int>): (m: seq<int>)
    requires |a| == |b|
    ensures |m| == |a|
    ensures forall i :: 0 <= i < |a| ==> a[i] <= m[i] && b[i] <= m[i] && (m[i] == a[i] || m[i] == b[i])
  {
    seq(|a|, i requires 0 <= i < |a| => if a[i] < b[i] then b[i] else a[i])
  }

  /** Some bin of `a` is below the same bin of `b`. */
  predicate SomeBelow(a: seq<int>, b: seq<int>)
    requires |a| == |b|
  {
    exists i :: 0 <= i < |a| && a[i] < b[i]
  }

  function Saved(bins: seq<int>): string { Snprintf(BUFF_SIZE, PrintInts(bins)) }

  function AfterUpdateAndSave(s: State, io: Io): (t: State)
    requires Wellformed(s)
    ensures Wellformed(t)
  {
    var m := Max(s.sw, s.hw);
    var sram := if SomeBelow(s.hw, s.sw) && io.writeSram then Some(Saved(m)) else s.files.sram;
    var storage := if SomeBelow(s.sw, s.hw) && io.writeStorage then Some(Saved(m)) else s.files.storage;
    State(m, m, Files(storage, sram))
  }

  function AfterBackup(s: State, io: Io): (t: State)
    requires Wellformed(s)
    ensures Wellformed(t)
  {
    AfterUpdateAndSave(AfterReadSram(s, io.readSram), io)
  }

  function AfterRestore(s: State, io: Io): (t: State)
    requires Wellformed(s)
    ensures Wellformed(t)
  {
    AfterBackup(AfterReadStorage(s, io.readStorage), io)
  }

  // ---------- the class ----------

  class CycleCountBackupRestore {
    const swBins: array<int>
    const hwBins: array<int>
    var files: Files

    ghost predicate Valid()
      reads this
    {
      swBins.Length == hwBins.Length == BUCKETS && swBins != hwBins
    }

    ghost function View(): (s: State)
      requires Valid()
      reads this, swBins, hwBins
      ensures Wellformed(s)
    {
      State(swBins[..], hwBins[..], files)
    }

    /** The object is static, so its bins start at zero. */
    constructor (files: Files)
      ensures Valid() && fresh(swBins) && fresh(hwBins)
      ensures View() == State(ZEROS, ZEROS, files)
    {
      swBins := new int[BUCKETS](_ => 0);
      hwBins := new int[BUCKETS](_ => 0);
      this.files := files;
      new;
      assert swBins[..] == hwBins[..] == ZEROS;
    }

    method ReadFromStorage(ok: bool)
      requires Valid()
      modifies swBins
      ensures View() == AfterReadStorage(old(View()), ok)
    {
      if !ok || files.storage.None? { return; }
      var values := ScanInts(files.storage.value, BUCKETS);
      Fill(swBins, values);
    }

    method ReadFromSRAM(ok: bool)
      requires Valid()
      modifies hwBins
      ensures View() == AfterReadSram(old(View()), ok)
    {
      if !ok || files.sram.None? { return; }
      var values := ScanInts(Trim(files.sram.value), BUCKETS);
      Fill(hwBins, values);
    }

    method SaveToStorage(ok: bool)
      requires Valid()
      modifies this`files
      ensures files == if ok then old(files).(storage := Some(Saved(swBins[..]))) else old(files)
    {
      var text := Snprintf(BUFF_SIZE, PrintInts(swBins[..]));
      if ok { files := files.(storage := Some(text)); }
    }

    method SaveToSRAM(ok: bool)
      requires Valid()
      modifies this`files
      ensures files == if ok then old(files).(sram := Some(Saved(hwBins[..]))) else old(files)
    {
      var text := Snprintf(BUFF_SIZE, PrintInts(hwBins[..]));
      if ok { files := files.(sram := Some(text)); }
    }

    method UpdateAndSave(io: Io)
      requires Valid()
      modifies this`files, swBins, hwBins
      ensures View() == AfterUpdateAndSave(old(View()), io)
    {
      ghost var sw, hw := swBins[..], hwBins[..];
      var backup, restore := false, false;
      for i := 0 to BUCKETS
        invariant forall k :: 0 <= k < i ==> swBins[k] == hwBins[k] == Max(sw, hw)[k]
        invariant forall k :: i <= k < BUCKETS ==> swBins[k] == sw[k] && hwBins[k] == hw[k]
        invariant restore <==> exists k :: 0 <= k < i && hw[k] < sw[k]
        invariant backup <==> exists k :: 0 <= k < i && sw[k] < hw[k]
        invariant files == old(files)
      {
        if hwBins[i] < swBins[i] {
          hwBins[i] := swBins[i];
          restore := true;
        } else if hwBins[i] > swBins[i] {
          swBins[i] := hwBins[i];
          backup := true;
        }
      }
      assert swBins[..] == hwBins[..] == Max(sw, hw);
      if restore { SaveToSRAM(io.writeSram); }
      if backup { SaveToStorage(io.writeStorage); }
    }

    method Restore(io: Io)
      requires Valid()
      modifies this`files, swBins, hwBins
      ensures View() == AfterRestore(old(View()), io)
    {
      ReadFromStorage(io.readStorage);
      ReadFromSRAM(io.readSram);
      UpdateAndSave(io);
    }

    method Backup(io: Io)
      requires Valid()
      modifies this`files, swBins, hwBins
      ensures View() == AfterBackup(old(View()), io)
    {
      ReadFromSRAM(io.readSram);
      UpdateAndSave(io);
    }
  }

  /** sscanf's assignments through its pointer arguments. */
  method Fill(bins: array<int>, values: seq<int>)
    requires |values| <= bins.Length
    modifies bins
    ensures bins[..] == Assign(values, old(bins[..]))
  {
    for i := 0 to |values|
      invariant forall k :: 0 <= k < i ==> bins[k] == values[k]
      invariant forall k :: i <= k < bins.Length ==> bins[k] == old(bins[k])
    {
      bins[i] := values[i];
    }
  }

  // ---------- what the files say ----------

  predicate IsBins(v: seq<int>) { |v| == BUCKETS && forall i :: 0 <= i < BUCKETS ==> IsInt32(v[i]) }

  predicate AtMost(a: seq<int>, b: seq<int>) { |a| == |b| && forall i :: 0 <= i < |a| ==> a[i] <= b[i] }

  predicate AllInt32(v: seq<int>) { forall i :: 0 <= i < |v| ==> IsInt32(v[i]) }

  lemma AtMostTransitive(a: seq<int>, b: seq<int>, c: seq<int>)
    requires AtMost(a, b) && AtMost(b, c)
    ensures AtMost(a, c)
  {
  }

  lemma AtMostReflexive(a: seq<int>)
    ensures AtMost(a, a)
  {
  }

  /** The persisted bins: what a new process gets from the file. Bins that the text does not reach, or
      all if there is no file, are zero. */
  function StorageBins(f: Files): (bins: seq<int>)
    ensures |bins| == BUCKETS
  {
    if f.storage.Some? then Assign(ScanInts(f.storage.value, BUCKETS), ZEROS) else ZEROS
  }

  function SramBins(f: Files): seq<int> {
    if f.sram.Some? then ScanInts(Trim(f.sram.value), BUCKETS) else []
  }

  /** The gauge shows eight ints, in any format that "%d" accepts, and storage holds ints, if anything. */
  predicate Readable(f: Files) { f.sram.Some? && IsBins(SramBins(f)) && IsBins(StorageBins(f)) }

  /** What is saved reads back as the same bins, with or without Trim; the buffer never truncates. */
  lemma SavedReadsBack(bins: seq<int>)
    requires IsBins(bins)
    ensures |PrintInts(bins)| <= 95 && Saved(bins) == PrintInts(bins)
    ensures ScanInts(Saved(bins), BUCKETS) == bins
    ensures ScanInts(Trim(Saved(bins)), BUCKETS) == bins
  {
    hide ScanInts, PrintInts, Trim;
    PrintIntsLength(bins);
    PrintIntsIsTrimmed(bins);
    ScanIntsAfterPrintInts(bins, "");
    assert PrintInts(bins) + "" == PrintInts(bins);
  }

  // ---------- any run ----------

  /** The service starts, the fuel gauge changes, is reset or cannot be read any more, or a backup is due. */
  datatype Event = Boot(io: Io) | Gauge(text: Option<string>) | BackupDue(io: Io)

  function Step(s: State, e: Event): (t: State)
    requires Wellformed(s)
    ensures Wellformed(t)
  {
    match e
    case Boot(io) => AfterRestore(State(ZEROS, ZEROS, s.files), io)
    case Gauge(text) => s.(files := s.files.(sram := text))
    case BackupDue(io) => AfterBackup(s, io)
  }

  function RunEvents(s: State, events: seq<Event>): (t: State)
    requires Wellformed(s)
    ensures Wellformed(t)
  {
    if events == [] then s else Step(RunEvents(s, events[..|events| - 1]), events[|events| - 1])
  }

  /** Every number in the files and the bins fits an int, however many there are. */
  predicate InRange(s: State) {
    Wellformed(s) && AllInt32(s.sw) && AllInt32(s.hw) && AllInt32(StorageBins(s.files)) && AllInt32(SramBins(s.files))
  }

  predicate GaugeInRange(e: Event) { e.Gauge? ==> AllInt32(SramBins(Files(None, e.text))) }

  /** The process knows of at least what is stored. */
  predicate Covers(s: State) { Wellformed(s) && AtMost(StorageBins(s.files), s.sw) }

  lemma AssignInRange(values: seq<int>, bins: seq<int>)
    requires |values| <= |bins| && AllInt32(values) && AllInt32(bins)
    ensures AllInt32(Assign(values, bins))
  {
  }

  lemma ReadsInRange(s: State, storageOk: bool, sramOk: bool)
    requires InRange(s) && (storageOk ==> s.sw == ZEROS)
    ensures InRange(AfterReadSram(AfterReadStorage(s, storageOk), sramOk))
  {
    hide ScanInts, Trim, Assign;
    var t := AfterReadStorage(s, storageOk);
    assert AllInt32(t.sw);
    if sramOk && s.files.sram.Some? { AssignInRange(SramBins(s.files), s.hw); }
  }

  /** What one save does to the stored bins, whatever fails: they become the larger ones, or stay. */
  lemma UpdateStores(s: State, io: Io)
    requires InRange(s)
    ensures var t := AfterUpdateAndSave(s, io);
            && InRange(t)
            && StorageBins(t.files) == if io.writeStorage && SomeBelow(s.sw, s.hw) then t.sw else StorageBins(s.files)
  {
    hide ScanInts, Trim, Saved;
    SavedReadsBack(Max(s.sw, s.hw));
  }

  /** A single Backup keeps every stored bin exactly when it saves nothing, or nothing lower: under any
      faults, and however many bins the gauge text holds. */
  lemma BackupKeepsStorage(s: State, io: Io)
    requires InRange(s)
    ensures var t, read := AfterBackup(s, io), AfterReadSram(s, io.readSram).hw;
            AtMost(StorageBins(s.files), StorageBins(t.files)) <==>
              !(io.writeStorage && SomeBelow(s.sw, read)) || AtMost(StorageBins(s.files), Max(s.sw, read))
  {
    hide ScanInts, Trim, Saved, AfterReadSram;
    ReadsInRange(s, false, io.readSram);
    assert AfterReadStorage(s, false) == s;
    SramReadKeeps(s, io.readSram);
    UpdateStores(AfterReadSram(s, io.readSram), io);
  }

  lemma SramReadKeeps(s: State, ok: bool)
    requires Wellformed(s)
    ensures AfterReadSram(s, ok).sw == s.sw && AfterReadSram(s, ok).files == s.files
  {
  }

  lemma BackupKeepsCover(s: State, io: Io)
    requires InRange(s) && Covers(s)
    ensures var t := AfterBackup(s, io);
            InRange(t) && Covers(t) && AtMost(StorageBins(s.files), StorageBins(t.files))
  {
    hide ScanInts, Trim, Saved, AfterReadSram, StorageBins;
    ReadsInRange(s, false, io.readSram);
    assert AfterReadStorage(s, false) == s;
    SramReadKeeps(s, io.readSram);
    UpdateStores(AfterReadSram(s, io.readSram), io);
  }

  lemma StepKeepsCover(s: State, e: Event)
    requires InRange(s) && GaugeInRange(e) && (e.Boot? ==> e.io.readStorage) && (e.BackupDue? ==> Covers(s))
    ensures var t := Step(s, e);
            && InRange(t) && (e.Boot? || Covers(s) ==> Covers(t))
            && AtMost(StorageBins(s.files), StorageBins(t.files))
  {
    hide ScanInts, Trim, Saved, AfterBackup;
    match e
    case Gauge(_) =>
    case BackupDue(io) => BackupKeepsCover(s, io);
    case Boot(io) =>
      var u := AfterReadStorage(State(ZEROS, ZEROS, s.files), true);
      assert u.sw == StorageBins(s.files);
      BackupKeepsCover(u, io);
  }

  /** Over any run of boots, gauge changes, gauge resets and backups, no stored bin ever decreases, from
      any point `i` to any later point `j`. The gauge text may be missing or hold any number of bins, and
      any read of the gauge and any write may fail; only the boots must be able to read storage. */
  lemma {:induction false} StoredBinsNeverDecrease(s: State, events: seq<Event>, i: nat, j: nat)
    requires InRange(s) && i <= j <= |events|
    requires events != [] ==> events[0].Boot?
    requires forall k :: 0 <= k < |events| ==> GaugeInRange(events[k]) && (events[k].Boot? ==> events[k].io.readStorage)
    ensures AtMost(StorageBins(RunEvents(s, events[..i]).files), StorageBins(RunEvents(s, events[..j]).files))
    ensures var t := RunEvents(s, events[..j]); InRange(t) && (j > 0 ==> Covers(t))
    decreases j
  {
    assert Wellformed(s);
    hide InRange, Covers, GaugeInRange, StorageBins, Step, AtMost;
    var last := RunEvents(s, events[..j]).files;
    if j > 0 {
      var before, k := RunEvents(s, events[..j - 1]), if i < j then i else j - 1;
      assert events[..j][..j - 1] == events[..j - 1];
      StoredBinsNeverDecrease(s, events, k, j - 1);
      StepKeepsCover(before, events[j - 1]);
      AtMostTransitive(StorageBins(RunEvents(s, events[..k]).files), StorageBins(before.files), StorageBins(last));
    }
    AtMostReflexive(StorageBins(last));
  }

  // ---------- working files ----------

  /** A process whose software bins are the stored ones, with files it can read in full. */
  predicate Booted(s: State) { Wellformed(s) && Readable(s.files) && s.sw == StorageBins(s.files) }

  lemma UpdateAgrees(s: State)
    requires Wellformed(s) && Readable(s.files) && s.sw == StorageBins(s.files) && s.hw == SramBins(s.files)
    ensures var t, m := AfterUpdateAndSave(s, FAULT_FREE), Max(s.sw, s.hw);
            t.sw == t.hw == m == StorageBins(t.files) == SramBins(t.files) && Readable(t.files)
  {
    hide ScanInts, Trim, Saved;
    var m := Max(s.sw, s.hw);
    SavedReadsBack(m);
    if !SomeBelow(s.hw, s.sw) { assert m == s.hw; }
    if !SomeBelow(s.sw, s.hw) { assert m == s.sw; }
  }

  /** After every Restore and every Backup the two files and the two sets of bins agree: each bin is
      the larger of what storage and SRAM held. */
  lemma CopiesAgree(s: State, e: Event)
    requires Wellformed(s) && Readable(s.files)
    requires e == Boot(FAULT_FREE) || (e == BackupDue(FAULT_FREE) && Booted(s))
    ensures var t, m := Step(s, e), Max(StorageBins(s.files), SramBins(s.files));
            t.sw == t.hw == m == StorageBins(t.files) == SramBins(t.files) && Booted(t)
  {
    hide ScanInts, Trim, Saved, AfterUpdateAndSave;
    var u := if e.Boot? then AfterReadStorage(State(ZEROS, ZEROS, s.files), true) else s;
    assert u.sw == StorageBins(s.files);
    UpdateAgrees(AfterReadSram(u, true));
  }

  // ---------- faults ----------

  /** Whatever fails, a Backup never lowers a software bin, and the stored text changes only to the
      software bins. */
  lemma BackupNeverLowers(s: State, io: Io)
    requires Wellformed(s)
    ensures var t := AfterBackup(s, io);
            && AtMost(s.sw, t.sw)
            && (t.files.storage == s.files.storage || t.files.storage == Some(Saved(t.sw)))
  {
  }

  /** One process: arbitrary gauge contents and faults before each Backup. */
  datatype Attempt = Attempt(sram: Option<string>, io: Io)

  function Backups(s: State, faults: seq<Attempt>): (t: State)
    requires Wellformed(s)
    ensures Wellformed(t)
  {
    if faults == [] then s
    else
      var before := Backups(s, faults[..|faults| - 1]);
      var last := faults[|faults| - 1];
      AfterBackup(before.(files := before.files.(sram := last.sram)), last.io)
  }

  lemma {:induction false} SoftwareBinsNeverDecrease(s: State, faults: seq<Attempt>, i: nat)
    requires Wellformed(s) && i <= |faults|
    ensures AtMost(Backups(s, faults[..i]).sw, Backups(s, faults).sw)
    decreases |faults|
  {
    hide AfterBackup;
    var n := |faults|;
    if i == n {
      assert faults[..i] == faults;
    } else {
      assert faults[..n - 1][..i] == faults[..i];
      SoftwareBinsNeverDecrease(s, faults[..n - 1], i);
      var before := Backups(s, faults[..n - 1]);
      BackupNeverLowers(before.(files := before.files.(sram := faults[n - 1].sram)), faults[n - 1].io);
    }
  }

  /** A boot that cannot read storage starts from zero. Then storage keeps every bin exactly when
      nothing is saved, as when no gauge bin is positive, or what is saved is no lower. */
  lemma BootWithoutStorage(f: Files, io: Io)
    requires InRange(State(ZEROS, ZEROS, f)) && !io.readStorage
    ensures var boot := State(ZEROS, ZEROS, f);
            var t, read := AfterRestore(boot, io), AfterReadSram(boot, io.readSram).hw;
            AtMost(StorageBins(f), StorageBins(t.files)) <==>
              !(io.writeStorage && SomeBelow(ZEROS, read)) || AtMost(StorageBins(f), Max(ZEROS, read))
  {
    hide ScanInts, Trim, AfterReadSram, AfterBackup;
    BackupKeepsStorage(State(ZEROS, ZEROS, f), io);
  }

  /** So a gauge that was reset and has counted again since replaces a larger stored bin... */
  lemma BootWithoutStorageLoses(f: Files, i: nat)
    requires Readable(f) && i < BUCKETS && 0 < SramBins(f)[i] < StorageBins(f)[i]
    ensures var t := AfterRestore(State(ZEROS, ZEROS, f), FAULT_FREE.(readStorage := false));
            !AtMost(StorageBins(f), StorageBins(t.files))
  {
    hide ScanInts, Trim, Saved, AfterRestore;
    BootWithoutStorage(f, FAULT_FREE.(readStorage := false));
    assert AfterReadSram(State(ZEROS, ZEROS, f), true).hw == SramBins(f);
    assert ZEROS[i] < SramBins(f)[i];
  }

  /** ...as with 100 cycles stored and 1 in the gauge. */
  lemma BootWithoutStorageExample() returns (f: Files)
    ensures Readable(f) && SramBins(f)[0] == 1 && StorageBins(f)[0] == 100
  {
    hide ScanInts, Trim, Saved;
    var stored, gauge := [100, 0, 0, 0, 0, 0, 0, 0], [1, 0, 0, 0, 0, 0, 0, 0];
    SavedReadsBack(stored);
    SavedReadsBack(gauge);
    f := Files(Some(Saved(stored)), Some(Saved(gauge)));
  }

  /** A save that fails is not repeated: a later Backup that can write brings storage in step exactly
      when it was in step before or some gauge bin has grown past the software bins. */
  lemma LostSaveIsNotRepeated(s: State, io: Io)
    requires InRange(s) && io.writeStorage
    ensures var t, read := AfterBackup(s, io), AfterReadSram(s, io.readSram).hw;
            StorageBins(t.files) == t.sw <==> StorageBins(s.files) == s.sw || SomeBelow(s.sw, read)
  {
    hide ScanInts, Trim, Saved, AfterReadSram;
    ReadsInRange(s, false, io.readSram);
    assert AfterReadStorage(s, false) == s;
    SramReadKeeps(s, io.readSram);
    var u := AfterReadSram(s, io.readSram);
    UpdateStores(u, io);
    if !SomeBelow(s.sw, u.hw) { assert Max(s.sw, u.hw) == s.sw; }
  }

  /** Such a state is reached by one failed save: storage is out of step then, and still is after a
      Backup without faults. */
  lemma FailedSaveStays(s: State)
    requires Booted(s) && SomeBelow(s.sw, SramBins(s.files))
    ensures var t := AfterBackup(s, FAULT_FREE.(writeStorage := false));
            var u := AfterBackup(t, FAULT_FREE);
            StorageBins(t.files) != t.sw && StorageBins(u.files) != u.sw
  {
    hide ScanInts, Trim, Saved;
    var gauge := SramBins(s.files);
    var m := Max(s.sw, gauge);
    assert AfterReadSram(s, true).hw == gauge;
    SavedReadsBack(m);
    var t := AfterBackup(s, FAULT_FREE.(writeStorage := false));
    assert t.sw == m == SramBins(t.files) by {
      if !SomeBelow(gauge, s.sw) { assert m == gauge; }
    }
    assert StorageBins(t.files) == s.sw != m;
    LostSaveIsNotRepeated(t, FAULT_FREE);
  }
}
