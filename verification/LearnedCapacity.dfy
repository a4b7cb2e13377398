/**
 Backup and restore of the learned battery capacity. Unlike the cycle counts, the newest value wins,
 and a gauge that shows the nominal capacity is taken to have been reset.
 */
module LearnedCapacity {
  import opened Wrappers
  import opened Decimal

  const BUFF_SIZE := 256

  datatype Files = Files(storage: Option<string>, sram: Option<string>, nominal: Option<string>)

  /** Which file operations of one call succeed. A failed write changes nothing. */
  datatype Io = Io(readStorage: bool, readNominal: bool, readSram: bool, writeSram: bool, writeStorage: bool)

  const FAULT_FREE := Io(true, true, true, true, true)

  datatype State = State(sw: int, hw: int, nom: int, files: Files)

  // ---------- what the methods compute ----------

  /** sscanf(text, "%d", &old), trimmed or not. */
  function Scanned(file: Option<string>, trim: bool, ok: bool, old_: int): int {
    if !ok || file.None? then old_
    else
      var v := ScanInts(if trim then Trim(file.value) else file.value, 1);
      if v == [] then old_ else v[0]
  }

  function Saved(cap: int): string { Snprintf(BUFF_SIZE, PrintInt(cap)) }

  function Stored(s: State, ok: bool): State {
    if ok then s.(files := s.files.(storage := Some(Saved(s.sw)))) else s
  }

  function AfterRestore(s: State, io: Io): State {
    var sw := Scanned(s.files.storage, false, io.readStorage, s.sw);
    var nom := Scanned(s.files.nominal, true, io.readNominal, s.nom);
    var hw := Scanned(s.files.sram, true, io.readSram, s.hw);
    if sw == 0 then Stored(State(hw, hw, nom, s.files), io.writeStorage)
    else if hw == nom then
      State(sw, sw, nom, if io.writeSram then s.files.(sram := Some(Saved(sw))) else s.files)
    else State(sw, hw, nom, s.files)
  }

  function AfterBackup(s: State, io: Io): State {
    var hw := Scanned(s.files.sram, true, io.readSram, s.hw);
    if s.sw != hw then Stored(s.(sw := hw, hw := hw), io.writeStorage) else s.(hw := hw)
  }

  // ---------- the class ----------

  class LearnedCapacityBackupRestore {
    var swCap: int
    var hwCap: int
    var nomCap: int
    var files: Files

    ghost function View(): State
      reads this
    {
      State(swCap, hwCap, nomCap, files)
    }

    /** The object is static, so the field its constructor leaves out is zero too. */
    constructor (files: Files)
      ensures View() == State(0, 0, 0, files)
    {
      swCap, hwCap, nomCap := 0, 0, 0;
      this.files := files;
    }

    method ReadFromStorage(ok: bool)
      modifies this`swCap
      ensures swCap == Scanned(files.storage, false, ok, old(swCap))
    {
      if !ok || files.storage.None? { return; }
      var values := ScanInts(files.storage.value, 1);
      if |values| < 1 { return; }
      swCap := values[0];
    }

    method ReadNominalCapacity(ok: bool)
      modifies this`nomCap
      ensures nomCap == Scanned(files.nominal, true, ok, old(nomCap))
    {
      if !ok || files.nominal.None? { return; }
      var values := ScanInts(Trim(files.nominal.value), 1);
      if |values| < 1 { return; }
      nomCap := values[0];
    }

    method ReadFromSRAM(ok: bool)
      modifies this`hwCap
      ensures hwCap == Scanned(files.sram, true, ok, old(hwCap))
    {
      if !ok || files.sram.None? { return; }
      var values := ScanInts(Trim(files.sram.value), 1);
      if |values| < 1 { return; }
      hwCap := values[0];
    }

    method SaveToStorage(ok: bool)
      modifies this`files
      ensures files == if ok then old(files).(storage := Some(Saved(swCap))) else old(files)
    {
      var text := Snprintf(BUFF_SIZE, PrintInt(swCap));
      if ok { files := files.(storage := Some(text)); }
    }

    method SaveToSRAM(ok: bool)
      modifies this`files
      ensures files == if ok then old(files).(sram := Some(Saved(hwCap))) else old(files)
    {
      var text := Snprintf(BUFF_SIZE, PrintInt(hwCap));
      if ok { files := files.(sram := Some(text)); }
    }

    method Restore(io: Io)
      modifies this
      ensures View() == AfterRestore(old(View()), io)
    {
      ReadFromStorage(io.readStorage);
      ReadNominalCapacity(io.readNominal);
      ReadFromSRAM(io.readSram);
      if swCap == 0 {
        swCap := hwCap;
        SaveToStorage(io.writeStorage);
      } else if hwCap == nomCap {
        hwCap := swCap;
        SaveToSRAM(io.writeSram);
      }
    }

    method Backup(io: Io)
      modifies this
      ensures View() == AfterBackup(old(View()), io)
    {
      ReadFromSRAM(io.readSram);
      if swCap != hwCap {
        swCap := hwCap;
        SaveToStorage(io.writeStorage);
      }
    }
  }

  // ---------- what the files say ----------

  /** The file holds the int `n`, in any format that "%d" accepts. */
  predicate Holds(file: Option<string>, trim: bool, n: int) {
    file.Some? && IsInt32(n) && ScanInts(if trim then Trim(file.value) else file.value, 1) == [n]
  }

  lemma SavedReadsBack(n: int)
    requires IsInt32(n)
    ensures Saved(n) == PrintInt(n)
    ensures Holds(Some(Saved(n)), false, n) && Holds(Some(Saved(n)), true, n)
  {
    hide ScanInts, Trim, PrintInt;
    PrintIntLength(n);
    OneInt(n);
    PrintIntsIsTrimmed([n]);
    ScanIntsAfterPrintInts([n], "");
    assert PrintInts([n]) + "" == PrintInts([n]);
  }

  lemma OneInt(n: int)
    ensures PrintInts([n]) == PrintInt(n)
  {
  }

  /** A power-off state: storage holds the learned capacity `c`, the design file the nominal one. */
  predicate Off(f: Files, c: int, nominal: int) {
    Holds(f.storage, false, c) && Holds(f.nominal, true, nominal) && f.sram.Some?
  }

  /** A process that has restored or backed up: everything agrees on `c`. */
  predicate Agreed(s: State, c: int, nominal: int) {
    Off(s.files, c, nominal) && Holds(s.files.sram, true, c) && s.sw == c && s.hw == c && s.nom == nominal
  }

  /** A new process on the given files, right after Restore. */
  function BootOn(f: Files): State { AfterRestore(State(0, 0, 0, f), FAULT_FREE) }

  /** Restore puts the learned capacity back into a gauge that was reset to nominal. */
  lemma RestoreAfterReset(f: Files, c: int, nominal: int)
    requires Off(f, c, nominal) && c != 0 && Holds(f.sram, true, nominal)
    ensures Agreed(BootOn(f), c, nominal)
  {
    hide ScanInts, Trim, Saved;
    SavedReadsBack(c);
  }

  /** The very first Restore, with nothing stored, stores what the gauge shows. */
  lemma FirstRestore(f: Files, shown: int, nominal: int)
    requires f.storage.None? && Holds(f.nominal, true, nominal) && Holds(f.sram, true, shown)
    ensures Agreed(BootOn(f), shown, nominal)
  {
    hide ScanInts, Trim, Saved;
    SavedReadsBack(shown);
  }

  /** A Backup makes storage, SRAM and both fields agree on what the gauge shows exactly when storage
      was in step with the software value before, or the gauge shows a new value. */
  lemma BackupAgrees(s: State, nominal: int, shown: int, stored: int)
    requires Off(s.files, stored, nominal) && s.nom == nominal && Holds(s.files.sram, true, shown)
    ensures Agreed(AfterBackup(s, FAULT_FREE), shown, nominal) <==> stored == s.sw || s.sw != shown
  {
    hide ScanInts, Trim, Saved;
    SavedReadsBack(shown);
  }

  // ---------- runs ----------

  /** Between two calls the gauge keeps its value, learns a new one, or (at boot) comes up reset. */
  datatype Event = Reboot | RebootReset(gauge: string) | Learn(gauge: string) | BackupDue

  function Step(s: State, e: Event): State {
    match e
    case Reboot => BootOn(s.files)
    case RebootReset(gauge) => BootOn(s.files.(sram := Some(gauge)))
    case Learn(gauge) => s.(files := s.files.(sram := Some(gauge)))
    case BackupDue => AfterBackup(s, FAULT_FREE)
  }

  function RunEvents(s: State, events: seq<Event>): State {
    if events == [] then s else Step(RunEvents(s, events[..|events| - 1]), events[|events| - 1])
  }

  /** The event is what it says: a reset shows nominal, a learned value is an int other than 0. */
  predicate Proper(e: Event, nominal: int) {
    match e
    case RebootReset(gauge) => Holds(Some(gauge), true, nominal)
    case Learn(gauge) => var n := Scanned(Some(gauge), true, true, 0); n != 0 && Holds(Some(gauge), true, n)
    case _ => true
  }

  /** What the texts in the files come down to: the stored capacity, and the one the gauge shows. */
  datatype Memory = Memory(saved: int, shown: int)

  function Remember(m: Memory, e: Event, nominal: int): Memory {
    match e
    case Reboot => if m.shown == nominal then Memory(m.saved, m.saved) else m
    case RebootReset(_) => Memory(m.saved, m.saved)
    case Learn(gauge) => Memory(m.saved, Scanned(Some(gauge), true, true, 0))
    case BackupDue => Memory(m.shown, m.shown)
  }

  function RememberAll(m: Memory, events: seq<Event>, nominal: int): Memory {
    if events == [] then m
    else Remember(RememberAll(m, events[..|events| - 1], nominal), events[|events| - 1], nominal)
  }

  predicate Remembers(s: State, m: Memory, nominal: int) {
    && Off(s.files, m.saved, nominal) && Holds(s.files.sram, true, m.shown)
    && s.sw == m.saved && s.nom == nominal && m.saved != 0 && m.shown != 0
  }

  lemma StepRemembers(s: State, m: Memory, e: Event, nominal: int)
    requires Remembers(s, m, nominal) && Proper(e, nominal)
    ensures Remembers(Step(s, e), Remember(m, e, nominal), nominal)
  {
    hide ScanInts, Trim, Saved;
    SavedReadsBack(m.saved);
    SavedReadsBack(m.shown);
  }

  /** The service does what the two numbers say, over every run of boots, gauge resets, learned values
      and backups: it stores what the gauge shows, and restores what is stored into a gauge that comes
      up nominal. */
  lemma {:induction false} RunRemembers(s: State, m: Memory, events: seq<Event>, nominal: int)
    requires Remembers(s, m, nominal)
    requires forall k :: 0 <= k < |events| ==> Proper(events[k], nominal)
    ensures Remembers(RunEvents(s, events), RememberAll(m, events, nominal), nominal)
  {
    hide Remembers, Proper, Step, Remember;
    if events != [] {
      var n := |events| - 1;
      RunRemembers(s, m, events[..n], nominal);
      StepRemembers(RunEvents(s, events[..n]), RememberAll(m, events[..n], nominal), events[n], nominal);
    }
  }

  /** After every Backup of every run, storage, SRAM and both fields hold what the gauge shows. */
  lemma EveryBackupAgrees(s: State, m: Memory, events: seq<Event>, nominal: int)
    requires Remembers(s, m, nominal)
    requires forall k :: 0 <= k < |events| ==> Proper(events[k], nominal)
    ensures Agreed(AfterBackup(RunEvents(s, events), FAULT_FREE), RememberAll(m, events, nominal).shown, nominal)
  {
    hide ScanInts, Trim, AfterBackup, RunEvents, RememberAll;
    RunRemembers(s, m, events, nominal);
    var end := RememberAll(m, events, nominal);
    BackupAgrees(RunEvents(s, events), nominal, end.shown, end.saved);
  }

  predicate OnlyBoots(events: seq<Event>) {
    forall k :: 0 <= k < |events| ==> events[k].Reboot? || events[k].RebootReset?
  }

  /** A boot that makes the service mistake the shown capacity `n` for a reset gauge. */
  predicate Forgets(e: Event, n: int, nominal: int) { e.RebootReset? || (e.Reboot? && n == nominal) }

  predicate Forgotten(boots: seq<Event>, n: int, nominal: int) {
    exists k :: 0 <= k < |boots| && Forgets(boots[k], n, nominal)
  }

  lemma {:induction false} BootsRemember(m: Memory, boots: seq<Event>, nominal: int)
    requires OnlyBoots(boots)
    ensures RememberAll(m, boots, nominal) ==
        Memory(m.saved, if Forgotten(boots, m.shown, nominal) then m.saved else m.shown)
  {
    if boots != [] {
      var n := |boots| - 1;
      BootsRemember(m, boots[..n], nominal);
      assert forall k :: 0 <= k < n ==> boots[..n][k] == boots[k];
      assert Forgotten(boots, m.shown, nominal) <==>
        Forgotten(boots[..n], m.shown, nominal) || Forgets(boots[n], m.shown, nominal);
    }
  }

  /** A learned value becomes the capacity on which everything agrees exactly when no boot before the
      next backup finds the gauge reset, or it is the stored value anyway. */
  lemma LearnedIsKept(s: State, m: Memory, n: int, gauge: string, boots: seq<Event>, nominal: int)
    requires Remembers(s, m, nominal) && n != 0 && Holds(Some(gauge), true, n)
    requires OnlyBoots(boots) && forall k :: 0 <= k < |boots| ==> Proper(boots[k], nominal)
    ensures Agreed(AfterBackup(RunEvents(Step(s, Learn(gauge)), boots), FAULT_FREE), n, nominal) <==>
              !Forgotten(boots, n, nominal) || n == m.saved
  {
    hide ScanInts, Trim, Forgotten, OnlyBoots, AfterBackup, RunEvents, RememberAll;
    var learned := Memory(m.saved, n);
    StepRemembers(s, m, Learn(gauge), nominal);
    EveryBackupAgrees(Step(s, Learn(gauge)), learned, boots, nominal);
    BootsRemember(learned, boots, nominal);
  }

  lemma StepIsHarmless(s: State, e: Event, c: int, nominal: int)
    requires Agreed(s, c, nominal) && c != 0 && Proper(e, nominal) && !e.Learn?
    ensures Agreed(Step(s, e), c, nominal)
  {
    hide ScanInts, Trim, Saved;
    SavedReadsBack(c);
  }

  /** Once everything agrees on a capacity, no run of reboots, gauge resets and backups changes it. */
  lemma {:induction false} ResetsAreHarmless(s: State, events: seq<Event>, c: int, nominal: int)
    requires Agreed(s, c, nominal) && c != 0
    requires forall k :: 0 <= k < |events| ==> Proper(events[k], nominal) && !events[k].Learn?
    ensures Agreed(RunEvents(s, events), c, nominal)
  {
    hide Agreed, Proper, Step;
    if events != [] {
      var n := |events| - 1;
      ResetsAreHarmless(s, events[..n], c, nominal);
      StepIsHarmless(RunEvents(s, events[..n]), events[n], c, nominal);
    }
  }

  /** A reset while the service runs is taken for a learned value: the next backup replaces the stored
      capacity, unless it was nominal anyway. */
  lemma ResetWhileRunningIsSaved(s: State, c: int, nominal: int, gauge: string)
    requires Agreed(s, c, nominal) && Holds(Some(gauge), true, nominal)
    ensures var t := AfterBackup(s.(files := s.files.(sram := Some(gauge))), FAULT_FREE);
            Agreed(t, nominal, nominal) && (Agreed(t, c, nominal) <==> c == nominal)
  {
    hide ScanInts, Trim, Saved;
    SavedReadsBack(nominal);
  }
}
