/** When the health service backs up: at boot, on every battery update, and after enough charging. */
module HealthService {
  import CC = CycleCount
  import LC = LearnedCapacity

  const BACKUP_TRIGGER := 20

  /** The static variables of cycle_count_backup. */
  datatype Charge = Charge(savedSoc: int, socInc: int, isFirst: bool)

  const START := Charge(0, 0, true)

  function Gain(from: int, to: int): nat { if to > from then to - from else 0 }

  /** The new variables, and whether Backup is called. */
  function AfterLevel(c: Charge, level: int): (Charge, bool) {
    if c.isFirst then (Charge(level, c.socInc, false), false)
    else
      var inc := c.socInc + Gain(c.savedSoc, level);
      if inc >= BACKUP_TRIGGER then (Charge(level, 0, false), true) else (Charge(level, inc, false), false)
  }

  class Service {
    const cc: CC.CycleCountBackupRestore
    const lc: LC.LearnedCapacityBackupRestore
    var savedSoc: int
    var socInc: int
    var isFirst: bool

    ghost predicate Valid()
      reads this, cc
    {
      cc.Valid()
    }

    ghost function Variables(): Charge
      reads this
    {
      Charge(savedSoc, socInc, isFirst)
    }

    constructor (cc: CC.CycleCountBackupRestore, lc: LC.LearnedCapacityBackupRestore)
      requires cc.Valid()
      ensures Valid() && Variables() == START && this.cc == cc && this.lc == lc
    {
      this.cc, this.lc := cc, lc;
      savedSoc, socInc, isFirst := 0, 0, true;
    }

    /** healthd_board_init */
    method BoardInit(ccIo: CC.Io, lcIo: LC.Io)
      requires Valid()
      modifies cc`files, cc.swBins, cc.hwBins, lc
      ensures Valid()
      ensures cc.View() == CC.AfterRestore(old(cc.View()), ccIo)
      ensures lc.View() == LC.AfterRestore(old(lc.View()), lcIo)
    {
      cc.Restore(ccIo);
      lc.Restore(lcIo);
    }

    /** cycle_count_backup */
    method CycleCountBackup(batteryLevel: int, io: CC.Io)
      requires Valid()
      modifies `savedSoc, `socInc, `isFirst, cc`files, cc.swBins, cc.hwBins
      ensures Valid()
      ensures var (after, backup) := AfterLevel(old(Variables()), batteryLevel);
              && Variables() == after
              && cc.View() == if backup then CC.AfterBackup(old(cc.View()), io) else old(cc.View())
    {
      if isFirst {
        isFirst := false;
        savedSoc := batteryLevel;
        return;
      }
      if batteryLevel > savedSoc {
        socInc := socInc + (batteryLevel - savedSoc);
      }
      savedSoc := batteryLevel;
      if socInc >= BACKUP_TRIGGER {
        cc.Backup(io);
        socInc := 0;
      }
    }

    /** healthd_board_battery_update */
    method BatteryUpdate(batteryLevel: int, ccIo: CC.Io, lcIo: LC.Io)
      requires Valid()
      modifies `savedSoc, `socInc, `isFirst, cc`files, cc.swBins, cc.hwBins, lc
      ensures Valid()
      ensures var (after, backup) := AfterLevel(old(Variables()), batteryLevel);
              && Variables() == after
              && cc.View() == (if backup then CC.AfterBackup(old(cc.View()), ccIo) else old(cc.View()))
      ensures lc.View() == LC.AfterBackup(old(lc.View()), lcIo)
    {
      CycleCountBackup(batteryLevel, ccIo);
      lc.Backup(lcIo);
    }
  }

  // ---------- any sequence of battery levels ----------

  function Run(levels: seq<int>): Charge {
    if levels == [] then START else AfterLevel(Run(levels[..|levels| - 1]), levels[|levels| - 1]).0
  }

  /** How many backups the levels cause. */
  function Backups(levels: seq<int>): nat {
    if levels == [] then 0
    else
      var n := |levels| - 1;
      Backups(levels[..n]) + if AfterLevel(Run(levels[..n]), levels[n]).1 then 1 else 0
  }

  /** The total upward movement since the first reading. */
  function Upward(levels: seq<int>): nat {
    if |levels| <= 1 then 0
    else
      var n := |levels| - 1;
      Upward(levels[..n]) + Gain(levels[n - 1], levels[n])
  }

  predicate Percentages(levels: seq<int>) { forall i :: 0 <= i < |levels| ==> 0 <= levels[i] <= 100 }

  lemma {:induction false} RunRemembersLast(levels: seq<int>)
    requires levels != []
    ensures Run(levels).savedSoc == levels[|levels| - 1] && !Run(levels).isFirst
  {
    if |levels| > 1 { RunRemembersLast(levels[..|levels| - 1]); }
  }

  /** The accumulator stays below the trigger and the backups account for the upward movement: each
      stands for at least 20 percent of charging and, for levels in 0..100, at most 119. */
  lemma {:induction false} BackupsFollowCharging(levels: seq<int>)
    ensures 0 <= Run(levels).socInc < BACKUP_TRIGGER
    ensures BACKUP_TRIGGER * Backups(levels) <= Upward(levels) - Run(levels).socInc
    ensures Percentages(levels) ==> Upward(levels) - Run(levels).socInc <= 119 * Backups(levels)
  {
    if levels != [] {
      var n := |levels| - 1;
      BackupsFollowCharging(levels[..n]);
      if n > 0 { RunRemembersLast(levels[..n]); }
    }
  }

  lemma RunAppend(levels: seq<int>, level: int)
    ensures Run(levels + [level]) == AfterLevel(Run(levels), level).0
    ensures Backups(levels + [level]) == Backups(levels) + if AfterLevel(Run(levels), level).1 then 1 else 0
    ensures levels != [] ==> Upward(levels + [level]) == Upward(levels) + Gain(levels[|levels| - 1], level)
  {
    assert (levels + [level])[..|levels|] == levels;
  }

  /** Both bounds are reached. */
  lemma BoundsAreTight()
    ensures var low := [0] + [20]; Upward(low) - Run(low).socInc == 20 * Backups(low) == 20
    ensures var high := [0] + [19] + [0] + [100]; Upward(high) - Run(high).socInc == 119 * Backups(high) == 119
  {
    RunAppend([], 0);
    assert [] + [0] == [0];
    RunAppend([0], 20);
    RunAppend([0], 19);
    RunAppend([0] + [19], 0);
    RunAppend([0] + [19] + [0], 100);
  }
}
