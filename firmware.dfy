/** Top-level housekeeping of src/main.cpp: the periodic statistics flush of
    `loop`, the serial debug console and the state effect of
    `stopAllTasks`. Task creation and scheduling are not modelled; each call
    here is one atomic step of the main loop or of the serial handler. */
module Firmware {
  import opened Config
  import opened Device
  import opened Storage
  import opened Publisher
  import opened Control

  /** Whether `loop` flushes the statistics at `now`: strictly more than the
      save interval since the last flush, measured as unsigned time. */
  function StatsFlushDue(now: U32, lastSave: U32): (due: bool)
    ensures lastSave <= now ==> (due <==> now - lastSave > STATS_SAVE_INTERVAL)
    ensures now < lastSave ==> (due <==> Two32 - (lastSave - now) > STATS_SAVE_INTERVAL)
  {
    Elapsed(now, lastSave) > STATS_SAVE_INTERVAL
  }

  /** The statistics-flush step of `loop`. */
  method FlushStatsIfDue(d: DeviceState, now: U32)
    modifies d`store, d`lastStatsSave
    ensures StatsFlushDue(now, old(d.lastStatsSave)) ==>
      d.lastStatsSave == now
      && d.store == (if d.storeFails then old(d.store) else WithStats(old(d.store), d.stats))
    ensures !StatsFlushDue(now, old(d.lastStatsSave)) ==>
      d.lastStatsSave == old(d.lastStatsSave) && d.store == old(d.store)
  {
    if Elapsed(now, d.lastStatsSave) > STATS_SAVE_INTERVAL {
      SaveStatistics(d);
      d.lastStatsSave := now;
    }
  }

  /** The serial console's commands. */
  datatype SerialCommand = Help | ShowStats | ShowHeap | ShowTasks | ResetStats | Restart
                         | PourVolume(vol: int) | Unknown

  const POUR_PREFIX: string := "pour "

  /** How `serialEvent` reads a trimmed line; `number` is what the text after
      "pour " converts to. */
  function ParseSerial(line: string, number: int): (c: SerialCommand)
    ensures c.PourVolume? <==> |line| >= |POUR_PREFIX| && line[..|POUR_PREFIX|] == POUR_PREFIX
    ensures c.PourVolume? ==> c.vol == number
    ensures (c == Help <==> line == "help") && (c == ShowStats <==> line == "stats")
    ensures (c == ShowHeap <==> line == "heap") && (c == ShowTasks <==> line == "tasks")
    ensures (c == ResetStats <==> line == "reset") && (c == Restart <==> line == "restart")
    ensures c == Unknown <==>
      line !in {"help", "stats", "heap", "tasks", "reset", "restart"}
      && !(|line| >= |POUR_PREFIX| && line[..|POUR_PREFIX|] == POUR_PREFIX)
  {
    assert POUR_PREFIX[0] == 'p' && "stats"[0] == 's' && "tasks"[0] == 't' && "reset"[0] == 'r';
    if line == "help" then Help
    else if line == "stats" then ShowStats
    else if line == "heap" then ShowHeap
    else if line == "tasks" then ShowTasks
    else if line == "reset" then ResetStats
    else if line == "restart" then Restart
    else if |line| >= |POUR_PREFIX| && line[..|POUR_PREFIX|] == POUR_PREFIX then PourVolume(number)
    else Unknown
  }

  /** `serialEvent` for one trimmed line. "reset" zeroes the statistics;
      "pour X" sets the target (without saving it) and tries to start, but
      only for X in range; "restart" is handed back to the caller; every
      other line only prints. */
  method SerialEvent(d: DeviceState, now: U32, line: string, number: int) returns (restart: bool)
    requires d.Consistent()
             && (ParseSerial(line, number).PourVolume? && InVolumeRange(number) ==> d.Valid())
    modifies d`stats, d`store, d`targetVolume, d`state, d`servoAngle, d`isPourActive,
             d`pourStartTime, d`pumpLevel, d`broadcasts
    ensures d.Consistent() && (old(d.Valid()) ==> d.Valid())
    ensures var c := ParseSerial(line, number);
      var pour := c.PourVolume? && InVolumeRange(c.vol);
      var started := pour && old(d.state) != Pouring && d.glassPresent[d.selectedShot - 1];
      && (restart <==> c == Restart)
      && d.stats == (if c == ResetStats then ZeroStats else old(d.stats))
      && d.store == (if c == ResetStats && !d.storeFails then WithStats(old(d.store), ZeroStats)
                     else old(d.store))
      && d.targetVolume == (if pour then c.vol else old(d.targetVolume))
      && Outputs(d) == (if started then Started(d.selectedShot, now) else old(Outputs(d)))
      && d.broadcasts == old(d.broadcasts) + (if started then [CurrentSnapshot(d, now)] else [])
  {
    restart := false;
    match ParseSerial(line, number)
    case ResetStats =>
      ResetStatistics(d);
    case Restart =>
      restart := true;
    case PourVolume(vol) =>
      if vol >= VOLUME_MIN && vol <= VOLUME_MAX {
        d.targetVolume := vol;
        StartPour(d, now);
      }
    case _ =>
  }

  /** `stopAllTasks`: after the tasks are deleted, the pour is stopped. */
  method StopAllTasks(d: DeviceState, now: U32)
    requires d.Consistent()
    modifies d`pumpLevel, d`isPourActive, d`state, d`servoAngle, d`broadcasts
    ensures d.Consistent()
    ensures Outputs(d) == Stopped(old(Outputs(d)))
    ensures d.broadcasts == old(d.broadcasts) + [CurrentSnapshot(d, now)]
  {
    StopPour(d, now);
  }
}
