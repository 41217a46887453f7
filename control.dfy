/** The pour controller and its inputs (src/control.cpp): the encoder
    interrupt, the per-cycle polling of encoder, buttons and glass sensors,
    the pour state machine and the three bounds-checked setters.

    Every entry point runs atomically at one instant `now` (the `millis()`
    reading). A pin sample is the set of GPIO numbers that read HIGH. */
module Control {
  import opened Config
  import opened Snapshot
  import opened Device
  import opened Storage
  import opened Publisher

  // ---- specification of the arithmetic --------------------------------

  /** The target after one consumption of `delta` encoder steps: the step is
      taken only when it lands inside the volume range, otherwise dropped. */
  function VolumeAfterDelta(target: U16, delta: int): (r: U16)
    ensures InVolumeRange(target + delta * VOLUME_STEP) ==> r == target + delta * VOLUME_STEP
    ensures !InVolumeRange(target + delta * VOLUME_STEP) ==> r == target
    ensures InVolumeRange(target) ==> InVolumeRange(r)
  {
    var v := target + delta * VOLUME_STEP;
    if VOLUME_MIN <= v <= VOLUME_MAX then v else target
  }

  /** The target after a series of consumptions, oldest first. */
  function VolumeAfterDeltas(target: U16, deltas: seq<int>): U16
    decreases |deltas|
  {
    if deltas == [] then target
    else VolumeAfterDeltas(VolumeAfterDelta(target, deltas[0]), deltas[1..])
  }

  /** However the encoder is turned, an in-range target stays in range and
      on the 5 ml grid it started on. */
  lemma {:induction false} VolumeStaysInBounds(target: U16, deltas: seq<int>)
    requires InVolumeRange(target)
    decreases |deltas|
    ensures InVolumeRange(VolumeAfterDeltas(target, deltas))
    ensures (VolumeAfterDeltas(target, deltas) - target) % VOLUME_STEP == 0
  {
    if deltas != [] {
      var next := VolumeAfterDelta(target, deltas[0]);
      VolumeStaysInBounds(next, deltas[1..]);
      assert (next - target) % VOLUME_STEP == 0;
    }
  }

  /** The decision `updatePourState` takes for an active pour. */
  datatype PourVerdict = KeepPouring | TimedOut | Done

  function PourCheck(elapsed: U32, target: U16): (v: PourVerdict)
    ensures v == TimedOut <==> elapsed > MAX_POUR_TIME
    ensures v == Done <==> PourDurationMs(target) <= elapsed <= MAX_POUR_TIME
    ensures InVolumeRange(target) && elapsed >= PourDurationMs(VOLUME_MAX) ==> v != KeepPouring
    ensures PourDurationMs(target) > MAX_POUR_TIME ==> v != Done
  {
    if elapsed > MAX_POUR_TIME then TimedOut
    else if elapsed >= PourDurationMs(target) then Done
    else KeepPouring
  }

  // ---- pour outputs ---------------------------------------------------

  /** The part of the globals the pour operations drive: the state, the
      pour flag and clock, and the servo and pump commands. */
  datatype PourOutputs = PourOutputs(state: SystemState, active: bool, startTime: U32, servo: nat, pump: U8)

  function Outputs(d: DeviceState): PourOutputs
    reads d
  {
    PourOutputs(d.state, d.isPourActive, d.pourStartTime, d.servoAngle, d.pumpLevel)
  }

  /** The outputs after an accepted `startPour` for `shot` at `now`. */
  function Started(shot: U8, now: U32): PourOutputs {
    PourOutputs(Pouring, true, now, ServoPosition(shot), PUMP_SPEED_DEFAULT)
  }

  /** The outputs after `stopPour` or `completePour`: pump off, parked,
      Idle; the pour clock keeps its last start. */
  function Stopped(o: PourOutputs): PourOutputs {
    o.(state := Idle, active := false, servo := POS_PARKING, pump := 0)
  }

  // ---- encoder --------------------------------------------------------

  /** `encoderISR`: ignored within 5 ms of the last accepted interrupt;
      otherwise one quadrature step, up when CLK and DT differ. */
  method EncoderISR(d: DeviceState, now: U32, high: set<nat>)
    modifies d`encoderPos, d`encoderChanged, d`lastInterrupt
    ensures Elapsed(now, old(d.lastInterrupt)) < ENCODER_GATE_MS ==>
      d.encoderPos == old(d.encoderPos) && d.encoderChanged == old(d.encoderChanged)
      && d.lastInterrupt == old(d.lastInterrupt)
    ensures Elapsed(now, old(d.lastInterrupt)) >= ENCODER_GATE_MS ==>
      d.encoderPos == old(d.encoderPos) + (if (ENCODER_CLK in high) != (ENCODER_DT in high) then 1 else -1)
      && d.encoderChanged && d.lastInterrupt == now
  {
    if Elapsed(now, d.lastInterrupt) < ENCODER_GATE_MS {
      return;
    }
    var clk := ENCODER_CLK in high;
    var dt := ENCODER_DT in high;
    if clk != dt {
      d.encoderPos := d.encoderPos + 1;
    } else {
      d.encoderPos := d.encoderPos - 1;
    }
    d.encoderChanged := true;
    d.lastInterrupt := now;
  }

  /** The encoder block of `updateControls`: consume the steps since the
      last consumption; an accepted volume is saved and broadcast, and the
      steps are discarded whether or not they were accepted. */
  method ConsumeEncoder(d: DeviceState, now: U32)
    requires d.Consistent()
    modifies d`targetVolume, d`lastEncoderPos, d`encoderChanged, d`store, d`broadcasts
    ensures d.Consistent()
    ensures !old(d.encoderChanged) ==>
      d.targetVolume == old(d.targetVolume) && d.lastEncoderPos == old(d.lastEncoderPos)
      && !d.encoderChanged && d.store == old(d.store) && d.broadcasts == old(d.broadcasts)
    ensures old(d.encoderChanged) ==> !d.encoderChanged && d.lastEncoderPos == d.encoderPos
    ensures old(d.encoderChanged) ==>
      d.targetVolume == VolumeAfterDelta(old(d.targetVolume), d.encoderPos - old(d.lastEncoderPos))
    ensures d.targetVolume != old(d.targetVolume) ==>
      d.store == (if d.storeFails then old(d.store) else WithSettings(old(d.store), CurrentSettings(d)))
      && d.broadcasts == old(d.broadcasts) + [CurrentSnapshot(d, now)]
    ensures d.targetVolume == old(d.targetVolume) ==>
      d.store == old(d.store) && d.broadcasts == old(d.broadcasts)
  {
    if d.encoderChanged {
      var delta := d.encoderPos - d.lastEncoderPos;
      if delta != 0 {
        var newVolume := d.targetVolume + delta * VOLUME_STEP;
        if newVolume >= VOLUME_MIN && newVolume <= VOLUME_MAX {
          d.targetVolume := newVolume;
          SaveSettings(d);
          BroadcastState(d, now);
        }
        d.lastEncoderPos := d.encoderPos;
      }
      d.encoderChanged := false;
    }
  }

  // ---- buttons and sensors -----------------------------------------------

  /** The encoder-button block of `updateControls`: a debounced press
      (level LOW) advances the shot 1, 2, ..., 5, 1 and saves the settings.
      Any current shot is accepted; a press repairs one outside 1..5 unless
      it is 255, which the byte increment turns into 0. */
  method PollEncoderButton(d: DeviceState, now: U32, pressed: bool)
    requires d.Consistent()
    modifies d`encoderButtonPressed, d`lastEncoderPress, d`selectedShot, d`store
    ensures d.Consistent()
    ensures old(d.Valid()) ==> d.Valid()
    ensures var accepted := pressed && !old(d.encoderButtonPressed)
                            && Elapsed(now, old(d.lastEncoderPress)) > DEBOUNCE_MS;
      && d.encoderButtonPressed == (pressed && (accepted || old(d.encoderButtonPressed)))
      && d.lastEncoderPress == (if accepted then now else old(d.lastEncoderPress))
      && d.selectedShot == (if accepted then NextShot(old(d.selectedShot)) else old(d.selectedShot))
      && (accepted && old(d.selectedShot) != Two8 - 1 ==> d.Valid())
      && d.store == (if accepted && !d.storeFails then WithSettings(old(d.store), CurrentSettings(d))
                     else old(d.store))
  {
    if pressed {
      if !d.encoderButtonPressed && Elapsed(now, d.lastEncoderPress) > DEBOUNCE_MS {
        d.encoderButtonPressed := true;
        d.lastEncoderPress := now;
        d.selectedShot := NextShot(d.selectedShot);
        SaveSettings(d);
      }
    } else {
      d.encoderButtonPressed := false;
    }
  }

  /** The start-button block of `updateControls`: a debounced press (level
      HIGH) starts a pour in Idle or Ready, stops one in Pouring, and does
      nothing in the other states. */
  method PollStartButton(d: DeviceState, now: U32, pressed: bool)
    requires d.Consistent() && (pressed ==> d.Valid())
    modifies d`buttonStartPressed, d`lastButtonPress, d`state, d`servoAngle, d`isPourActive,
             d`pourStartTime, d`pumpLevel, d`broadcasts
    ensures d.Consistent() && (old(d.Valid()) ==> d.Valid())
    ensures var accepted := pressed && !old(d.buttonStartPressed)
                            && Elapsed(now, old(d.lastButtonPress)) > DEBOUNCE_MS;
      var started := accepted && old(d.state) in {Idle, Ready} && d.glassPresent[d.selectedShot - 1];
      var stopped := accepted && old(d.state) == Pouring;
      && d.buttonStartPressed == (pressed && (accepted || old(d.buttonStartPressed)))
      && d.lastButtonPress == (if accepted then now else old(d.lastButtonPress))
      && Outputs(d) == (if started then Started(d.selectedShot, now)
                        else if stopped then Stopped(old(Outputs(d)))
                        else old(Outputs(d)))
      && d.broadcasts == old(d.broadcasts) + (if started || stopped then [CurrentSnapshot(d, now)] else [])
  {
    if pressed {
      if !d.buttonStartPressed && Elapsed(now, d.lastButtonPress) > DEBOUNCE_MS {
        d.buttonStartPressed := true;
        d.lastButtonPress := now;
        if d.state == Idle || d.state == Ready {
          StartPour(d, now);
        } else if d.state == Pouring {
          StopPour(d, now);
        }
      }
    } else {
      d.buttonStartPressed := false;
    }
  }

  /** The sensor block of `updateControls`: every glass flag is overwritten
      with its pin's level, without debouncing. */
  method RefreshGlassSensors(d: DeviceState, high: set<nat>)
    requires d.Consistent()
    modifies d.glassPresent
    ensures forall i :: 0 <= i < SHOT_COUNT ==> d.glassPresent[i] == (GLASS_PINS[i] in high)
  {
    d.glassPresent[0] := GLASS_PINS[0] in high;
    d.glassPresent[1] := GLASS_PINS[1] in high;
    d.glassPresent[2] := GLASS_PINS[2] in high;
    d.glassPresent[3] := GLASS_PINS[3] in high;
    d.glassPresent[4] := GLASS_PINS[4] in high;
  }

  /** The two encoder blocks of `updateControls`: the turns are consumed,
      then the encoder button is polled. The settings are saved after
      either change, and a volume change is broadcast with the old shot. */
  method HandleEncoder(d: DeviceState, now: U32, buttonDown: bool)
    requires d.Consistent()
    modifies d`targetVolume, d`lastEncoderPos, d`encoderChanged, d`store, d`broadcasts,
             d`encoderButtonPressed, d`lastEncoderPress, d`selectedShot
    ensures d.Consistent() && (old(d.Valid()) ==> d.Valid())
    ensures old(d.encoderChanged) ==>
      d.targetVolume == VolumeAfterDelta(old(d.targetVolume), d.encoderPos - old(d.lastEncoderPos))
      && d.lastEncoderPos == d.encoderPos
    ensures !old(d.encoderChanged) ==>
      d.targetVolume == old(d.targetVolume) && d.lastEncoderPos == old(d.lastEncoderPos)
    ensures !d.encoderChanged
    ensures var shotPress := buttonDown && !old(d.encoderButtonPressed)
                             && Elapsed(now, old(d.lastEncoderPress)) > DEBOUNCE_MS;
      && d.selectedShot == (if shotPress then NextShot(old(d.selectedShot)) else old(d.selectedShot))
      && d.encoderButtonPressed == (buttonDown && (shotPress || old(d.encoderButtonPressed)))
      && d.lastEncoderPress == (if shotPress then now else old(d.lastEncoderPress))
      && d.store == (if (shotPress || d.targetVolume != old(d.targetVolume)) && !d.storeFails
                     then WithSettings(old(d.store), CurrentSettings(d)) else old(d.store))
    ensures d.broadcasts == old(d.broadcasts)
      + (if d.targetVolume != old(d.targetVolume)
         then [SnapshotOf(d.state, d.mode, d.targetVolume, old(d.selectedShot), d.glassPresent[..], d.stats, now)]
         else [])
  {
    ghost var store0 := d.store;
    ConsumeEncoder(d, now);
    ghost var store1 := d.store;
    PollEncoderButton(d, now, buttonDown);
    if d.store != store1 && store1 != store0 {
      SaveSettingsTwice(store0, Settings(d.mode, d.targetVolume, old(d.selectedShot)), CurrentSettings(d));
    }
  }

  /** The last two blocks of `updateControls`: the start button is polled
      with the glass flags of the previous cycle, then the flags are
      refreshed. */
  method HandleStartAndSensors(d: DeviceState, now: U32, high: set<nat>)
    requires d.Consistent() && (BUTTON_START in high ==> d.Valid())
    modifies d`buttonStartPressed, d`lastButtonPress, d`state, d`servoAngle, d`isPourActive,
             d`pourStartTime, d`pumpLevel, d`broadcasts, d.glassPresent
    ensures d.Consistent() && (old(d.Valid()) ==> d.Valid())
    ensures forall i :: 0 <= i < SHOT_COUNT ==> d.glassPresent[i] == (GLASS_PINS[i] in high)
    ensures var startPress := BUTTON_START in high && !old(d.buttonStartPressed)
                              && Elapsed(now, old(d.lastButtonPress)) > DEBOUNCE_MS;
      var started := startPress && old(d.state) in {Idle, Ready} && old(d.glassPresent[..])[d.selectedShot - 1];
      var stopped := startPress && old(d.state) == Pouring;
      && d.buttonStartPressed == (BUTTON_START in high && (startPress || old(d.buttonStartPressed)))
      && d.lastButtonPress == (if startPress then now else old(d.lastButtonPress))
      && Outputs(d) == (if started then Started(d.selectedShot, now)
                        else if stopped then Stopped(old(Outputs(d)))
                        else old(Outputs(d)))
      && d.broadcasts == old(d.broadcasts)
           + (if started || stopped
              then [SnapshotOf(d.state, d.mode, d.targetVolume, d.selectedShot,
                               old(d.glassPresent[..]), d.stats, now)]
              else [])
  {
    PollStartButton(d, now, BUTTON_START in high);
    ghost var casts := d.broadcasts;
    ghost var out := Outputs(d);
    RefreshGlassSensors(d, high);
    assert d.broadcasts == casts && Outputs(d) == out;
  }

  /** `updateControls`: the four blocks in order. The start button is
      handled before the sensors are refreshed, so a start checks the glass
      flags of the previous cycle, for the shot the encoder button may just
      have advanced. A volume change is broadcast with the old shot; a start
      or stop with the new one; both with the previous cycle's glass flags. */
  method UpdateControls(d: DeviceState, now: U32, high: set<nat>)
    requires d.Consistent() && (BUTTON_START in high ==> d.Valid())
    modifies d`targetVolume, d`lastEncoderPos, d`encoderChanged, d`store, d`broadcasts,
             d`encoderButtonPressed, d`lastEncoderPress, d`selectedShot,
             d`buttonStartPressed, d`lastButtonPress, d`state, d`servoAngle, d`isPourActive,
             d`pourStartTime, d`pumpLevel, d.glassPresent
    ensures d.Consistent() && (old(d.Valid()) ==> d.Valid())
    ensures forall i :: 0 <= i < SHOT_COUNT ==> d.glassPresent[i] == (GLASS_PINS[i] in high)
    ensures old(d.encoderChanged) ==>
      d.targetVolume == VolumeAfterDelta(old(d.targetVolume), d.encoderPos - old(d.lastEncoderPos))
      && d.lastEncoderPos == d.encoderPos
    ensures !old(d.encoderChanged) ==>
      d.targetVolume == old(d.targetVolume) && d.lastEncoderPos == old(d.lastEncoderPos)
    ensures !d.encoderChanged
    ensures var shotPress := ENCODER_SW !in high && !old(d.encoderButtonPressed)
                             && Elapsed(now, old(d.lastEncoderPress)) > DEBOUNCE_MS;
      && d.selectedShot == (if shotPress then NextShot(old(d.selectedShot)) else old(d.selectedShot))
      && d.encoderButtonPressed == (ENCODER_SW !in high && (shotPress || old(d.encoderButtonPressed)))
      && d.lastEncoderPress == (if shotPress then now else old(d.lastEncoderPress))
      && d.store == (if (shotPress || d.targetVolume != old(d.targetVolume)) && !d.storeFails
                     then WithSettings(old(d.store), CurrentSettings(d)) else old(d.store))
    ensures var startPress := BUTTON_START in high && !old(d.buttonStartPressed)
                              && Elapsed(now, old(d.lastButtonPress)) > DEBOUNCE_MS;
      var started := startPress && old(d.state) in {Idle, Ready} && old(d.glassPresent[..])[d.selectedShot - 1];
      var stopped := startPress && old(d.state) == Pouring;
      && d.buttonStartPressed == (BUTTON_START in high && (startPress || old(d.buttonStartPressed)))
      && d.lastButtonPress == (if startPress then now else old(d.lastButtonPress))
      && Outputs(d) == (if started then Started(d.selectedShot, now)
                        else if stopped then Stopped(old(Outputs(d)))
                        else old(Outputs(d)))
      && d.broadcasts == old(d.broadcasts)
           + (if d.targetVolume != old(d.targetVolume)
              then [SnapshotOf(old(d.state), d.mode, d.targetVolume, old(d.selectedShot),
                               old(d.glassPresent[..]), d.stats, now)]
              else [])
           + (if started || stopped
              then [SnapshotOf(d.state, d.mode, d.targetVolume, d.selectedShot,
                               old(d.glassPresent[..]), d.stats, now)]
              else [])
  {
    ghost var glass0 := d.glassPresent[..];
    HandleEncoder(d, now, ENCODER_SW !in high);
    assert d.glassPresent[..] == glass0;
    HandleStartAndSensors(d, now, high);
  }

  // ---- the pour state machine -------------------------------------------

  /** `startPour`: refused while already pouring or when no glass is
      detected under the selected shot; otherwise the servo goes to the
      shot, the pump runs at full duty and the pour clock starts. Error,
      Moving, Paused and Cleaning are not refused. */
  method StartPour(d: DeviceState, now: U32)
    requires d.Valid()
    modifies d`state, d`servoAngle, d`isPourActive, d`pourStartTime, d`pumpLevel, d`broadcasts
    ensures d.Valid()
    ensures var accepted := old(d.state) != Pouring && d.glassPresent[d.selectedShot - 1];
      && Outputs(d) == (if accepted then Started(d.selectedShot, now) else old(Outputs(d)))
      && d.broadcasts == old(d.broadcasts) + (if accepted then [CurrentSnapshot(d, now)] else [])
  {
    if d.state == Pouring {
      return;
    }
    if !d.glassPresent[d.selectedShot - 1] {
      return;
    }
    d.state := Moving;
    d.servoAngle := ServoPosition(d.selectedShot);
    d.state := Pouring;
    d.isPourActive := true;
    d.pourStartTime := now;
    d.pumpLevel := PUMP_SPEED_DEFAULT;
    BroadcastState(d, now);
  }

  /** `stopPour`: from any state, pump off, pour inactive, state Idle,
      servo parked, and a broadcast. */
  method StopPour(d: DeviceState, now: U32)
    requires d.Consistent()
    modifies d`pumpLevel, d`isPourActive, d`state, d`servoAngle, d`broadcasts
    ensures d.Consistent()
    ensures Outputs(d) == Stopped(old(Outputs(d)))
    ensures d.broadcasts == old(d.broadcasts) + [CurrentSnapshot(d, now)]
  {
    d.pumpLevel := 0;
    d.isPourActive := false;
    d.state := Idle;
    d.servoAngle := POS_PARKING;
    BroadcastState(d, now);
  }

  /** `completePour`: pump off, one more pour and the target volume added
      to the statistics, parking, Idle; in the automatic mode the next shot
      is selected. Then the statistics are saved and broadcast. */
  method CompletePour(d: DeviceState, now: U32)
    requires d.Valid()
    modifies d`pumpLevel, d`stats, d`isPourActive, d`servoAngle, d`state, d`selectedShot,
             d`store, d`broadcasts
    ensures d.Valid()
    ensures d.stats == old(d.stats).(totalPours := Inc32(old(d.stats.totalPours)),
                                     totalVolume := Add32(old(d.stats.totalVolume), d.targetVolume),
                                     lastPourVolume := d.targetVolume,
                                     lastPourTime := now)
    ensures Outputs(d) == Stopped(old(Outputs(d)))
    ensures d.selectedShot == if d.mode == MODE_AUTO then NextShot(old(d.selectedShot)) else old(d.selectedShot)
    ensures d.store == if d.storeFails then old(d.store) else WithStats(old(d.store), d.stats)
    ensures d.broadcasts == old(d.broadcasts) + [CurrentSnapshot(d, now)]
  {
    d.pumpLevel := 0;

    d.stats := d.stats.(totalPours := Inc32(d.stats.totalPours));
    d.stats := d.stats.(totalVolume := Add32(d.stats.totalVolume, d.targetVolume));
    d.stats := d.stats.(lastPourVolume := d.targetVolume);
    d.stats := d.stats.(lastPourTime := now);

    d.isPourActive := false;
    d.servoAngle := POS_PARKING;
    d.state := Idle;

    if d.mode == MODE_AUTO {
      d.selectedShot := NextShot(d.selectedShot);
    }

    SaveStatistics(d);
    BroadcastState(d, now);
  }

  /** `updatePourState`: nothing unless a pour is active. The safety ceiling
      is checked first: past it the pour is stopped, the state becomes Error
      and one error is counted, and completion is not looked at. Otherwise
      the pour completes once the time for the live target has elapsed.
      The broadcast of the timeout path comes from `stopPour`, before Error
      is set, so it reports Idle. Without an active pour any selected shot
      is accepted. */
  method UpdatePourState(d: DeviceState, now: U32)
    requires d.Consistent() && (d.isPourActive ==> d.Valid())
    modifies d`pumpLevel, d`stats, d`isPourActive, d`servoAngle, d`state, d`selectedShot,
             d`store, d`broadcasts
    ensures d.Consistent() && (old(d.Valid()) ==> d.Valid())
    ensures var verdict := PourCheck(Elapsed(now, old(d.pourStartTime)), d.targetVolume);
      && (!old(d.isPourActive) || verdict == KeepPouring ==>
            Outputs(d) == old(Outputs(d)) && d.stats == old(d.stats)
            && d.selectedShot == old(d.selectedShot) && d.store == old(d.store)
            && d.broadcasts == old(d.broadcasts))
      && (old(d.isPourActive) && verdict == TimedOut ==>
            Outputs(d) == Stopped(old(Outputs(d))).(state := Error)
            && d.stats == old(d.stats).(errors := Inc32(old(d.stats.errors)))
            && d.selectedShot == old(d.selectedShot) && d.store == old(d.store)
            && d.broadcasts == old(d.broadcasts) + [CurrentSnapshot(d, now).(status := LABEL_IDLE)])
      && (old(d.isPourActive) && verdict == Done ==>
            Outputs(d) == Stopped(old(Outputs(d)))
            && d.stats == old(d.stats).(totalPours := Inc32(old(d.stats.totalPours)),
                                        totalVolume := Add32(old(d.stats.totalVolume), d.targetVolume),
                                        lastPourVolume := d.targetVolume,
                                        lastPourTime := now)
            && d.selectedShot == (if d.mode == MODE_AUTO then NextShot(old(d.selectedShot)) else old(d.selectedShot))
            && d.store == (if d.storeFails then old(d.store) else WithStats(old(d.store), d.stats))
            && d.broadcasts == old(d.broadcasts) + [CurrentSnapshot(d, now)])
  {
    if !d.isPourActive {
      return;
    }

    var elapsed := Elapsed(now, d.pourStartTime);
    var pourTime := PourDurationMs(d.targetVolume);

    if elapsed > MAX_POUR_TIME {
      StopPour(d, now);
      d.state := Error;
      d.stats := d.stats.(errors := Inc32(d.stats.errors));
      return;
    }

    if elapsed >= pourTime {
      CompletePour(d, now);
    }
  }

  // ---- setters ----------------------------------------------------------

  /** `setTargetVolume`: accepted and saved only inside the volume range,
      whatever the state. */
  method SetTargetVolume(d: DeviceState, vol: int)
    modifies d`targetVolume, d`store
    ensures InVolumeRange(vol) ==>
      d.targetVolume == vol
      && d.store == (if d.storeFails then old(d.store) else WithSettings(old(d.store), CurrentSettings(d)))
    ensures !InVolumeRange(vol) ==> d.targetVolume == old(d.targetVolume) && d.store == old(d.store)
  {
    if vol >= VOLUME_MIN && vol <= VOLUME_MAX {
      d.targetVolume := vol;
      SaveSettings(d);
    }
  }

  /** `setPourMode`: written and saved unconditionally. */
  method SetPourMode(d: DeviceState, mode: int)
    modifies d`mode, d`store
    ensures d.mode == mode
    ensures d.store == if d.storeFails then old(d.store) else WithSettings(old(d.store), CurrentSettings(d))
  {
    d.mode := mode;
    SaveSettings(d);
  }

  /** `selectShot`: accepted and saved only for shots 1 to 5, whatever the
      state and whatever the current shot, so it also repairs a shot outside
      1..5 left by `loadSettings`. */
  method SelectShot(d: DeviceState, shot: int)
    requires d.Consistent()
    modifies d`selectedShot, d`store
    ensures d.Consistent()
    ensures 1 <= shot <= SHOT_COUNT ==>
      d.selectedShot == shot && d.Valid()
      && d.store == (if d.storeFails then old(d.store) else WithSettings(old(d.store), CurrentSettings(d)))
    ensures !(1 <= shot <= SHOT_COUNT) ==>
      d.selectedShot == old(d.selectedShot) && d.store == old(d.store) && (d.Valid() <==> old(d.Valid()))
  {
    if shot >= 1 && shot <= SHOT_COUNT {
      d.selectedShot := shot;
      SaveSettings(d);
    }
  }
}
