/** End-to-end runs of the controller from power-on, each driving the entry
    points the way the firmware's tasks and handlers do. A pin sample lists
    the GPIOs that read HIGH: the encoder button is pulled up, so it is
    released while ENCODER_SW reads HIGH; the start button and the glass
    sensors read HIGH when pressed or occupied. */
module Scenarios {
  import opened Config
  import opened Snapshot
  import opened Prefs
  import opened Device
  import opened Storage
  import opened Control
  import opened Commands
  import opened Firmware

  /** Target 25 ml, glass under shot 1: a start-button press begins a pour
      that completes 2500 ms later, counted once with 25 ml, and the manual
      mode keeps shot 1. */
  method PourCompletesAfterItsDuration() returns (state: SystemState, pours: U32, poured: U32, shot: U8)
    ensures state == Idle && pours == 1 && poured == 25 && shot == 1
  {
    var d := new DeviceState(map[], false);
    UpdateControls(d, 100, {ENCODER_SW, GLASS_PINS[0]});
    UpdateControls(d, 200, {ENCODER_SW, GLASS_PINS[0], BUTTON_START});
    assert d.state == Pouring && d.pourStartTime == 200 && d.targetVolume == 25;
    assert d.stats == ZeroStats && d.mode == MODE_MANUAL && d.selectedShot == 1;
    assert PourCheck(Elapsed(2699, 200), 25) == KeepPouring;
    UpdatePourState(d, 2699);
    assert d.state == Pouring && d.pourStartTime == 200 && d.targetVolume == 25;
    assert d.stats == ZeroStats && d.mode == MODE_MANUAL && d.selectedShot == 1;
    assert PourCheck(Elapsed(2700, 200), 25) == Done;
    UpdatePourState(d, 2700);
    state, pours, poured, shot := d.state, d.stats.totalPours, d.stats.totalVolume, d.selectedShot;
  }

  /** With no glass under the selected shot, the start button does nothing. */
  method StartWithoutGlassIsRefused() returns (state: SystemState, active: bool, pushed: nat)
    ensures state == Idle && !active && pushed == 0
  {
    var d := new DeviceState(map[], false);
    UpdateControls(d, 100, {ENCODER_SW});
    UpdateControls(d, 200, {ENCODER_SW, BUTTON_START});
    state, active, pushed := d.state, d.isPourActive, |d.broadcasts|;
  }

  /** A stored volume of 400 ml is loaded without a range check; with a
      glass sensed under shot 1, a start over HTTP begins a pour that would
      take 40 s, so the 30 s ceiling ends it in Error with one error
      counted and no pour. The broadcast of that step still says Idle. */
  method OversizedStoredVolumeTimesOut() returns (state: SystemState, errors: U32, pours: U32, lastStatus: string)
    ensures state == Error && errors == 1 && pours == 0 && lastStatus == LABEL_IDLE
  {
    var d := new DeviceState(map[KEY_VOLUME := UShort(400)], false);
    LoadSettings(d);
    assert d.targetVolume == 400 && d.selectedShot == 1;
    RefreshGlassSensors(d, {GLASS_PINS[0]});
    assert d.glassPresent[0] && d.state == Idle && d.selectedShot == 1;
    assert d.targetVolume == 400 && d.stats == ZeroStats;
    var reply := ApiStart(d, 200);
    assert Outputs(d) == Started(1, 200);
    assert d.isPourActive && d.pourStartTime == 200 && d.targetVolume == 400;
    assert PourCheck(Elapsed(30200, 200), 400) == KeepPouring;
    UpdatePourState(d, 30200);
    assert d.isPourActive && d.pourStartTime == 200 && d.stats == ZeroStats;
    assert PourCheck(Elapsed(30201, 200), 400) == TimedOut;
    UpdatePourState(d, 30201);
    state, errors, pours := d.state, d.stats.errors, d.stats.totalPours;
    lastStatus := d.broadcasts[|d.broadcasts| - 1].status;
  }

  /** Two encoder detents 10 ms apart raise the target by two steps; a
      bounce 2 ms after the first is gated out. */
  method EncoderStepsRaiseVolume() returns (volume: U16)
    ensures volume == 35
  {
    var d := new DeviceState(map[], false);
    EncoderISR(d, 10, {ENCODER_CLK});
    EncoderISR(d, 12, {ENCODER_CLK});
    EncoderISR(d, 20, {ENCODER_CLK});
    UpdateControls(d, 30, {ENCODER_SW});
    volume := d.targetVolume;
  }

  /** Settings sent over the WebSocket are saved as they change and read
      back by the next power-on. */
  method SettingsSurviveRestart() returns (mode: int, volume: U16, shot: U8)
    ensures mode == MODE_AUTO && volume == 50 && shot == 3
  {
    var d := new DeviceState(map[], false);
    var frame := FrameInfo(true, 0, 20, WS_TEXT);
    assert Route(frame, 20, Some(JsonCommand("mode", MODE_AUTO))) == SetMode(MODE_AUTO);
    OnWsData(d, 0, frame, 20, Some(JsonCommand("mode", MODE_AUTO)));
    assert Route(frame, 20, Some(JsonCommand("volume", 50))) == SetVolume(50);
    OnWsData(d, 0, frame, 20, Some(JsonCommand("volume", 50)));
    assert Route(frame, 20, Some(JsonCommand("shot", 3))) == PickShot(3);
    OnWsData(d, 0, frame, 20, Some(JsonCommand("shot", 3)));
    assert StoredSettings(d.store) == Settings(MODE_AUTO, 50, 3);
    var e := new DeviceState(d.store, false);
    LoadSettings(e);
    mode, volume, shot := e.mode, e.targetVolume, e.selectedShot;
  }

  /** In the automatic mode a completed pour moves on to the next shot. */
  method AutoModeAdvancesShot() returns (shot: U8)
    ensures shot == 2
  {
    var d := new DeviceState(map[], true);
    SetPourMode(d, MODE_AUTO);
    assert d.state == Idle && !d.encoderChanged && d.selectedShot == 1 && d.targetVolume == 25;
    UpdateControls(d, 100, {ENCODER_SW, GLASS_PINS[0]});
    assert d.glassPresent[0] && d.state == Idle && d.selectedShot == 1;
    assert d.targetVolume == 25 && d.mode == MODE_AUTO;
    StartPour(d, 200);
    assert d.isPourActive && d.pourStartTime == 200 && d.selectedShot == 1;
    assert PourCheck(Elapsed(2700, 200), 25) == Done;
    UpdatePourState(d, 2700);
    shot := d.selectedShot;
  }

  /** A stored shot of 9 is loaded unchecked. The next control cycle with
      the encoder button held wraps it to shot 1, and a WebSocket "shot"
      command then selects shot 4. */
  method StoredShotOutOfRangeIsRepaired() returns (loaded: U8, afterPress: U8, picked: U8)
    ensures loaded == 9 && afterPress == 1 && picked == 4
  {
    var d := new DeviceState(map[KEY_SHOT := UChar(9)], false);
    LoadSettings(d);
    loaded := d.selectedShot;
    UpdateControls(d, 100, {});
    afterPress := d.selectedShot;
    var frame := FrameInfo(true, 0, 20, WS_TEXT);
    assert Route(frame, 20, Some(JsonCommand("shot", 4))) == PickShot(4);
    OnWsData(d, 200, frame, 20, Some(JsonCommand("shot", 4)));
    picked := d.selectedShot;
  }

  /** An out-of-range "pour X" on the serial console is refused before the
      glass array is read, so it is handled even while the loaded shot is
      out of range: nothing changes and nothing is broadcast. */
  method OutOfRangeSerialPourIsRefused() returns (volume: U16, state: SystemState, pushed: nat)
    ensures volume == VOLUME_DEFAULT && state == Idle && pushed == 0
  {
    var d := new DeviceState(map[KEY_SHOT := UChar(9)], false);
    LoadSettings(d);
    assert d.selectedShot == 9 && d.targetVolume == VOLUME_DEFAULT;
    assert ParseSerial("pour 500", 500) == PourVolume(500);
    var restart := SerialEvent(d, 100, "pour 500", 500);
    volume := d.targetVolume;
    state := d.state;
    pushed := |d.broadcasts|;
  }
}
