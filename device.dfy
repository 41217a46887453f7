/** The firmware's shared globals as one object: the device record of
    main.cpp, the controller's own statics in control.cpp, the Preferences
    namespace of storage.cpp, the actuator commands last issued and the
    snapshots broadcast so far. */
module Device {
  import opened Config
  import opened Prefs
  import opened Snapshot

  class DeviceState {
    // main.cpp
    var state: SystemState
    var mode: int
    var targetVolume: U16
    var selectedShot: U8
    const glassPresent: array<bool>
    var stats: Statistics
    var lastStatsSave: U32

    // control.cpp: encoder, buttons, pour timing
    var encoderPos: int
    var encoderChanged: bool
    var lastEncoderPos: int
    /** The `static lastInterrupt` of the encoder interrupt handler. */
    var lastInterrupt: U32
    var buttonStartPressed: bool
    var encoderButtonPressed: bool
    var lastButtonPress: U32
    var lastEncoderPress: U32
    var pourStartTime: U32
    var isPourActive: bool

    // actuator commands: the PWM duty of the pump and the servo angle
    var pumpLevel: U8
    var servoAngle: nat

    // storage.cpp: the persisted namespace, and whether opening it fails
    var store: Store
    var storeFails: bool

    /** Every snapshot pushed to WebSocket observers, oldest first. */
    var broadcasts: seq<Snapshot>

    /** Holds after every entry point: the pour flag mirrors the state. */
    ghost predicate Consistent()
      reads this
    {
      glassPresent.Length == SHOT_COUNT && (isPourActive <==> state == Pouring)
    }

    /** `Consistent` and a selected shot that indexes the sensor array. */
    ghost predicate Valid()
      reads this
    {
      Consistent() && 1 <= selectedShot <= SHOT_COUNT
    }

    /** The values the globals have at power-on, before `setup` runs;
        `flash` is what the Preferences namespace already holds. */
    constructor (flash: Store, flashFails: bool)
      ensures Valid() && fresh(glassPresent)
      ensures state == Idle && mode == MODE_MANUAL && targetVolume == VOLUME_DEFAULT
      ensures selectedShot == 1 && stats == ZeroStats && lastStatsSave == 0
      ensures forall i :: 0 <= i < SHOT_COUNT ==> !glassPresent[i]
      ensures encoderPos == 0 && !encoderChanged && lastEncoderPos == 0 && lastInterrupt == 0
      ensures !buttonStartPressed && !encoderButtonPressed
      ensures lastButtonPress == 0 && lastEncoderPress == 0
      ensures pourStartTime == 0 && !isPourActive
      ensures pumpLevel == 0 && servoAngle == POS_PARKING
      ensures store == flash && storeFails == flashFails && broadcasts == []
    {
      state := Idle;
      mode := MODE_MANUAL;
      targetVolume := VOLUME_DEFAULT;
      selectedShot := 1;
      glassPresent := new bool[SHOT_COUNT](_ => false);
      stats := ZeroStats;
      lastStatsSave := 0;
      encoderPos := 0;
      encoderChanged := false;
      lastEncoderPos := 0;
      lastInterrupt := 0;
      buttonStartPressed := false;
      encoderButtonPressed := false;
      lastButtonPress := 0;
      lastEncoderPress := 0;
      pourStartTime := 0;
      isPourActive := false;
      pumpLevel := 0;
      servoAngle := POS_PARKING;
      store := flash;
      storeFails := flashFails;
      broadcasts := [];
    }
  }
}
