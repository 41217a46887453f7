# Drink dispenser pour controller — a Dafny model

This project models the firmware of an ESP32 shot-glass drink dispenser. An
operator, or a client over WebSocket or HTTP, selects:

- a target volume (10 to 200 ml; the encoder moves it in 5 ml steps),
- one of five glass positions,
- a manual or automatic mode.

A pour moves the servo over the selected glass and runs the pump for the time
the target needs at 10 ml/s. A 30-second safety ceiling stops a pour that runs
too long. Completed pours are counted in lifetime statistics. Settings and
statistics persist in a Preferences namespace. Pour starts and stops,
completions, timeouts and encoder volume changes are broadcast to observers as
snapshots; the setters, the encoder button's shot change and the serial
"reset" are not.

Layout:

- `config.dfy` (module `Config`): the constants of `include/config.h` and the
  machine widths. Unsigned 32-bit time differences, counter wrap-around, the
  pour duration and the shot rotation are written out.
- `prefs.dfy` (module `Prefs`): the typed key/value namespace. A getter returns
  its default for a missing key or a key of another width.
- `device.dfy` (module `Device`): one class `DeviceState` holding every global
  of the firmware. It also holds the last actuator commands (pump duty, servo
  angle), the namespace, a flag saying whether opening the namespace fails,
  and the log of broadcast snapshots.
- `storage.dfy` (module `Storage`): load, save and reset against the namespace.
- `snapshot.dfy` and `publisher.dfy` (modules `Snapshot`, `Publisher`): state
  labels and the snapshot document of connect and broadcast.
- `control.dfy` (module `Control`): encoder interrupt, input polling, the pour
  state machine and the setters.
- `commands.dfy` (module `Commands`): WebSocket command routing and the `/api`
  handlers.
- `firmware.dfy` (module `Firmware`): the statistics flush of the main loop,
  the serial console and `stopAllTasks`.
- `scenarios.dfy` (module `Scenarios`): complete runs from power-on, each with
  its outcome proved.

Every entry point is one atomic step at time `now`, the `millis()` reading. A
pin sample is the set of GPIO numbers that read HIGH. The predicate
`DeviceState.Consistent` says the pour flag is set exactly in the Pouring
state. Every operation that can change the state or the pour flag requires it
and re-establishes it; the others leave both fields out of their frames, so
they keep it too. `DeviceState.Valid` adds that the selected shot is 1 to 5.
The pour outputs (state, pour flag, pour clock, servo angle, pump duty) are
grouped as `Control.Outputs`, and `Control.Started` and `Control.Stopped`
give their values after an accepted start and after a stop.

The model follows the code as written:

- The pour duration is recomputed every cycle from the live target volume.
  No volume is captured at start, so a volume change during a pour shortens or
  lengthens it.
- The setters and the encoder have no phase guard. Volume, mode and shot can
  change in any state, Pouring included.

## Model

| member | source | states |
|---|---|---|
| Config.Elapsed | src/control.cpp:35 | the unsigned difference of two millisecond readings: the plain difference when no wrap occurred, 2^32 minus the gap when the clock wrapped |
| Config.Inc32 | src/control.cpp:255 | a 32-bit counter increment adds one, and wraps to 0 only from 2^32-1 |
| Config.Add32 | src/control.cpp:256 | adding a 16-bit volume to a 32-bit total is exact below 2^32 and loses exactly 2^32 above it |
| Config.PourDurationMs | src/control.cpp:171 | the pump time delivers exactly the target at 10 ml/s; every in-range target needs 1 to 20 s, below the 30 s ceiling |
| Config.ServoPosition | src/control.cpp:205-212 | shot n in 1..5 maps to 30·n degrees, never the parking angle; any other shot leaves position 0 |
| Config.NextShot | src/control.cpp:130-131 | from a valid shot the next one is valid and one further round the 5-cycle; from any shot but 255 the result is 1..5; 0 results only from the byte overflow of 255 |
| Config.AdvanceShotCycle | src/control.cpp:269-272 | k automatic advances from shot s land on shot ((s-1+k) mod 5)+1, so five pours visit every glass once and return |
| Config.Code | include/config.h:234-242 | the numeric values of the seven states lie in 0..6 |
| Config.CodeInjective | include/config.h:234-242 | distinct states have distinct numeric values |
| Snapshot.GetStateString | src/network.cpp:485-496 | a raw state value gets the unknown label exactly when it is not one of the seven states |
| Snapshot.LabelToState | src/network.cpp:485-496 | reading a label back names a state whose label it is; the unknown label names none |
| Snapshot.LabelRoundTrip | src/network.cpp:485-496 | every state's label reads back as that state |
| Snapshot.StateLabelInjective | src/network.cpp:485-496 | no two states share a label |
| Snapshot.Uptime | src/network.cpp:324 | uptime is the whole number of seconds in the millisecond clock |
| Storage.StoredSettings | src/storage.cpp:18-20 | a namespace without settings keys loads Manual, 25 ml, shot 1; the loaded mode is always a byte |
| Storage.StoredStats | src/storage.cpp:23-26 | a namespace without statistics keys loads zero counters; the last-pour fields are never loaded |
| Storage.WithSettings | src/storage.cpp:43-45 | saving then loading settings gives back volume, shot and the mode narrowed to a byte (the same mode for both real modes); the statistics keys are untouched |
| Storage.SaveSettingsTwice | src/storage.cpp:43-45 | a second settings save overwrites the first completely |
| Storage.WithStats | src/storage.cpp:58-61 | saving then loading statistics gives back the four persisted counters over any in-memory record; the settings read back unchanged |
| Storage.LoadSettings | src/storage.cpp:10-35 | when the namespace opens, the globals become the stored settings and counters, with no range check, so the shot invariant holds exactly when the stored shot is 1..5; otherwise nothing changes |
| Storage.SaveSettings | src/storage.cpp:37-50 | writes the current mode, volume and shot, or nothing when the namespace fails to open |
| Storage.SaveStatistics | src/storage.cpp:52-66 | writes the four lifetime counters, or nothing when the namespace fails to open |
| Storage.ResetSettings | src/storage.cpp:68-83 | erases the whole namespace and restores the default settings in memory, leaving the in-memory statistics; nothing when the namespace fails to open |
| Storage.ResetStatistics | src/storage.cpp:85-96 | all six counters become 0 and the four persisted ones are written |
| Publisher.GlassList | src/network.cpp:468-471 | the glasses list has five entries, entry i being sensor i |
| Publisher.OnConnect | src/network.cpp:309-325 | the connect document is the snapshot of the globals, its label reads back as the current state, uptime is millis/1000 |
| Publisher.BroadcastState | src/network.cpp:461-483 | exactly one snapshot of the current globals is appended to what observers received |
| Control.VolumeAfterDelta | src/control.cpp:99-117 | the step is applied exactly when the new volume lies in 10..200, and otherwise the target is kept; an in-range target stays in range |
| Control.VolumeStaysInBounds | src/control.cpp:98-121 | under any series of encoder turns an in-range target stays in range and on its 5 ml grid |
| Control.PourCheck | src/control.cpp:170-185 | timeout exactly past the 30 s ceiling; completion exactly once the target's time has elapsed within the ceiling; an in-range target never keeps pouring past 20 s; a target needing more than the ceiling can only time out |
| Control.EncoderISR | src/control.cpp:31-48 | within 5 ms of the last accepted interrupt nothing changes; otherwise the position moves up when CLK and DT differ and down when equal, the change flag is set and the time recorded |
| Control.ConsumeEncoder | src/control.cpp:98-121 | pending steps update the target as VolumeAfterDelta says and are discarded either way; an accepted volume is saved and broadcast once |
| Control.HandleEncoder | src/control.cpp:98-140 | the two encoder blocks together: volume and shot as their blocks say, one save reflecting both, and a broadcast of the volume change with the old shot |
| Control.PollEncoderButton | src/control.cpp:124-140 | a LOW level with the latch clear and more than 50 ms since the last accepted press advances the shot from any current value and saves; a valid shot stays valid and any shot but 255 becomes valid; a HIGH level clears the latch |
| Control.PollStartButton | src/control.cpp:142-157 | needs a valid shot only when the button is pressed; a valid shot stays valid; a debounced press in Idle or Ready with the glass present gives the started outputs (Pouring, clock at now, servo over the shot, full pump); in Pouring the stopped outputs; otherwise all outputs unchanged; one broadcast exactly for a start or stop |
| Control.RefreshGlassSensors | src/control.cpp:159-164 | every glass flag is its pin's level |
| Control.HandleStartAndSensors | src/control.cpp:142-164 | the start-button block decided on the previous cycle's glass flags (outputs, latch and broadcast as PollStartButton states), then fresh glass flags |
| Control.UpdateControls | src/control.cpp:96-165 | needs a valid shot only when the start pin reads HIGH, so an invalid stored shot can be repaired by the encoder button; a valid shot stays valid; the four blocks composed: volume and step discard, shot and latch, one settings save covering both changes, start/stop outputs decided on the previous cycle's glass flags, fresh glass flags, and the broadcasts in order: the volume change with the old shot, then the start or stop |
| Control.StartPour | src/control.cpp:188-228 | refused exactly when already Pouring or the selected glass is absent, leaving every output unchanged; otherwise the started outputs (Pouring, clock at now, servo over the shot, full pump) and one broadcast; Error, Moving and Paused are not refused |
| Control.StopPour | src/control.cpp:230-246 | from any state the stopped outputs (pump off, pour inactive, Idle, servo parked, clock kept) and one broadcast |
| Control.CompletePour | src/control.cpp:248-281 | one more pour, the target added to the total volume, last-pour fields set, errors and total time unchanged; the stopped outputs; the shot advances only in the automatic mode; statistics saved and broadcast |
| Control.UpdatePourState | src/control.cpp:167-186 | nothing without an active pour, whatever the shot; past the ceiling the stopped outputs with state Error, exactly one more error and a broadcast that still says Idle; otherwise completion once the live target's time has elapsed |
| Control.SetTargetVolume | src/control.cpp:332-341 | an in-range volume is taken and saved in any state; any other leaves volume and namespace unchanged |
| Control.SetPourMode | src/control.cpp:343-350 | the mode is written and saved unconditionally |
| Control.SelectShot | src/control.cpp:352-361 | shots 1..5 are taken and saved in any state and from any current shot, which makes the shot valid; any other leaves shot, validity and namespace unchanged |
| Commands.Route | src/network.cpp:334-364 | a command acts only from one whole text frame that parsed; each of the five names maps to its own action, and any other name to no action |
| Commands.OnWsData | src/network.cpp:334-368 | needs a valid shot only for a start command, so a "shot" command can repair an invalid one; a valid shot stays valid; the whole new state per action: the setters' value and save, the start's or stop's outputs and broadcast, and every other modified field unchanged; an ignored message changes nothing |
| Commands.ApiStatus | src/network.cpp:408-425 | the status report's label reads back as the current state and it carries mode, volume, shot, uptime, pours, volume total and errors |
| Commands.ApiStart | src/network.cpp:427-431 | always answers "OK"; the started outputs and one broadcast exactly when startPour accepts, otherwise nothing changes |
| Commands.ApiStop | src/network.cpp:433-437 | always answers "OK" with the stopped outputs and one broadcast |
| Firmware.StatsFlushDue | src/main.cpp:124 | a flush is due exactly when more than 30 s passed since the last one, measured across a clock wrap as 2^32 minus the gap |
| Firmware.FlushStatsIfDue | src/main.cpp:123-127 | when due, the counters are written and the flush time becomes now; otherwise nothing changes |
| Firmware.ParseSerial | src/main.cpp:209-268 | a line is a pour request exactly when it starts with "pour ", carrying the converted number; each of "help", "stats", "heap", "tasks", "reset" and "restart" is exactly its own command; it is unknown exactly when it is none of the six words and not a pour request |
| Firmware.SerialEvent | src/main.cpp:209-270 | needs a valid shot only for an in-range "pour X"; a valid shot stays valid; the whole new state per line: "reset" zeroes and persists the statistics and nothing else; "pour X" in range sets the target without saving and gives startPour's outputs and broadcast; "restart" is reported to the caller; every other line changes nothing |
| Firmware.StopAllTasks | src/main.cpp:191-206 | ends with the stopped outputs and the broadcast of stopPour |
| Device.DeviceState.constructor | src/main.cpp:16-24 | power-on values: Idle, Manual, 25 ml, shot 1, no glasses, zero statistics, no flush yet, all latches and timers clear |
| Scenarios.PourCompletesAfterItsDuration | src/control.cpp:142-186 | a 25 ml pour started by the button is still pouring at 2499 ms and completes at 2500 ms with one pour of 25 ml counted, shot kept in manual mode |
| Scenarios.StartWithoutGlassIsRefused | src/control.cpp:194-198 | with no glass, a start-button press leaves Idle and broadcasts nothing |
| Scenarios.OversizedStoredVolumeTimesOut | src/storage.cpp:19 | a stored 400 ml target loads unchecked, its pour hits the 30 s ceiling and ends in Error with one error, no pour, and a last broadcast labelled Idle |
| Scenarios.EncoderStepsRaiseVolume | src/control.cpp:31-121 | two accepted encoder steps raise the default 25 ml to 35 ml |
| Scenarios.SettingsSurviveRestart | src/storage.cpp:10-50 | mode, volume and shot set over WebSocket are back after a restart loads the namespace |
| Scenarios.AutoModeAdvancesShot | src/control.cpp:269-272 | in the automatic mode a completed pour at shot 1 moves the selection to shot 2, even when the namespace cannot be opened |
| Scenarios.StoredShotOutOfRangeIsRepaired | src/storage.cpp:20 | a stored shot of 9 loads unchecked; a control cycle with the encoder button held wraps it to 1, and a WebSocket "shot" command then selects 4 |
| Scenarios.OutOfRangeSerialPourIsRefused | src/main.cpp:256-264 | with a stored shot of 9 loaded, "pour 500" leaves the target, the state and the broadcasts unchanged |

## Left out

- Floating-point pour duration: the firmware computes `target / 10.0 * 1000` in floating point. The model uses the exact integer `target * 100` ms, the real quotient. In double arithmetic, truncated to `unsigned long`, 389 of the 16-bit targets give one millisecond less; the smallest is 323 ml (32299 ms). All of them need more than the 30 s ceiling, so the pour decision of `Control.PourCheck` is the same for every target.
- `delay()` in `startPour` and `completePour`, and the transient Moving state that is visible only during that blocking delay. `startPour` sets Moving and then Pouring within one atomic step.
- FreeRTOS task creation, scheduling and deletion, and interleavings inside an entry point. Each entry point is atomic, and `stopAllTasks` is modelled by its state effect only.
- Repeated `millis()` readings within one entry point: each step reads the clock once, as `now`.
- Pin configuration and `initPeripherals`, `setup`, `updateNetwork`, `updateLED`, the display, the HTML page, WiFi and OTA setup. These are hardware, presentation or I/O plumbing. GPIO, PWM and servo output are recorded as the last commanded pump duty and servo angle.
- JSON serialisation and parsing by ArduinoJson, and delivery through `client->text`/`ws.textAll`. A snapshot is a record and delivery is an append to a log. The `heap` field (free memory) is not in the records.
- Commands.OnWsData: the value of a command arrives as an integer. ArduinoJson's conversion of a JSON value to `uint16_t`/`uint8_t` for the volume and shot setters is not modelled. `Control.SetTargetVolume` and `Control.SelectShot` take that integer, so an out-of-width value that would wrap into range is not captured.
- The write of a terminating zero at `data[len]` in the WebSocket handler: it touches only the library's receive buffer.
- Serial output, `String.trim` and `String.toInt`. A serial line arrives trimmed, and the number after "pour " arrives already converted. `esp_restart` is returned to the caller as a flag.
- `int` overflow of `encoderPos`, and of `delta * VOLUME_STEP`: positions are unbounded integers.
- Control.StartPour: requires a selected shot of 1..5 (`DeviceState.Valid`). `loadSettings` copies a stored shot with no range check (`Storage.LoadSettings` states exactly when the shot stays valid). With a stored shot of 0 or above 5, the firmware's glass lookup in `startPour` indexes outside the five-entry array. The model does not follow that undefined read. The encoder button polled by `updateControls` and the "shot" command of the WebSocket handler accept any current shot and are the ways back to a valid one.
- Control.CompletePour: requires `DeviceState.Valid`, because a pour can only have been started with a valid shot and nothing but `loadSettings` makes it invalid.
- Control.UpdateControls, Control.HandleStartAndSensors, Control.PollStartButton, Commands.OnWsData, Firmware.SerialEvent: these require `DeviceState.Valid` only on the path that can reach `startPour`, for the same reason as Control.StartPour: when the start pin reads HIGH, when the button is pressed, for a start command, and for an in-range "pour X" respectively. On every other path they require only `DeviceState.Consistent` and keep a valid shot valid.
- Commands.ApiStart: requires `DeviceState.Valid`, because its only action is `startPour`.
- The FACTORY_RESET build option of `setup`, which is off by default. It is part of start-up, which is not modelled, although the `resetSettings` it calls is.
- The statistics field `totalTime`: no operation of the firmware increases it. The model persists, loads and zeroes it as the firmware does.
