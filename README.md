# VinaUAV telemetry and motor-test core, modelled in Dafny

This project models the small pieces of logic inside the VinaUAV desktop
application (a Tauri shell with a React/three.js front end), and proves
properties of them:

- **Dual-rate telemetry pipeline** (overview screen). Every animation frame
  advances a phase accumulator by 0.01. It then replaces the high-rate IMU
  sample (`imuRef`), with yaw stepping as `(yaw + 0.5) % 360`. The sample is
  copied into the UI snapshot (`uiData`) only when more than 100 ms have
  passed since the last copy. The pure functions `Overview.Animate`, `Run`
  and `Published` are the specification. The class `Overview.OverviewScreen`
  holds the refs and state cells. A ghost frame history ties the class to
  `Run`, so every lemma about runs holds for the screen's state.
- **Older visualiser** (`Drone.tsx`). One framework-visible sample, the same
  simulation step, `resetDrone`, five sliders, start/pause and the mode
  buttons.
- **Render consumer** (`Drone/index.tsx`). The `useFrame` callback writes
  negated degree-to-radian rotations and four signed propeller speeds. A
  `testing` motor spins at ±5. FL/BR spin positive and FR/BL negative. The
  height is the `altitude` read when the component rendered, not the one in
  the current frame's sample.
- **Motor-test command** (`motor.rs`, `ultis.rs`). Motor names and indices,
  the `rate > 100` check, the serial payload `motorN::<1000 + 10·rate>` with
  its newline framing, the MAVLink `COMMAND_LONG` carrying
  `MAV_CMD_DO_MOTOR_TEST` (209), and the dispatch on the configured transport
  and the open link. The transport is an outbox, the sequence of everything
  handed to a link. Whether a serial write or a MAVLink send succeeds is an
  input.
- **Small state:** the calibration screen's sensor toggle, the connection-chip
  store, and the constant route and motor tables.

Modules follow the source files: `Telemetry` (the step shared by both
screens), `Overview`, `DroneVisualizer`, `DroneScene`, `DroneTypes`,
`Constants`, `Calibration`, `ChipStore`, `AppCore` (`core/mod.rs`,
`core/config.rs`), `Mavlink` (the message fields the command uses), `Ultis`,
`HardwareMotor`, `Decimal` (Rust's `{}` formatting of integers) and
`Optional`.

Modelling conventions:

- JavaScript `number`s and Rust `f32`s are `real`.
- `Math.sin` and `Math.cos` are the fields of an `Oscillators` value chosen
  at construction. π is a constructor parameter of the render model.
- JavaScript's `%` is `Telemetry.Mod360`. Its result carries the sign of the
  dividend, as in JavaScript, and its contract characterises it completely.
- The animation frame's timestamp is a method parameter. `requestAnimationFrame`
  scheduling becomes one method call per frame.

Behaviour of the code that the proofs bring out:

- With a non-ESP32 configuration and an ESP32 link, `Motor::test` always
  returns `Err("Not implemented")` and writes nothing. This is because
  `send_serial_raw` checks the configuration again (`HardwareMotor.TestOverMavlink`).
- With the ESP32 configuration and no link, or a Pixhawk link, the test
  returns Ok and sends nothing (`HardwareMotor.TestOverSerial`).
- The overview screen has no control that calls `setIsSimulating` or
  `setSimulationMode`, so as shipped its loop never starts. The model keeps
  the two setters (`OverviewScreen.SetIsSimulating`, `SetSimulationMode`) so
  the loop's behaviour once started can be stated.
- The calibrate button uses JavaScript truthiness (`!selectedSensorId`), so a
  selected item whose id is the empty string also disables it
  (`CalibrationScreen.CalibrateDisabled`).

- `resetDrone` exists only in the older visualiser, and it touches no motor
  state (`DroneVisualizer.Visualizer.ResetDrone`).
- The render callback rotates the group from the current sample but sets
  its height from the `altitude` read when the component rendered
  (`DroneScene.DroneModel.Frame`). The component is memoised and the
  overview screen passes it props that do not change, so after mount it is
  not expected to render again, and the height would stay at the mount
  value 2.
- The yaw slider reaches 360, which lies outside [0, 360). One simulation
  step takes it back to 0.5 (`Telemetry.NextYawFromSlider`). Neither screen
  can produce a negative yaw.

## Model

| member | source | states |
|---|---|---|
| Telemetry.Mod360 | src/screen/Overview/index.tsx:54 | JavaScript `x % 360`: result in [0,360) for x ≥ 0, in (−360,0] for x < 0, differs from x by whole turns, identity inside (−360,360) |
| Telemetry.Mod360WholeTurns | src/screen/Overview/index.tsx:54 | non-negative angles that differ by whole turns have the same remainder |
| Telemetry.NextYawInRange | src/screen/Overview/index.tsx:54 | a yaw in [0,360) stays in [0,360): +0.5 below 359.5, wraps to yaw − 359.5 above |
| Telemetry.NextYaw | src/screen/Overview/index.tsx:54 | defines the yaw of one step, `(yaw + 0.5) % 360` |
| Telemetry.NextYawNegative | src/components/common/Drone.tsx:304 | JavaScript's `%` keeps the dividend's sign: a yaw below −0.5 steps into (−360,0]; neither screen produces one |
| Telemetry.NextYawFromSlider | src/components/common/Drone.tsx:515-521 | any yaw slider value in [0,360] steps into [0,360), and the maximum 360 steps to 0.5 |
| Telemetry.NextYawOfWrapped | src/screen/Overview/index.tsx:54 | wrapping after each step equals wrapping once: `NextYaw(a % 360) == (a + 0.5) % 360` |
| Telemetry.SimSample | src/screen/Overview/index.tsx:51-57 | the new sample's yaw is the wrapped successor of the previous yaw, and lies in [0,360) whenever the previous yaw was ≥ −0.5 |
| Telemetry.SampleForgetsPrevious | src/screen/Overview/index.tsx:51-57 | the whole record is recomputed: apart from yaw the sample does not depend on the previous one |
| Telemetry.SpeedReadout | src/screen/Overview/index.tsx:166 | abs(pitch) + abs(roll) is never negative, bounds each term, and is 0 iff pitch and roll are 0 |
| Overview.PublishDue | src/screen/Overview/index.tsx:60 | defines the strict gate `now − lastUi > 100` |
| Overview.Animate | src/screen/Overview/index.tsx:47-63 | phase +0.01; sample recomputed; if `now − lastUi > 100` (strict) the snapshot becomes the new sample and `lastUi := now`, else both unchanged; afterwards the snapshot is at most 100 ms old |
| Overview.Run | src/screen/Overview/index.tsx:45-66 | defines the state after the frames run in order, each one `Animate` |
| Overview.Published | src/screen/Overview/index.tsx:60-63 | defines the timestamps, in order, of the frames whose gate was open |
| Overview.RunPhase | src/screen/Overview/index.tsx:48 | after n frames the phase has grown by exactly 0.01·n, whatever the timestamps |
| Overview.RunYawInRange | src/screen/Overview/index.tsx:54 | a yaw in [0,360) stays in [0,360) over any run |
| Overview.RunYawFromInitial | src/screen/Overview/index.tsx:23-30 | from mount the yaw after n frames is `(0.5·n) % 360` |
| Overview.PublishedAreFrames | src/screen/Overview/index.tsx:60-63 | every publish time is one of the frame timestamps |
| Overview.PublishedSpaced | src/screen/Overview/index.tsx:60-63 | the first publish is more than 100 ms after the starting `lastUi`, consecutive publishes are more than 100 ms apart, `lastUi` ends at the last publish |
| Overview.SpacedSpan | src/screen/Overview/index.tsx:60-63 | k publishes spaced > 100 ms span at least 100·(k−1) ms |
| Overview.PublishCountBound | src/screen/Overview/index.tsx:60-63 | frames within a window of b − a ms publish at most (b − a)/100 + 1 times, independent of the frame rate |
| Overview.OverviewScreen.constructor | src/screen/Overview/index.tsx:23-43 | sample {0,0,0,2,0}, snapshot equal to it, phase 0, `lastUi` 0, not simulating, manual mode |
| Overview.OverviewScreen.Running | src/screen/Overview/index.tsx:46 | defines when the loop is scheduled: simulating and in auto mode |
| Overview.OverviewScreen.AnimationFrame | src/screen/Overview/index.tsx:45-76 | while simulating in auto mode the state becomes `Animate` of the old state and the frame is recorded; otherwise nothing is written; keeps the run invariant |
| Overview.OverviewScreen.SetIsSimulating | src/screen/Overview/index.tsx:35 | pausing/resuming changes only the flag: the phase is not reset and the run invariant holds |
| Overview.OverviewScreen.SetSimulationMode | src/screen/Overview/index.tsx:36-38 | changes only the mode; the run invariant holds |
| DroneScene.BaseSpeed | src/components/common/Drone/index.tsx:40 | throttle in [0,100] gives a speed in [0.5,2.5] |
| DroneScene.BaseSpeedMonotone | src/components/common/Drone/index.tsx:40 | more throttle never means a slower propeller; the range ends are 0.5 and 2.5 |
| DroneScene.Direction | src/components/common/Drone/index.tsx:42-45 | the fixed sign pattern: +1 exactly for FL and BR, −1 for FR and BL |
| DroneScene.SpinRate | src/components/common/Drone/index.tsx:40-45 | defines a propeller's speed: its direction times 5 while testing, else times the base speed |
| DroneScene.SpinRateCases | src/components/common/Drone/index.tsx:42-45 | testing gives exactly ±5 regardless of throttle; otherwise ±baseSpeed, positive for FL/BR and negative for FR/BL when throttle ≥ 0 |
| DroneScene.SharedStatusMirrors | src/components/common/Drone/index.tsx:42-45 | for a shared status, speed(FR) = speed(BL) = −speed(FL) = −speed(BR) |
| DroneScene.Rotation | src/components/common/Drone/index.tsx:34-36 | defines the group rotation for an angle, `−deg·π/180` |
| DroneScene.RotationRoundTrip | src/components/common/Drone/index.tsx:34-36 | the rotation −deg·π/180 is invertible, zero iff the angle is zero, and has the opposite sign of the angle |
| DroneScene.IsSelected | src/components/common/Drone/index.tsx:63-90 | defines `isSelected`: `selectedMotor === id` |
| DroneScene.AtMostOneSelected | src/components/common/Drone/index.tsx:63-90 | `isSelected` holds for at most one propeller, and for none when nothing is selected |
| DroneScene.HasClickHandler | src/components/common/Drone/index.tsx:63-90 | FR, BL and BR get `onClick`; FL does not |
| DroneScene.DroneModel.constructor | src/components/common/Drone/index.tsx:21-49 | the first render: speed refs start at 0, no group is attached yet, and the altitude read is the sample's at that render |
| DroneScene.DroneModel.Render | src/components/common/Drone/index.tsx:49 | a later render reads `altitude` from the sample as it is at render time |
| DroneScene.DroneModel.Mount | src/components/common/Drone/index.tsx:52 | attaching the group sets `groupRef.current` |
| DroneScene.DroneModel.Frame | src/components/common/Drone/index.tsx:29-47 | without a group nothing changes; otherwise the rotations are the negated radians of pitch/roll/yaw, height is the render-time altitude, each speed ref is its motor's spin rate |
| DroneVisualizer.PropellerSpeeds | src/components/common/Drone.tsx:160-163 | with `propSpeed = 0.5 + (throttle/100)·2` (line 89), FL and BR get +propSpeed and FR and BL get −propSpeed; these equal the idle spin rates of the render consumer, and lie in [0.5,2.5] for a throttle in [0,100] |
| DroneVisualizer.Visualizer.Running | src/components/common/Drone.tsx:297 | defines when the loop is scheduled: simulating and in auto mode |
| DroneVisualizer.Visualizer.constructor | src/components/common/Drone.tsx:277-293 | sample {0,0,0,2,0}, not simulating, manual mode, phase 0 |
| DroneVisualizer.Visualizer.AnimationFrame | src/components/common/Drone.tsx:296-319 | runs only while simulating in auto mode: phase +0.01 (one more counted tick) and the sample recomputed with yaw `(prev.yaw + 0.5) % 360`; otherwise unchanged |
| DroneVisualizer.Visualizer.ResetDrone | src/components/common/Drone.tsx:321-325 | not simulating, neutral sample, phase and tick count 0, whatever the prior state (so idempotent) |
| DroneVisualizer.Visualizer.SetPitch | src/components/common/Drone.tsx:505-509 | a slider value in [−45,45] (the default `min`/`max` of lines 245-246) replaces pitch only |
| DroneVisualizer.Visualizer.SetRoll | src/components/common/Drone.tsx:510-514 | a slider value in [−45,45] replaces roll only |
| DroneVisualizer.Visualizer.SetYaw | src/components/common/Drone.tsx:515-521 | a slider value in [0,360] replaces yaw only; the yaw stays within [0,360] |
| DroneVisualizer.Visualizer.SetAltitude | src/components/common/Drone.tsx:522-529 | a slider value in [0,10] replaces altitude only |
| DroneVisualizer.Visualizer.SetThrottle | src/components/common/Drone.tsx:530-536 | a slider value in [0,100] replaces throttle only |
| DroneVisualizer.Visualizer.ToggleSimulation | src/components/common/Drone.tsx:542 | START/PAUSE negates the simulating flag |
| DroneVisualizer.Visualizer.SetSimulationMode | src/components/common/Drone.tsx:473-484 | the mode buttons set manual or auto |
| Constants.RoutePath | src/constants/common.constant.ts:5-11 | defines the path of each route |
| Constants.RouteOf | src/constants/common.constant.ts:5-11 | a path maps back only to a route having that path |
| Constants.RoutesDistinct | src/constants/common.constant.ts:5-11 | every route's path leads back to it (paths pairwise distinct); OVERVIEW is "/" |
| Constants.DroneMotorsWellFormed | src/constants/common.constant.ts:13-18 | keys exactly FL, FR, BL, BR; each id equals its key; all idle, 0 rpm, 24 °C; labels pairwise distinct |
| Calibration.Toggle | src/screen/Calibration/index.tsx:66-72 | clicking the selected item clears the selection; clicking any other selects it |
| Calibration.ToggleTwice | src/screen/Calibration/index.tsx:66-72 | two clicks on one item restore the selection iff it was empty or that item; otherwise it ends empty |
| Calibration.CalibrationScreen.constructor | src/screen/Calibration/index.tsx:11 | the selection starts empty and the button disabled |
| Calibration.CalibrationScreen.ClickItem | src/screen/Calibration/index.tsx:66-72 | the selection becomes the toggle of the old one |
| Calibration.CalibrationScreen.IsMarked | src/screen/Calibration/index.tsx:64 | defines an item's highlight and check mark: its id is the selection |
| Calibration.CalibrationScreen.AtMostOneMarked | src/screen/Calibration/index.tsx:64 | highlight and check mark appear only on the selected item, so on at most one |
| Calibration.CalibrationScreen.CalibrateDisabled | src/screen/Calibration/index.tsx:92 | disabled with nothing selected and with the empty id selected; enabled with any other id selected |
| ChipStore.Chip.constructor | src/stores/chipStore.ts:17-18 | not connected, no port, no baud rate |
| ChipStore.Chip.SetCom | src/stores/chipStore.ts:19 | changes only `com` |
| ChipStore.Chip.SetBaudRate | src/stores/chipStore.ts:20 | changes only `baudRate` |
| ChipStore.Chip.SetIsConnected | src/stores/chipStore.ts:21 | changes only `isConnected` |
| ChipStore.Chip.Clear | src/stores/chipStore.ts:23 | restores the initial state whatever the prior state (so idempotent) |
| AppCore.AppState.constructor | src-tauri/src/core/mod.rs:24-30 | no link, not connected, nothing sent |
| Decimal.NatToString | src-tauri/src/hardware/motor.rs:76 | `{}` of an integer: non-empty decimal digits without a leading zero |
| Decimal.ParseNatToString | src-tauri/src/hardware/motor.rs:76 | reading the digits back gives the number |
| Decimal.NatToStringInjective | src-tauri/src/hardware/motor.rs:76 | different numbers render differently |
| Ultis.IsSerialConnect | src-tauri/src/ultis.rs:40-42 | true exactly for the ESP32 connect type, false for STM32 and Pixhawk |
| Ultis.Framed | src-tauri/src/ultis.rs:23 | the written line is the text followed by one newline |
| Ultis.SerialRawEffect | src-tauri/src/ultis.rs:13-38 | defines the result and what a `send_serial_raw` call writes |
| Ultis.SerialRawCases | src-tauri/src/ultis.rs:13-38 | not serial: `Err("Not implemented")`, nothing written; serial + ESP32: exactly `text + "\n"` or `Err("Failed to write to port")`; serial + Pixhawk or no link: Ok, nothing written; it sends iff serial, ESP32 and the write succeeds |
| Ultis.SendSerialRaw | src-tauri/src/ultis.rs:13-38 | result and appended outbox are those of `SerialRawEffect` |
| Ultis.ClearConnectDevice | src-tauri/src/ultis.rs:7-11 | the link becomes None and the result is Ok |
| HardwareMotor.AsStr | src-tauri/src/hardware/motor.rs:15-22 | defines `as_str`: "motor1" to "motor4" |
| HardwareMotor.AsIdx | src-tauri/src/hardware/motor.rs:23-30 | the index lies in [1,4] and `as_str` is "motor" followed by its digit |
| HardwareMotor.PositionMappingsInjective | src-tauri/src/hardware/motor.rs:15-30 | `as_str` and `as_idx` are injective |
| HardwareMotor.ResolveId | src-tauri/src/hardware/motor.rs:32-43 | serial: `as_str + "test"`; otherwise `as_str` |
| HardwareMotor.NewMotor | src-tauri/src/hardware/motor.rs:52-60 | `name()` returns the constructor's name and `id()` the position's `as_str` |
| HardwareMotor.MotorName | src-tauri/src/hardware/motor.rs:55-57 | defines `name()` |
| HardwareMotor.MotorId | src-tauri/src/hardware/motor.rs:58-60 | defines `id()` |
| HardwareMotor.PulseWidth | src-tauri/src/hardware/motor.rs:76 | for an accepted rate, `1000 + 10·rate` lies in [1000,2000] and determines the rate |
| HardwareMotor.Payload | src-tauri/src/hardware/motor.rs:74-77 | defines the serial command `"<as_str>::<1000+10·rate>"` |
| HardwareMotor.PayloadRoundTrip | src-tauri/src/hardware/motor.rs:74-77 | decoding `"<as_str>::<1000+10·rate>"` gives back the motor and the rate |
| HardwareMotor.PayloadInjective | src-tauri/src/hardware/motor.rs:74-77 | different motors or rates give different payloads |
| HardwareMotor.PayloadHasNoTestSuffix | src-tauri/src/hardware/motor.rs:108-112 | the payload contains no 'e', so never "test" |
| HardwareMotor.MotorTestCommand | src-tauri/src/hardware/motor.rs:85-100 | defines the COMMAND_LONG of a motor test |
| HardwareMotor.MotorTestCommandFields | src-tauri/src/hardware/motor.rs:85-100 | command 209, param1 = `as_idx` ∈ [1,4], param2 0, param3 rate, param4 2, param5–7 and confirmation 0, target 1/1, header system 255 |
| HardwareMotor.TestEffect | src-tauri/src/hardware/motor.rs:62-119 | defines the result and what a test sends, for each configuration and link |
| HardwareMotor.TestRejectsLargeRate | src-tauri/src/hardware/motor.rs:63-65 | rate > 100 iff the outcome is `Err("Capacity is too large!")` with nothing sent |
| HardwareMotor.TestOverSerial | src-tauri/src/hardware/motor.rs:73-79 | ESP32 config: framed payload written on an ESP32 link (or the write error); Ok and nothing sent otherwise |
| HardwareMotor.TestOverMavlink | src-tauri/src/hardware/motor.rs:80-117 | other config: Pixhawk link gets the command and Ok even if the send fails; no link gives `Err("No active connection found!")`; an ESP32 link gives `Err("Not implemented")` |
| HardwareMotor.TestSerialLines | src-tauri/src/hardware/motor.rs:62-119 | every serial line a test sends is newline-terminated and decodes to this motor and rate, which was ≤ 100 |
| HardwareMotor.Test | src-tauri/src/hardware/motor.rs:62-119 | result and appended outbox are those of `TestEffect` for the state's config and link |

## Left out

- IEEE-754 arithmetic: all arithmetic is on exact reals. Repeated `+= 0.01` in floating point drifts; the model's phase is exactly 0.01·n.
- `Math.sin`/`Math.cos` are uninterpreted. No bounds on pitch, roll, altitude or throttle are proved from them.
- `requestAnimationFrame`/`cancelAnimationFrame` scheduling, React re-rendering and batching: each frame is one explicit method call. The first step that `Drone.tsx` runs directly when its effect starts is one more such call.
- The sliders are inert in auto mode only through a CSS class that turns off mouse events. The model's slider methods are not guarded.
- The sliders' `step` (1, or 0.1 for altitude) is not modelled: a slider method accepts any real between the input's `min` and `max`.
- `toFixed` display formatting, the frame-delta propeller integration in `Propeller.tsx`, and all meshes, lights, cameras and layout.
- Mutexes. `motor.rs:69-70` holds the `config` lock while `is_serial_connect` locks it again. With Rust's standard mutex this deadlocks or panics. The model reads the configuration once, as if the locks were re-entrant.
- The "Failed to lock connection" error of a poisoned mutex, and `println!` output.
- A failed `write_all` may have written part of the line. The model records nothing for a failed write.
- A failed MAVLink send records nothing in the outbox; the result is Ok either way, as in the code.
- The unused `id: String` argument of `Motor::test`.
- `init_app`, `commands.rs`, `lib.rs`, the theme store, window chrome, routing and the connection chip's static lists: I/O and UI glue.
- `SENSOR_CALIBRATION_LIST` is not part of this model; sensor ids are arbitrary strings.
- The MAVLink crate's wire encoding. Only the fields of the message handed to `send` are modelled.
- Overview.PublishCountBound: proves only the upper bound on publishes per window. A lower bound needs an assumption about how densely frames arrive, which the code does not guarantee.
