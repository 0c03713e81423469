# Balance Bot core, modelled in Dafny

Balance Bot is a two-wheeled, self-balancing Raspberry Pi robot. This project models its core in Dafny and proves properties of the model. The core covers:

- **Wheel encoders.** There are four of them:
  - the list-based `RotationEncoder`;
  - the fixed-capacity N x 6 kinematic history shared by the digital encoders (`EncoderGeneral`);
  - the two digital encoders built on it;
  - the simulated encoder that integrates a motor's rate of change.
- **Motor wrappers.** The Raspberry Pi wrappers, which check pins and clamp the value to [-1, 1], and the simulated motor.
- **BNO055 orientation sensor wrapper.** Its calibration check and waits, temperature units and axis remapping.
- **Event handler.** The publish/subscribe handler that every part reports through.
- **Robot voice.** The text-to-speech settings.
- **Balance loop.** The PID-style loop of the balance test.
- **Manual driving.** BlueDot driving and the step program of the simple robot.
- **Motor-encoder test drivers.** The two drivers and the CSV test files they read.
- **Running mean.** The cumulative average.
- **Wii Nunchuk readers.** The micro:bit reader in MicroPython and its MakeCode (JavaScript) port, including the LED display loop.

The model's form follows the source:
- Code that updates objects in place becomes Dafny classes with `modifies` frames. The encoder history keeps its two-dimensional array.
- Pure code becomes functions and lemmas.
- Loops become methods proved against specification functions.
- Clocks, sensor and bus readings, controller answers and file contents are inputs.
- Devices and event posts are observed through recorded actions and calls.

Each module's first comment names the source file it models. Where the source misbehaves, the Findings section pairs a member that models the code as written with one that models the evidently intended behaviour. A few members model only the intended behaviour, because the code as written stops before they do anything. Each of them is named under "## Left out" with what it does not capture.

## Model

| member | source | states |
|---|---|---|
| CumulativeAverage.CumulativeAverage | src/cumulative_average.py:8-13 | with k = 1 the result is the new value; it lies between the previous mean and the new value; k times it equals the new value plus k - 1 times the previous mean |
| CumulativeAverage.CumulativeAverageIsMean | src/cumulative_average.py:8-13 | given the mean of the first k - 1 values, the update yields the mean of all k values |
| CumulativeAverage.FoldIsMean | src/cumulative_average.py:8-13 | feeding a whole series in order, counting from 1, ends at the mean of the series |
| Numeric.Clamp | balance_bot/motor_simulator.py:26 | `min(max(x, lo), hi)` lies in [lo, hi] and leaves a value already in range unchanged |
| Numeric.ClampInt | balance_bot/robot_talk.py:39-42 | the same clamp on integers: within [lo, hi], identity in range |
| Numeric.ClampIdempotent | balance_bot/motor_simulator.py:26 | clamping twice to the same range equals clamping once |
| EventHandler.Subscribed | balance_bot/event.py:24-32 | after subscribing, the event type's list is its old list (or an empty one) with `fn` appended; every other type keeps its list, and no type appears or disappears |
| EventHandler.CallsFor | balance_bot/event.py:44-45 | a post makes one call per subscribed callback, in subscription order, each with the posted type, message and level |
| EventHandler.SubscribeThenPost | balance_bot/event.py:24-45 | posting after a subscription calls the callbacks subscribed before, then the new one, once per subscription |
| EventHandler.EventHandler.constructor | balance_bot/event.py:9-22 | a new handler has no subscriptions |
| EventHandler.EventHandler.Subscribe | balance_bot/event.py:24-32 | the new subscriber map is `Subscribed` of the old one |
| EventHandler.EventHandler.Post | balance_bot/event.py:34-45 | an unknown type is reported as not found and calls nothing; a known type calls exactly its callbacks in order, each with the posted type, message and level |
| MotorSim.MotionMessage | balance_bot/motor_simulator.py:27-38 | a positive value reports forward motion, a negative one rearward motion, both with the speed; "Stopped" is reported exactly when the value is 0 |
| MotorSim.InitFailsIffPostBeforeHandler | balance_bot/motor_simulator.py:15-18 | running constructor statements fails with an AttributeError exactly when a post comes before the first assignment of the handler |
| MotorSim.HandlerFirstNeverFails | balance_bot/motor_simulator.py:15-18 | once the handler is assigned, no later statement fails |
| MotorSim.ShiftedWitness | balance_bot/motor_simulator.py:15-18 | a leading assignment of the value neither adds nor removes a failing post |
| MotorSim.ConstructorAsWrittenFails | balance_bot/motor_simulator.py:15-18 | the constructor's own order (post, value, handler) always fails |
| MotorSim.ConstructorHandlerFirstBuilds | balance_bot/motor_simulator.py:15-18 | assigning the handler first builds the motor with a value and the creation report posted |
| MotorSim.MotorSim.constructor | balance_bot/motor_simulator.py:15-18 | in the working order, the motor keeps the given handler and starts at value 0 |
| MotorSim.MotorSim.SetValue | balance_bot/motor_simulator.py:24-38 | the stored value is the argument clamped to [-1, 1]; exactly one "robot moved" post is made, whose calls are the subscribers' calls with `MotionMessage` of the stored value |
| MotorSim.MotorSim.Value | balance_bot/motor_simulator.py:20-22 | the `value` getter returns a value in [-1, 1], the range the constructor sets up and the setter keeps |
| ArchiveRpiMotor.RpiMotor.constructor | Raspberry_Pi/archive/rpi_motor.py:11-13 | whatever pins are passed, the motor is on pins 5 and 6 and starts at value 0 |
| ArchiveRpiMotor.RpiMotor.Move | Raspberry_Pi/archive/rpi_motor.py:15-23 | the value becomes the velocity clamped to [-1, 1], so an in-range velocity is stored unchanged |
| ArchiveRpiMotor.RpiMotor.Stop | Raspberry_Pi/archive/rpi_motor.py:25-26 | the value becomes 0 |
| ArchiveRpiMotor.RpiMotor.MaxSpeed | Raspberry_Pi/archive/rpi_motor.py:28-29 | the value becomes 1 |
| ArchiveRpiMotor.RpiMotor.CurrentSpeed | Raspberry_Pi/archive/rpi_motor.py:31-32 | returns the stored value and changes nothing |
| ArchiveRpiMotor.DefaultMoveIsSlow | Raspberry_Pi/archive/rpi_motor.py:15-32 | a move with the default velocity, then reading the speed, gives 0.1 |
| RpiMotor.Decimal | src/motor/rpi_motor.py:8 | `str(n)`: at least one digit, no leading zero, one digit below 10 and two below 100 |
| RpiMotor.NumberedPins | src/motor/rpi_motor.py:7-9 | a numeric pin is usable exactly when it is 2 .. 27 |
| RpiMotor.NamedPins | src/motor/rpi_motor.py:7-9 | "GPIO5" and "GPIO27" are usable; "GPIO05", "GPIO1", "GPIO28" and the bare text "5" are not |
| RpiMotor.NamesDiffer | src/motor/rpi_motor.py:8 | no name "GPIO" + str(n) with n in 2 .. 27 is "GPIO05", "GPIO1", "GPIO28" or "5" |
| RpiMotor.RpiMotor.constructor | src/motor/rpi_motor.py:27-30 | with both pins usable, the motor keeps the pins and the pwm flag and starts at value 0 |
| RpiMotor.RpiMotor.SetValue | src/motor/rpi_motor.py:43-52 | the value becomes the argument clamped to [-1, 1] and the getter reads it back |
| RpiMotor.RpiMotor.Stop | src/motor/rpi_motor.py:57-58 | the value becomes 0 |
| RpiMotor.RpiMotor.Value | src/motor/rpi_motor.py:36-41 | the `value` getter returns a value in [-1, 1], the range the constructor sets up and the setter and `stop` keep |
| RpiMotor.NewRpiMotor | src/motor/rpi_motor.py:15-30 | construction fails (the ValueError) exactly when a pin is not usable; otherwise it gives a new motor on those pins at value 0 |
| RobotVoice.InitialSex | balance_bot/robot_talk.py:14 | the constructor's sex is "male" or "female", and is the argument when that is one of them |
| RobotVoice.InitialRate | balance_bot/robot_talk.py:15 | the constructor's rate lies in [25, 300]: the argument when in range, otherwise 200 |
| RobotVoice.InitialVolume | balance_bot/robot_talk.py:16-18 | the constructor's volume lies in [0, 1]: the argument when in range, otherwise 1 |
| RobotVoice.ConstructorAndSetterDiffer | balance_bot/robot_talk.py:15-18 | in range the constructor and the setters agree; out of range the constructor falls back to the default while the setter saturates (rate 400 starts at 200 but sets to 300; volume -1 starts at 1 but sets to 0) |
| RobotVoice.StopIndex | balance_bot/robot_talk.py:22-24 | the getter's loop stops at the first voice whose id is selected, or at the last voice when none is |
| RobotVoice.SexReadsBack | balance_bot/robot_talk.py:21-32 | selecting the first installed voice reads back its gender; selecting the second reads back its gender when the ids differ, and the first voice's otherwise |
| RobotVoice.RobotVoice.constructor | balance_bot/robot_talk.py:12-18 | with the voice it selects installed, the engine's voice is the first installed voice's id for "male" (the fallback for any other text) and the second's for "female"; rate and volume are the sanitised arguments |
| RobotVoice.NewRobotVoice | balance_bot/robot_talk.py:12-32 | construction raises IndexError exactly when no voice is installed, or only one and the sex is "female"; otherwise it gives a new voice set up as the constructor states |
| RobotVoice.RobotVoice.SetSex | balance_bot/robot_talk.py:27-32 | "male" selects the first voice and "female" the second; an IndexError exactly when that voice is not installed, and then, as for any other text, the voice is unchanged |
| RobotVoice.RobotVoice.Sex | balance_bot/robot_talk.py:20-25 | the answer is `SexOf` the installed voices and the selected id: the gender of the voice the loop stops at, "None" for none, or the unbound-name failure when no voice is installed |
| RobotVoice.RobotVoice.SetRate | balance_bot/robot_talk.py:38-42 | the rate becomes the argument clamped to [25, 300] |
| RobotVoice.RobotVoice.SetVolume | balance_bot/robot_talk.py:48-52 | the volume becomes the argument clamped to [0, 1] |
| RobotVoice.RobotVoice.Rate | balance_bot/robot_talk.py:34-36 | the `rate` getter returns a rate in [25, 300], the range the constructor sets up and the setter keeps |
| RobotVoice.RobotVoice.Volume | balance_bot/robot_talk.py:44-46 | the `volume` getter returns a volume in [0, 1], the range the constructor sets up and the setter keeps |
| RobotVoice.RateSetterInRange | balance_bot/robot_talk.py:38-42 | a set rate lies in [25, 300], an in-range value is kept, and setting the rate read back changes nothing |
| Nunchuk.Decode | MicroBit/MicroBit_Nunchuk_Test.py:14 | a decoded byte `0x17 + (0x17 ^ b)` lies in [23, 278] |
| Nunchuk.DecodeInjective | MicroBit/MicroBit_Nunchuk_Test.py:14 | different raw bytes decode to different values |
| Nunchuk.DecodeEncode | MicroBit/MicroBit_Nunchuk_Test.py:14 | every value in [23, 278] is the decoding of its encoding |
| Nunchuk.EncodeDecode | MicroBit/MicroBit_Nunchuk_Test.py:14 | encoding a decoded byte gives the byte back |
| Nunchuk.Read | MicroBit/MicroBit_Nunchuk_Test.py:10-15 | `read` gives six values, each in [23, 278] |
| Nunchuk.ReadInjective | MicroBit/MicroBit_Nunchuk_Test.py:10-15 | two reads that decode alike came from the same six bytes |
| Nunchuk.ButtonBits | MicroBit/MicroBit_Nunchuk_Test.py:19-20 | Z (bit 0 clear) is pressed exactly on an even value; C (bit 1 clear) exactly when the value halved is even |
| Nunchuk.ReadAll | MicroBit/MicroBit_Nunchuk_Test.py:17-23 | the joystick values lie in [23, 278]; c and z are true exactly when bits 1 and 0 of the decoded sixth byte are clear |
| Nunchuk.Joystick | MicroBit/MicroBit_Nunchuk_Test.py:25-27 | `joystick` gives x and y in [23, 278], each encoding back to raw bytes 0 and 1 |
| Nunchuk.WiiAccelerometer | MicroBit/MicroBit_Nunchuk_Test.py:29-31 | `wii_accelerometer` gives three values in [23, 278], encoding back to raw bytes 2, 3 and 4 |
| Nunchuk.Buttons | MicroBit/MicroBit_Nunchuk_Test.py:33-37 | `buttons` reports C pressed exactly when the decoded sixth byte halved is even, and Z exactly when that byte is even |
| Nunchuk.ButtonC | MicroBit/MicroBit_Nunchuk_Test.py:39-42 | `button_c` is pressed exactly when the decoded sixth byte halved is even |
| Nunchuk.ButtonZ | MicroBit/MicroBit_Nunchuk_Test.py:44-47 | `button_z` is pressed exactly when the decoded sixth byte is even |
| Nunchuk.JoystickY | MicroBit/MicroBit_Nunchuk_Test.py:49-51 | `joystick_y` lies in [23, 278] and encodes back to raw byte 1 |
| Nunchuk.AccelerometerX | MicroBit/MicroBit_Nunchuk_Test.py:53-55 | `accelerometer_x` lies in [23, 278] and encodes back to raw byte 2 |
| Nunchuk.AccelerometerY | MicroBit/MicroBit_Nunchuk_Test.py:57-59 | `accelerometer_y` lies in [23, 278] and encodes back to raw byte 3 |
| Nunchuk.AccelerometerZ | MicroBit/MicroBit_Nunchuk_Test.py:61-63 | `accelerometer_z` lies in [23, 278] and encodes back to raw byte 4 |
| Nunchuk.GettersAgreeWithReadAll | MicroBit/MicroBit_Nunchuk_Test.py:25-47 | on the same raw bytes `joystick`, `wii_accelerometer`, `buttons`, `button_c` and `button_z` report the matching parts of `readall` |
| Nunchuk.SingleGettersAgreeWithReadAll | MicroBit/MicroBit_Nunchuk_Test.py:49-63 | `joystick_y` and the three `accelerometer_*` getters report the matching parts of `readall` |
| Nunchuk.ButtonExamples | MicroBit/MicroBit_Nunchuk_Test.py:14-23 | raw 0x17 decodes to 23, with neither button pressed; raw 0x16 decodes to 24, with both pressed |
| NunchukBluetooth.ReadWiiChuk | MicroBit/Nunchuck_MB_Bluetooth.js:9-23 | `read_wii_chuk` gives six values |
| NunchukBluetooth.DecodeByte | MicroBit/Nunchuck_MB_Bluetooth.js:15-20 | each byte decodes to the value the MicroPython reader decodes it to |
| NunchukBluetooth.SameAsMicroPython | MicroBit/Nunchuck_MB_Bluetooth.js:9-23 | the port's read equals the MicroPython `read` on every six bytes |
| NunchukBluetooth.SameReadAll | MicroBit/Nunchuck_MB_Bluetooth.js:25-32 | `readall_wii_chuk` equals the MicroPython `readall` on every six bytes |
| NunchukBluetooth.ReadallWiiChuk | MicroBit/Nunchuck_MB_Bluetooth.js:25-32 | `readall_wii_chuk` gives joystick and accelerometer values in [23, 278], C pressed exactly when the decoded sixth byte halved is even and Z exactly when that byte is even |
| NunchukBluetooth.ButtonC | MicroBit/Nunchuck_MB_Bluetooth.js:52-57 | `button_c` is pressed exactly when the decoded sixth byte halved is even |
| NunchukBluetooth.ButtonZ | MicroBit/Nunchuck_MB_Bluetooth.js:59-63 | `button_z` is pressed exactly when the decoded sixth byte is even |
| NunchukBluetooth.JoystickX | MicroBit/Nunchuck_MB_Bluetooth.js:65-68 | `joystick_x` lies in [23, 278] and encodes back to raw byte 0 |
| NunchukBluetooth.JoystickY | MicroBit/Nunchuck_MB_Bluetooth.js:70-73 | `joystick_y` lies in [23, 278] and encodes back to raw byte 1 |
| NunchukBluetooth.AccelerometerX | MicroBit/Nunchuck_MB_Bluetooth.js:75-79 | `accelerometer_x` lies in [23, 278] and encodes back to raw byte 2 |
| NunchukBluetooth.AccelerometerY | MicroBit/Nunchuck_MB_Bluetooth.js:81-84 | `accelerometer_y` lies in [23, 278] and encodes back to raw byte 3 |
| NunchukBluetooth.AccelerometerZ | MicroBit/Nunchuck_MB_Bluetooth.js:86-89 | `accelerometer_z` lies in [23, 278] and encodes back to raw byte 4 |
| NunchukBluetooth.GettersAgreeWithReadAll | MicroBit/Nunchuck_MB_Bluetooth.js:52-89 | `button_c`, `button_z`, `joystick_x`, `joystick_y` and the `accelerometer_*` getters report the matching parts of `readall` |
| NunchukBluetooth.Shown | MicroBit/Nunchuck_MB_Bluetooth.js:91-130 | after a pass the left LED is lit exactly when joyX < 50, the right exactly when joyX > 200, bottom and top likewise for joyY, the C and Z LEDs exactly when pressed; every other LED is as before |
| NunchukBluetooth.AtMostOneLedPerAxis | MicroBit/Nunchuck_MB_Bluetooth.js:94-116 | after a pass at most one LED per joystick axis is lit, and a joyX in [50, 200] lights neither |
| NunchukBluetooth.ShownIdempotent | MicroBit/Nunchuck_MB_Bluetooth.js:91-130 | two passes over the same reading light what one pass does |
| NunchukBluetooth.Display.constructor | MicroBit/Nunchuck_MB_Bluetooth.js:91 | the display starts dark |
| NunchukBluetooth.Display.Plot | MicroBit/Nunchuck_MB_Bluetooth.js:96 | `led.plot` lights the cell and leaves the others as they were |
| NunchukBluetooth.Display.Unplot | MicroBit/Nunchuck_MB_Bluetooth.js:97 | `led.unplot` darkens the cell and leaves the others as they were |
| NunchukBluetooth.ForeverPass | MicroBit/Nunchuck_MB_Bluetooth.js:91-133 | one pass of the forever loop leaves the display as `Shown` of the old display and the reading |
| NunchukBluetooth.PlotJoystickX | MicroBit/Nunchuck_MB_Bluetooth.js:94-104 | the joystick-x part lights left or right as `ShowX` says and touches no other LED |
| NunchukBluetooth.PlotJoystickY | MicroBit/Nunchuck_MB_Bluetooth.js:106-116 | the joystick-y part lights bottom or top as `ShowY` says and touches no other LED |
| NunchukBluetooth.PlotButton | MicroBit/Nunchuck_MB_Bluetooth.js:118-130 | a button's LED ends lit exactly when it is pressed, and no other LED changes |
| Bno055.ValidateCalibrationData | balance_bot/bb_bno055_sensor.py:144-147 | `False` exactly when one of the five calibration keys is missing; otherwise the function falls off its end and returns `None` |
| Bno055.RestoreCheckAlwaysRaises | balance_bot/bb_bno055_sensor.py:70-73 | whatever keys the file holds, the check's result is false in the constructor's `if not`, so the ValueError is always raised, even for a complete calibration |
| Bno055.IntendedValidateCalibrationData | balance_bot/bb_bno055_sensor.py:144-147 | the intended check is true exactly when all five keys are present |
| Bno055.IntendedCheckAcceptsCompleteData | balance_bot/bb_bno055_sensor.py:47-48 | the intended check accepts any key set holding the five keys and rejects one without "magnet_radius" |
| Bno055.StatusAt | balance_bot/bb_bno055_sensor.py:97-113 | `calibration_status[i]` is the system, gyro, accel or magnetometer level for i = 0, 1, 2, 3 |
| Bno055.AwaitFindsFirst | balance_bot/bb_bno055_sensor.py:97-99 | a wait loop ends at the first reading from its start whose level at the index is 3, and runs out only when no later reading has it |
| Bno055.AwaitSeesOneIndex | balance_bot/bb_bno055_sensor.py:97-99 | a wait depends only on the level at its own index: two streams that agree there wait alike |
| Bno055.CalibrationIgnoresMagnetometer | balance_bot/bb_bno055_sensor.py:97-116 | waits that never read index 3 finish alike on streams that differ only in the magnetometer level |
| Bno055.MagnetometerNeverAwaited | balance_bot/bb_bno055_sensor.py:108-111 | as written, four readings with magnetometer level 0 finish calibration; with index 3 the same readings never finish |
| Bno055.CalibratedSawEveryIndex | balance_bot/bb_bno055_sensor.py:97-116 | when a chain of waits finishes, every index it waited on was seen at level 3 |
| Bno055.IntendedWaitsSeeMagnetometer | balance_bot/bb_bno055_sensor.py:108-111 | with the magnetometer's own index, finishing calibration means some reading had magnetometer level 3 |
| Bno055.AwaitStatus | balance_bot/bb_bno055_sensor.py:97-99 | the polling loop returns `Await`: the first full reading from its start, or None when the readings run out |
| Bno055.CalibratedStep | balance_bot/bb_bno055_sensor.py:97-116 | a chain of waits fails when its first wait runs out, and otherwise continues from the reading after the one that ended the first wait |
| Bno055.CalibrateSensor | balance_bot/bb_bno055_sensor.py:85-116 | the four waits (indices 1, 2, 2, 0) run in order, each from the reading after the previous one ended; the result is `Calibrated` of the as-written waits |
| Bno055.AwaitNext | balance_bot/bb_bno055_sensor.py:97-116 | one wait fails exactly when the readings run out before its status is fully calibrated, and otherwise hands the remaining waits the reading after the one that ended it |
| Bno055.Temperature | balance_bot/bb_bno055_sensor.py:157-160 | the four Fahrenheit spellings convert Celsius by 9/5 and +32, so the conversion inverts to the reading; any other units return the reading unchanged |
| Bno055.FahrenheitScale | balance_bot/bb_bno055_sensor.py:157-158 | the Fahrenheit conversion keeps order and maps 0 to 32, 100 to 212 and -40 to -40 |
| Bno055.TemperatureProperty | balance_bot/bb_bno055_sensor.py:149-160 | read as a property, `temperature` always uses the default units and returns the Celsius reading |
| Bno055.Accel | balance_bot/bb_bno055_sensor.py:172-173 | the chip's first two components are the robot's y and x: the result swaps them |
| Bno055.Gyro | balance_bot/bb_bno055_sensor.py:194-195 | the same x/y swap as `accel` |
| Bno055.Magnetic | balance_bot/bb_bno055_sensor.py:183-184 | the magnetometer reading is passed through in the chip's order |
| Bno055.EulerAngles | balance_bot/bb_bno055_sensor.py:197-206 | `euler_angles` returns the chip's (yaw, roll, pitch) as z, x and y: no component is lost or altered |
| Bno055.RemapsArePermutations | balance_bot/bb_bno055_sensor.py:172-206 | each remap of `accel`, `gyro` and `euler_angles` has an inverse, and every remap returns exactly the chip's three components |
| Bno055.EulerAxes | balance_bot/bb_bno055_sensor.py:205-206 | the chip's (yaw, roll, pitch) becomes x = roll, y = pitch, z = yaw |
| SrcEncoderDigital.RevsPerSlot | src/encoder/encoder_sensor_digital.py:80-82 | the slot step is positive exactly when the motor moves forward, and is ±1/slots per revolution |
| SrcEncoderDigital.TwoHalvesMakeASlot | src/encoder/encoder_sensor_digital.py:75-82 | two half-slot steps equal one full-slot step; the half-slot step `_revs_per_half_slot` is the same signed 1/(2 · slots) step as `EncoderDigital.DistPerHalfSlot` |
| SrcEncoderDigital.KeepNonZeroRows | src/encoder/encoder_sensor_digital.py:144-146 | the masked history keeps exactly the rows that are not all zero, and nothing else |
| SrcEncoderDigital.KeepDistributes | src/encoder/encoder_sensor_digital.py:144-146 | the mask works row by row: filtering a concatenation concatenates the filtered parts, so the kept rows stay in order |
| SrcEncoderDigital.KeepIdempotent | src/encoder/encoder_sensor_digital.py:144-146 | filtering twice keeps what filtering once kept |
| SrcEncoderDigital.GridRows | src/encoder/encoder_sensor_digital.py:144-146 | the rows of the history array, each as wide as the array |
| SrcEncoderDigital.EncoderDigital.constructor | src/encoder/encoder_sensor_digital.py:47-87 | a new encoder holds only the zero origin, is not running and has no edge handlers; its position is not yet set |
| SrcEncoderDigital.EncoderDigital.Advance | src/encoder/encoder_sensor_digital.py:94-101 | when stopped nothing changes; when running the position becomes the newest recorded position plus the step, and exactly one sample (now, position) is appended |
| SrcEncoderDigital.EncoderDigital.MoveAHalfSlot | src/encoder/encoder_sensor_digital.py:89-101 | when stopped nothing changes; when running the position advances by the signed half-slot step and is recorded at the move time |
| SrcEncoderDigital.EncoderDigital.MoveAFullSlot | src/encoder/encoder_sensor_digital.py:103-115 | when stopped nothing changes; when running the position advances by the signed full-slot step and is recorded at the move time |
| SrcEncoderDigital.EncoderDigital.OnEdge | src/encoder/encoder_sensor_digital.py:117-133 | an edge with no handler bound, or one on a stopped encoder, changes nothing; on a running encoder the half-slot handler moves the position from the newest live one by the signed half-slot step and the full-slot handler by the signed full-slot step, each appending one sample at the new position and time |
| SrcEncoderDigital.EncoderDigital.Start | src/encoder/encoder_sensor_digital.py:117-128 | both edges run the half-slot move, the encoder runs, and the history restarts from the zero origin |
| SrcEncoderDigital.EncoderDigital.Stop | src/encoder/encoder_sensor_digital.py:130-136 | no edge runs anything and the encoder is stopped |
| SrcEncoderDigital.EncoderDigital.Close | src/encoder/encoder_sensor_digital.py:138-148 | the rows handed to the saver are the history's rows without the all-zero ones; each has the history's six columns and is not all zero |
| EncoderDigital.DistPerHalfSlot | balance_bot/encoder_sensor_digital.py:83-87 | the half-slot step is positive exactly when the motor moves forward, and is ±1/(2 · slots per revolution) |
| EncoderDigital.EncoderDigital.constructor | balance_bot/encoder_sensor_digital.py:42-92 | a new encoder is started: both edges run the half-slot move and the history holds only the zero origin; the position is not yet set |
| EncoderDigital.EncoderDigital.MoveAHalfSlot | balance_bot/encoder_sensor_digital.py:94-109 | when stopped nothing changes; when running the position becomes the newest recorded position plus the signed half-slot step, and exactly one sample (now, position) is appended |
| EncoderDigital.EncoderDigital.OnEdge | balance_bot/encoder_sensor_digital.py:111-117 | an edge with no handler, or on a stopped encoder, changes nothing; an edge with the half-slot handler on a running encoder moves the position from the newest live one by the signed half-slot step and appends one sample at that position and time |
| EncoderDigital.EncoderDigital.Start | balance_bot/encoder_sensor_digital.py:111-120 | both edges run the half-slot move, the encoder runs, and the history restarts from the zero origin |
| EncoderDigital.EncoderDigital.Stop | balance_bot/encoder_sensor_digital.py:122-126 | no edge runs anything and the encoder is stopped; the history is kept |
| EncoderDigital.StoppedEncoderIgnoresEdges | balance_bot/encoder_sensor_digital.py:102-103 | after `stop` an edge of either kind changes neither the position nor the history |
| EncoderGeneral.MotorDirection | balance_bot/encoder_sensor_general.py:65-67 | `moving_forward`: every motor value counts as forward or as rearward, only a stopped motor counts both ways, and a motor that is not moving forward has a negative value |
| EncoderGeneral.FirstAtLeast | balance_bot/encoder_sensor_general.py:120-122 | the index of the first time at or above the bound: every earlier time is below it, and the index is the length when no time reaches it |
| EncoderGeneral.FirstAtLeastIsFirst | balance_bot/encoder_sensor_general.py:120-122 | the first qualifying index is unique: any index with only smaller times before it and a qualifying time at it (or at the end) is the one found |
| EncoderGeneral.WindowEnd | balance_bot/encoder_sensor_general.py:120-125 | the lines used are the live length, or the first row (not row 0) whose time reaches the averaging duration, every earlier row being below it; it is the argmax whenever row 0 is below the duration and some row reaches it |
| EncoderGeneral.SpeedWindow | balance_bot/encoder_sensor_general.py:137-140 | the speeds of rows first .. lines-2, one per row, empty when the slice is |
| EncoderGeneral.AccelWindow | balance_bot/encoder_sensor_general.py:164-167 | the accelerations of rows first .. lines-2, one per row, empty when the slice is |
| EncoderGeneral.JerkWindow | balance_bot/encoder_sensor_general.py:191-194 | the jerks of rows first .. lines-2, one per row, empty when the slice is |
| EncoderGeneral.SpeedOf | balance_bot/encoder_sensor_general.py:117-118 | `speed` returns 0 with fewer than two live rows |
| EncoderGeneral.AccelOf | balance_bot/encoder_sensor_general.py:156-157 | `accel` returns 0 with fewer than three live rows |
| EncoderGeneral.IntendedAccelOf | balance_bot/encoder_sensor_general.py:156-167 | the intended `accel` returns 0 with fewer than three live rows |
| EncoderGeneral.JerkOf | balance_bot/encoder_sensor_general.py:183-184 | `jerk` returns 0 with fewer than four live rows |
| EncoderGeneral.IntendedJerkOf | balance_bot/encoder_sensor_general.py:183-194 | the intended `jerk` returns 0 with fewer than four live rows |
| EncoderGeneral.WindowWithinLive | balance_bot/encoder_sensor_general.py:91-94 | with the rows below the live ones at zero, the window has at least one row and never reaches past the live rows |
| EncoderGeneral.SpeedMismatchIff | balance_bot/encoder_sensor_general.py:120-133 | `speed` raises the broadcast ValueError exactly when at least two rows are live, the capacity exceeds two, and row 1 is the first row whose time reaches the averaging duration |
| EncoderGeneral.UniformStep | balance_bot/encoder_sensor_general.py:137-140 | one speed term of motion at constant speed v is v |
| EncoderGeneral.UniformMotionTerms | balance_bot/encoder_sensor_general.py:137-140 | rows at increasing times on the line p0 + v·t have speed term v in every live row after the first |
| EncoderGeneral.UniformMotionSpeed | balance_bot/encoder_sensor_general.py:105-142 | for motion at constant speed v, `speed` returns v once its window holds a speed term |
| EncoderGeneral.AccelOfReportsSpeed | balance_bot/encoder_sensor_general.py:169 | as written, `accel` averages the speed column: under a constant speed v it returns v |
| EncoderGeneral.IntendedAccelOfConstantSpeed | balance_bot/encoder_sensor_general.py:164-167 | the intended `accel` averages the acceleration column: under a constant speed it returns 0 |
| EncoderGeneral.UniformMotionAccel | balance_bot/encoder_sensor_general.py:164-169 | on uniform motion at speed 1, `accel` as written returns 1 while the intended one returns 0 |
| EncoderGeneral.JerkOfReportsAccel | balance_bot/encoder_sensor_general.py:196 | as written, `jerk` averages the acceleration column: under a constant acceleration a it returns a |
| EncoderGeneral.IntendedJerkOfConstantAccel | balance_bot/encoder_sensor_general.py:191-194 | the intended `jerk` averages the jerk column: under a constant acceleration it returns 0 |
| EncoderGeneral.SquaresJerk | balance_bot/encoder_sensor_general.py:171-196 | positions 0, 1, 4, 9, 16, 25 at times 0 .. 5 (acceleration 2): `jerk` as written returns 2, the intended one 0 |
| EncoderGeneral.SpeedWindowIsColumn | balance_bot/encoder_sensor_general.py:137-142 | once the speed column is filled, its rows 1 .. lines-2 are the speed window that is averaged |
| EncoderGeneral.SpeedWindowFromTwoIsColumn | balance_bot/encoder_sensor_general.py:169 | once the speed column is filled, its rows 2 .. lines-2, which `accel` averages, are the speed window from row 2 |
| EncoderGeneral.AccelWindowFromThreeIsColumn | balance_bot/encoder_sensor_general.py:196 | once the acceleration column is filled, its rows 3 .. lines-2, which `jerk` averages, are the acceleration window from row 3 |
| EncoderGeneral.RollColumnUp | balance_bot/encoder_sensor_general.py:100-101 | `np.roll(col, -1)` written back: the column shifts up one row, its first entry moves to the end, and every other column is unchanged |
| EncoderGeneral.Store | balance_bot/encoder_sensor_general.py:102-103 | one cell is written and every other cell is unchanged |
| EncoderGeneral.ZeroRows | balance_bot/encoder_sensor_general.py:128 | `h[0:n, col] = 0`: the first n rows of the column become zero and everything else is unchanged |
| EncoderGeneral.FirstRowAtLeast | balance_bot/encoder_sensor_general.py:120-122 | the scan returns `FirstAtLeast` of the column |
| EncoderGeneral.WriteDifferences | balance_bot/encoder_sensor_general.py:130-133 | rows lo .. hi-1 of the step-duration column receive the time differences to the row above; the other rows and columns are unchanged |
| EncoderGeneral.WriteRates | balance_bot/encoder_sensor_general.py:137-140 | rows lo .. hi-1 of the target column receive the difference to the row above divided by the step duration; the other rows and columns are unchanged |
| EncoderGeneral.AverageRows | balance_bot/encoder_sensor_general.py:142 | `np.average` of a non-empty slice of a column is the mean of that slice |
| EncoderGeneral.FillSpeeds | balance_bot/encoder_sensor_general.py:128-140 | the step durations and speeds of rows 1 .. lines-2 are filled, row 0's speed is 0, rows past the window and the other columns are unchanged |
| EncoderGeneral.FillAccels | balance_bot/encoder_sensor_general.py:162-167 | rows 0 and 1 of the acceleration column become 0 and rows 2 .. lines-2 hold accelerations; rows past the window and the other columns are unchanged |
| EncoderGeneral.FillJerks | balance_bot/encoder_sensor_general.py:189-194 | rows 0 .. 2 of the jerk column become 0 and rows 3 .. lines-2 hold jerks; rows past the window and the other columns are unchanged |
| EncoderGeneral.SpeedRows | balance_bot/encoder_sensor_general.py:120-142 | the window is `WindowEnd` and the result `SpeedOf` of the time and position columns; row 0 of the acceleration column is zeroed; on the broadcast error no step or speed is written, otherwise those columns hold the window's values |
| EncoderGeneral.AccelRows | balance_bot/encoder_sensor_general.py:156-169 | runs `speed`, then the result is `AccelOf`, and on success the step, speed and acceleration columns hold the window's values and are unchanged past it |
| EncoderGeneral.JerkRows | balance_bot/encoder_sensor_general.py:183-196 | runs `accel`, then the result is `JerkOf`, and on success all four derived columns hold the window's values and are unchanged past it |
| EncoderGeneral.AppendKeepsNewest | balance_bot/encoder_sensor_general.py:96-103 | writing a sample below the live rows, or shifting up and writing it last when the history is full, keeps the newest samples in the live rows, oldest first |
| EncoderGeneral.EncoderGeneral.LastPosition | balance_bot/encoder_sensor_general.py:102-103 | the position in the newest live row is the newest sample's position |
| EncoderGeneral.EncoderGeneral.LastTime | balance_bot/encoder_sensor_general.py:102-103 | the time in the newest live row is the newest sample's time |
| EncoderGeneral.EncoderGeneral.constructor | balance_bot/encoder_sensor_general.py:43-63 | a new history keeps its capacity and averaging duration and holds only the zero origin in one live row |
| EncoderGeneral.EncoderGeneral.ResetHistory | balance_bot/encoder_sensor_general.py:69-94 | a new all-zero N x 6 array with one live row, the zero origin; the samples restart from it |
| EncoderGeneral.EncoderGeneral.AddPosition | balance_bot/encoder_sensor_general.py:96-103 | the sample is appended; below capacity the live length grows by one and the sample fills the new row, at capacity the time and position columns shift up and it fills the last row; the derived columns are unchanged and the live rows keep holding the newest samples |
| EncoderGeneral.AppendRow | balance_bot/encoder_sensor_general.py:96-103 | below capacity the live length grows by one and the sample fills the new row; at capacity the time and position columns shift up one row and the sample fills the last; the other columns are unchanged |
| EncoderGeneral.EncoderGeneral.Speed | balance_bot/encoder_sensor_general.py:105-142 | the result is `SpeedOf` of the time and position columns, which are unchanged; below two live rows nothing changes, otherwise the lines used are `WindowEnd` and the step and speed columns hold the window's values |
| EncoderGeneral.EncoderGeneral.Accel | balance_bot/encoder_sensor_general.py:144-169 | the result is `AccelOf` (the mean of the speed column); below three live rows nothing changes, otherwise the step, speed and acceleration columns hold the window's values |
| EncoderGeneral.EncoderGeneral.Jerk | balance_bot/encoder_sensor_general.py:171-196 | the result is `JerkOf` (the mean of the acceleration column); below four live rows nothing changes, otherwise all four derived columns hold the window's values |
| EncoderSim.AdvanceTwice | balance_bot/encoder_simulator.py:95-97 | two advances at the same rate equal one advance over the summed time |
| EncoderSim.Trajectory | balance_bot/encoder_simulator.py:87-99 | one sample per clock reading, stamped with that reading |
| EncoderSim.TrajectoryTelescopes | balance_bot/encoder_simulator.py:95-97 | the increments telescope: every simulated position is the start position plus the rate times the time elapsed since the start |
| EncoderSim.StillMotorHoldsPosition | balance_bot/encoder_simulator.py:70-72 | with a motor standing still at construction, every simulated position equals the start position |
| EncoderSim.TrajectoryNext | balance_bot/encoder_simulator.py:88-99 | one more clock reading appends one sample, integrated from the newest sample so far |
| EncoderSim.Rounds | balance_bot/encoder_simulator.py:86-103 | the loop runs at least once and at most once per clock reading; with the flag already cleared exactly once, otherwise up to and including the first sleep during which `stop` is called |
| EncoderSim.EncoderSim.constructor | balance_bot/encoder_simulator.py:42-84 | the rate is the motor's value at construction times the configured ratio; after the loop has run, the history is the zero origin followed by the simulated trajectory and the encoder is stopped |
| EncoderSim.EncoderSim.EncodingStep | balance_bot/encoder_simulator.py:88-99 | the old time and position are the newest recorded ones, the new position is the old one plus rate times elapsed time, and exactly that sample is appended |
| EncoderSim.EncoderSim.EncodingRound | balance_bot/encoder_simulator.py:87-103 | one iteration extends the history by the next trajectory sample and clears the running flag exactly when `stop` was called during its sleep |
| EncoderSim.EncoderSim.EncodingLoop | balance_bot/encoder_simulator.py:86-103 | the loop runs `Rounds` iterations, appends exactly the trajectory over those clock readings from the newest recorded sample, and ends stopped |
| EncoderSim.EncoderSim.Start | balance_bot/encoder_simulator.py:105-111 | the history restarts from the zero origin and ends as the origin followed by the trajectory up to the first `stop` |
| EncoderSim.EncoderSim.Stop | balance_bot/encoder_simulator.py:113-114 | the running flag is cleared |
| RotationEncoder.RevPerHalfSlot | balance_bot/encoder_sensor.py:76-77 | half a slot is positive exactly when moving FORWARD, and two of them make one slot, one revolution in `slots_per_rev` |
| RotationEncoder.TruncateAsWritten | balance_bot/encoder_sensor.py:96-97 | the index `history[-k]` fails exactly when there are fewer than k records, and otherwise yields a single record of the history |
| RotationEncoder.DefaultTruncationRaises | balance_bot/encoder_sensor.py:44-46 | with the default 200 samples per second and 60 seconds, every move before the 12000th record fails |
| RotationEncoder.KeepNewest | balance_bot/encoder_sensor.py:96-97 | the intended slice keeps the newest k records (all when k is 0 or there are no more), as a suffix that ends with the newest record |
| RotationEncoder.KeepNewestBounded | balance_bot/encoder_sensor.py:95-97 | appending and truncating keeps a history of at most k records, dropping the oldest only when it was full |
| RotationEncoder.ScanDown | balance_bot/encoder_sensor.py:113-116 | the scan stops at the first index going down that is more than the averaging duration older than the newest record, or at 1, and every index it passed was within the duration |
| RotationEncoder.MeasureIndex | balance_bot/encoder_sensor.py:112-118 | the record measured from lies in 1 .. len-2, is older than the averaging duration unless it is index 1, and no newer candidate is |
| RotationEncoder.MeasureIndexUnique | balance_bot/encoder_sensor.py:113-116 | these three conditions single out the scan's index |
| RotationEncoder.SpeedOf | balance_bot/encoder_sensor.py:100-121 | fails with an unbound loop variable exactly when there are fewer than three records; a value, times the duration, is the distance travelled since the measured record |
| RotationEncoder.AccelOf | balance_bot/encoder_sensor.py:124-145 | fails with an unbound loop variable exactly when there are fewer than three records |
| RotationEncoder.JerkOf | balance_bot/encoder_sensor.py:148-169 | fails with an unbound loop variable exactly when there are fewer than three records |
| RotationEncoder.GettersAgree | balance_bot/encoder_sensor.py:100-169 | the three getters succeed together, and then acceleration times duration is twice the speed and jerk times duration three times the acceleration |
| RotationEncoder.PowerRatios | balance_bot/encoder_sensor.py:121-169 | the ratios between the three formulas over one distance and a nonzero duration |
| RotationEncoder.ScaleDiv | balance_bot/encoder_sensor.py:121-169 | a constant factor passes through a division, and multiplying back by the divisor cancels it |
| RotationEncoder.UniformMotionSpeed | balance_bot/encoder_sensor.py:100-121 | records on a line position = p0 + v * time at increasing times give speed v |
| RotationEncoder.StrictlyIncreasing | balance_bot/encoder_sensor.py:93-95 | times that increase record by record increase between any two records |
| RotationEncoder.RotationEncoder.constructor | balance_bot/encoder_sensor.py:42-80 | position 0, one record (now, 0), moving FORWARD, with the given rates and durations |
| RotationEncoder.RotationEncoder.OnEdge | balance_bot/encoder_sensor.py:82-83 | a sensor edge changes neither position nor history, since the callbacks return the bound method without calling it |
| RotationEncoder.RotationEncoder.MoveAHalfSlot | balance_bot/encoder_sensor.py:85-97 | the position moves by half a slot in the current direction and the history becomes the newest records with (now, position) appended last |
| RotationEncoder.RotationEncoder.MeasurePoint | balance_bot/encoder_sensor.py:112-116 | the backward loop binds nothing with fewer than three records, and otherwise ends on `MeasureIndex` |
| RotationEncoder.RotationEncoder.Speed | balance_bot/encoder_sensor.py:99-121 | the getter returns `SpeedOf` of the current history |
| RotationEncoder.RotationEncoder.Accel | balance_bot/encoder_sensor.py:123-145 | the getter returns `AccelOf` of the current history |
| RotationEncoder.RotationEncoder.Jerk | balance_bot/encoder_sensor.py:147-169 | the getter returns `JerkOf` of the current history |
| RotationEncoder.RotationEncoder.ClearHistory | balance_bot/encoder_sensor.py:171-183 | position 0 and a single record (now, 0) |
| BalanceLoop.Seconds | tests/function/test_robot_balance.py:84-85 | the seconds clock at the instant the millisecond clock reads `ms` is the whole number of seconds in it: never more than `ms`, and `ms` lies in its thousand-millisecond window |
| BalanceLoop.IntegralTerm | tests/function/test_robot_balance.py:179-184 | the new term is `k_integral * error`, except that it is 0 exactly when the previous term is non-zero and equal to the error |
| BalanceLoop.IntegralIgnoresHistory | tests/function/test_robot_balance.py:179-184 | two previous terms that both differ from the error give the same new term: the term does not accumulate |
| BalanceLoop.MotorOutputTerms | tests/function/test_robot_balance.py:187-189 | without proportional and derivative gain, or with a level and still robot, the output is the integral term alone |
| BalanceLoop.PitchOf | tests/function/test_robot_balance.py:137-139 | the pitch can be read from a reading exactly when it is wrapped in a `Box`, and is then its `y`; a plain dictionary raises AttributeError |
| BalanceLoop.BalanceLoop.constructor | tests/function/test_robot_balance.py:137-162 | the first reading is held boxed and its pitch is the previous pitch; the integral term and both counters are 0, and both stamps are taken at the start |
| BalanceLoop.BalanceLoop.Steer | tests/function/test_robot_balance.py:178-213 | the integral term follows `IntegralTerm`; each wheel is sent the PID output clamped to its own range, left then right; the pitch is remembered for the next derivative |
| BalanceLoop.BalanceLoop.ControlTick | tests/function/test_robot_balance.py:165-213 | the stamp becomes the seconds clock; a good read is counted and held as the plain dictionary, so the tick raises AttributeError exactly when the held reading is plain, and then nothing is steered; a failed read is counted as bad and keeps the boxed previous reading, which is steered with as `Steer` states |
| BalanceLoop.BalanceLoop.IntendedControlTick | tests/function/test_robot_balance.py:137-213 | with every good read boxed like the first, the held reading stays boxed and every tick steers: with the new reading, or with the previous one after a failed read |
| BalanceLoop.BalanceLoop.Iteration | tests/function/test_robot_balance.py:163-224 | when the gate is closed nothing of the control state changes and nothing is raised; when it is open the tick runs with the effect `ControlTick` states, and an AttributeError leaves the loop before the reload (and the shutdown after the loop); otherwise the configuration is reloaded exactly when the parameter interval has passed in seconds |
| BalanceLoop.BalanceLoop.Shutdown | tests/function/test_robot_balance.py:224-232 | after the loop is left by KeyboardInterrupt, both wheels are set to 0, then both closed, then the relay is switched off and closed, in that order |
| BalanceLoop.WheelCommandsInRange | tests/function/test_robot_balance.py:195-207 | each wheel's command lies in that wheel's range, and equals the output when the output already does |
| BalanceLoop.SecondsStampKeepsGateOpen | tests/function/test_robot_balance.py:165-167 | at an epoch clock of 1.7e12 ms the gate is already open in the very millisecond of the previous tick |
| BalanceLoop.GateAlwaysOpenAfterTick | tests/function/test_robot_balance.py:165-167 | for any clock past twice the interval, the check after a tick is due however little time has passed |
| BalanceLoop.AsWrittenTicksEveryPass | tests/function/test_robot_balance.py:165-167 | as written, after a tick past twice the interval, every later pass of a non-decreasing clock ticks again: the gate holds nothing back |
| BalanceLoop.IntendedTicksSpaced | tests/function/test_robot_balance.py:151-167 | with the stamp kept in milliseconds, the first tick comes at least the interval after the starting stamp and consecutive ticks are at least the interval apart, for any clock readings |
| SimpleRobot.EffectiveDuration | balance_bot/simple_robot.py:170-171 | a duration of 0 becomes 1_000_000_000 seconds; any other is kept |
| SimpleRobot.Saturate | balance_bot/simple_robot.py:196-199 | `max(min(x, 1), -1)` lies in [-1, 1], keeps values already there, and maps values above to 1 and below to -1 |
| SimpleRobot.Mix | balance_bot/simple_robot.py:192-199 | both wheel values lie in [-1, 1]; a turn of magnitude below 0.2 drives both wheels at the saturated forward value; otherwise the left wheel gets forward + turn and the right forward - turn, each saturated |
| SimpleRobot.MixMirrors | balance_bot/simple_robot.py:192-199 | turning the other way swaps the two wheels' values |
| SimpleRobot.Command | balance_bot/simple_robot.py:188-199 | direction (0, 0) stops both wheels, and every command lies in [-1, 1] |
| SimpleRobot.StopIsAMix | balance_bot/simple_robot.py:188-199 | the special case for (0, 0) gives exactly what the mix would |
| SimpleRobot.RunKeepsWheelsInRange | balance_bot/simple_robot.py:178-199 | wheels that start in [-1, 1] stay there through any run of the driving loop |
| SimpleRobot.UnpolledRunKeepsWheels | balance_bot/simple_robot.py:179-180 | passes that come before the poll interval has elapsed leave the wheels and the stamp as they were |
| SimpleRobot.SimpleRobot.constructor | balance_bot/simple_robot.py:112-152 | the robot keeps the wheel motors it is given, here as their current values |
| SimpleRobot.SimpleRobot.SetFromDirection | balance_bot/simple_robot.py:188-198 | both wheels take the command for the polled direction: stopped for (0, 0), otherwise the dead-zoned, saturated mix |
| SimpleRobot.SimpleRobot.DriveByBlueDot | balance_bot/simple_robot.py:156-206 | as written, the loop raises AttributeError on the encoder's missing `distance` exactly when a first pass starts before the duration (0: effectively forever) has passed; that pass sets the wheels from the controller's answer when the poll is due, and otherwise the wheels keep their values |
| SimpleRobot.SimpleRobot.IntendedDriveByBlueDot | balance_bot/simple_robot.py:156-206 | with an encoder that answers `distance`, the wheels end as `Run` of the loop over all given passes leaves them: polled at most once per interval, mixed from the controller's answer, until the duration has passed |
| SimpleRobot.DriveProgram | balance_bot/simple_robot.py:216-227 | steps that are not 3-tuples with int elements 0 and 1 are skipped, and the first step that passes stops the program with the undefined-name error at that step; with none, the program does nothing |
| SimpleRobot.ThirdElementUnchecked | balance_bot/simple_robot.py:217-224 | a step whose third element is not a number passes the filter, and one whose second element is a float does not |
| MotorTestCsv.Uncommented | tests/test_motor_encoder.py:55-59 | the filter never adds lines |
| MotorTestCsv.UncommentedKeepsCode | tests/test_motor_encoder.py:56-58 | the filter keeps exactly the lines whose first character is not '#' |
| MotorTestCsv.UncommentedAppend | tests/test_motor_encoder.py:56-58 | filtering is line by line: the lines kept from two pieces are those kept from each, in order |
| MotorTestCsv.UncommentedIdempotent | tests/test_motor_encoder.py:56-58 | filtering twice keeps what filtering once does |
| MotorTestCsv.Rows | tests/test_motor_encoder.py:56-59 | one row per kept line, in order, holding that line's fields |
| MotorTestCsv.IntOf | tests/test_motor_encoder.py:69-72 | `int()` succeeds exactly on integer literals |
| MotorTestCsv.FloatOf | tests/test_motor_encoder.py:73-74 | `float()` succeeds on integer and decimal literals, and an integer converts to the same number |
| MotorTestCsv.Parse | tests/test_motor_encoder.py:67-75 | a six-field row converts exactly when its four pins are integers and its velocity and duration are numbers; the pins are kept as given, the velocity is the fifth field's number clamped to [-1, 1] and the duration is the last field's number |
| MotorTestCsv.Fields | tests/test_motor_encoder.py:68-75 | a description written as a row has six fields |
| MotorTestCsv.ParseFields | tests/test_motor_encoder.py:68-75 | reading back a written description gives it again, with the velocity clamped to [-1, 1] |
| MotorEncoderTest.CheckPins | tests/test_motor_encoder.py:76-119 | the checks change only the pins, and each pin only to 0 |
| MotorEncoderTest.CheckPinsSound | tests/test_motor_encoder.py:76-119 | after the checks every pin is 0 or a GPIO number 1 .. 27 and the non-zero pins are pairwise different; pins that already are so are left alone |
| MotorEncoderTest.RowTest | tests/test_motor_encoder.py:60-126 | a row gives a test exactly when it has six fields that convert, and that test is the converted description with its pins checked |
| MotorEncoderTest.RowsTestsSound | tests/test_motor_encoder.py:60-126 | every test one file gives has sound pins and a velocity in [-1, 1] |
| MotorEncoderTest.AllTestsSound | tests/test_motor_encoder.py:52-137 | every test loaded from all the files has sound pins and a velocity in [-1, 1] |
| MotorEncoderTest.BadPinsKeepTheRow | tests/test_motor_encoder.py:76-126 | a row whose pins are all out of range still becomes a test, with every pin 0 and the velocity clamped |
| MotorEncoderTest.ZeroBadPins | tests/test_motor_encoder.py:76-119 | zeroing the bad pins one after another, each checked against the pins as already zeroed, gives `CheckPins` |
| MotorEncoderTest.LoadRows | tests/test_motor_encoder.py:60-126 | the row loop keeps, in order, the checked description of every six-field row that converts |
| MotorEncoderTest.LoadTests | tests/test_motor_encoder.py:49-137 | the tests are every file's rows in turn, a file that is not found or not valid CSV adding nothing |
| MotorEncoderTest.RunTests | tests/test_motor_encoder.py:139-192 | one step per test, in order: the motor is driven exactly when all four pins are non-zero, the relay and motor are only set up when only the encoder pin is 0, and the test only waits when a motor pin is 0 |
| MotorEncoderTest.DrivenTestsUseDistinctPins | tests/test_motor_encoder.py:52-176 | a loaded test that drives the motor uses four different GPIO pins 1 .. 27 and a velocity in [-1, 1] |
| MotorEncoderFunctionTest.Built | tests/function/test_motor_encoder.py:62-75 | a row builds a description exactly when it has six fields that convert |
| MotorEncoderFunctionTest.LastBuilt | tests/function/test_motor_encoder.py:61-120 | once a description exists, the row loop leaves one bound |
| MotorEncoderFunctionTest.OneTestPerFile | tests/function/test_motor_encoder.py:53-125 | when loading succeeds, it yields exactly one test per file that opens, whatever the file holds |
| MotorEncoderFunctionTest.LoadFailsOnlyWithoutDetail | tests/function/test_motor_encoder.py:53-125 | once a description has been built, loading the remaining files cannot fail |
| MotorEncoderFunctionTest.RejectedRowStillLoaded | tests/function/test_motor_encoder.py:76-121 | a file whose only row fails the power-pin check still yields a test on power pin 30 |
| MotorEncoderFunctionTest.OnlyLastRowLoaded | tests/function/test_motor_encoder.py:61-121 | of two good rows in one file only the second becomes a test |
| MotorEncoderFunctionTest.EmptyFileFails | tests/function/test_motor_encoder.py:56-121 | a file holding only comments, before any description was built, ends loading with the unbound name |
| MotorEncoderFunctionTest.RowLoop | tests/function/test_motor_encoder.py:61-120 | after the row loop the description is the last one any row built (or the earlier one when none did), whatever the pin checks decided |
| MotorEncoderFunctionTest.LoadTests | tests/function/test_motor_encoder.py:50-125 | the loading loop gives the outcome of `Load` over all the files |
| MotorEncoderFunctionTest.RunTests | tests/function/test_motor_encoder.py:131-164 | one step per test, in order, up to the first test driven with the encoder: it only waits exactly when a motor pin is 0, and otherwise drives, with the encoder exactly when its pin is non-zero; the run raises exactly when some test is driven with the encoder, and then that test's step is the last: as written, building the digital encoder raises TypeError (its constructor passes `eh=` to a base class without that parameter, balance_bot/encoder_sensor_digital.py:69-74), after the motor was set going, so the motor is left running |
| MotorEncoderFunctionTest.IntendedRowsAccepted | tests/function/test_motor_encoder.py:61-121 | the intended row loop keeps exactly the rows that build a description with accepted pins, each with a velocity in [-1, 1] |
| MotorEncoderFunctionTest.IntendedDropsRejectedRow | tests/function/test_motor_encoder.py:76-121 | the intended loop drops the row with power pin 30 and keeps the good row |

## Left out

- I/O, logging, event posts that are not part of a modelled operation, sleeps, threads and the asyncio loop are left out.
  - Clocks, sensor and bus readings, controller answers and file contents are parameters.
  - A loop that waits on a reading stops when its input runs out (a `None` result) instead of waiting for ever.
- gpiozero, adafruit_bno055, pyttsx3, BlueDot and the micro:bit runtime are not part of this model. Only the values the source reads from them and writes to them are modelled.
- Floating point is modelled as real numbers: there is no rounding, overflow or underflow. The MakeCode port's 32-bit numbers and bit operations are modelled by their values on the decoded bytes.
- Numeric.Quot: a finite difference whose step lasts zero seconds gives 0. numpy would give an infinity or NaN with a warning. The model does not track these non-finite column entries.
- numpy's NaN for the mean of an empty window is the `NaN` reading. numpy's broadcast error for a window ending at row 1 is the `ShapeMismatch` reading. No other NaN arithmetic is modelled.
- EncoderGeneral.EncoderGeneral.constructor: balance_bot/encoder_sensor_general.py uses `np` without importing numpy, so as written `reset_history` raises NameError on construction. The model gives the history the zero-filled array the code evidently intends.
- EncoderDigital.EncoderDigital.constructor: the `super().__init__` call passes `eh=` to a parent constructor that takes no such argument, so as written it raises TypeError. The model builds the encoder as if the call succeeded.
- SrcEncoderDigital.EncoderDigital.constructor: sets `running` to false, which src/encoder/encoder_sensor_digital.py leaves unassigned until `start`. A half-slot move before `start` raises AttributeError there; in the model it changes nothing.
- src/encoder/encoder_sensor_general.py is not part of this model. The later digital encoder uses the history of balance_bot/encoder_sensor_general.py in its place.
- RotationEncoder.RotationEncoder.MoveAHalfSlot: truncates with the intended slice, `KeepNewest`. The indexing as written is `TruncateAsWritten` (see Findings).
- EncoderSim.EncoderSim.Start: `start` blocks its caller until `stop` is called during a sleep. The model takes the moments of those calls as inputs and does not model concurrent callers.
- Bno055: the constructor's flow is left out. It reads the YAML file, asks on standard input and restores a saved calibration. Only its validity check is modelled (`ValidateCalibrationData`, and `RestoreCheckAlwaysRaises` for what it leads to).
- Bno055.CalibrateSensor: stops after the waits and does not model `_save_calibration`, which calls a validation method the class does not define.
- Bno055: `quaternion` passes the chip's value through unchanged. `gravity_dir` and `gravity_mag` are floating-point `atan2` and `sqrt` of the chip's gravity vector. None of the three is modelled.
- SimpleRobot.DriveProgram: models `drive_program` up to the NameError that its first accepted step raises on `fwd_rws`. The relay, motor and sleep statements after it are never reached, so they are not modelled.
- SimpleRobot: `main` is not modelled. It is a wiring script (device construction from the configuration) outside the steering logic.
- MotorTestCsv: the CSV reader's tokenising (quoting, delimiters, `csv.Error`) is an input. Each line is given as its first character and its fields. A file that is not found or is not valid CSV is `None`, as the loader catches `FileNotFoundError` and `csv.Error` (tests/test_motor_encoder.py:127, 132). Other errors on opening or decoding a file (`PermissionError`, `IsADirectoryError`, `UnicodeDecodeError`) are not caught by the program and end the run; they are not modelled.
- MotorEncoderTest.RunTests: when no file name is given at all, the final warning reads the unbound `filename` and raises. The model says only that no step runs.
- MotorEncoderTest and MotorEncoderFunctionTest: the operating-system check at the start of `main` is left out. The model describes a run on the Raspberry Pi.
- RobotVoice: `say` hands text to the speech engine and is left out.
- RpiMotor: `close` releases the gpiozero device and logs, and is left out.
- NunchukBluetooth: `accelerometer_x` also shows its value on the LEDs with `basic.showNumber`. Only the value it returns is modelled.
- Nunchuk: the MicroPython `test_func` display loop is left out. It prints readings for ever.
- MotorSim.MotorSim.constructor: as written, `__init__` posts through `self._eh` before assigning it, so every construction raises AttributeError. The constructor builds the motor in the evidently intended order, handler first. `ConstructorAsWrittenFails` models the order as written (see Findings).
- MotorEncoderTest.RunTests: the driver imports `src.encoder_sensor_digital` and `src.rpi_motor`, which are not part of this model. If they are the encoder and motor modelled here, the motor constructor raises TypeError on `eh=` (it takes `logger`), and the digital encoder answers no `distance`. The model assumes that both the construction and the encoder reads succeed.

## Findings

| source | as written | input that shows it | evidently intended | confidence | as-written member | corrected member |
|---|---|---|---|---|---|---|
| balance_bot/encoder_sensor_general.py:164-169 | `accel` fills the acceleration column but returns the mean of the speed column | uniform motion at speed 1 over at least four rows in the window: `accel` reports 1 | the mean of the acceleration column, 0 under constant speed | not executed | EncoderGeneral.UniformMotionAccel | EncoderGeneral.IntendedAccelOfConstantSpeed |
| balance_bot/encoder_sensor_general.py:191-196 | `jerk` fills the jerk column but returns the mean of the acceleration column | positions 0, 1, 4, 9, 16, 25 at times 0 .. 5 with a 10 s window: `jerk` reports 2 | the mean of the jerk column, 0 under constant acceleration | not executed | EncoderGeneral.SquaresJerk | EncoderGeneral.IntendedJerkOfConstantAccel |
| balance_bot/encoder_sensor.py:96-97 | the truncation indexes `history[-k]` instead of slicing, replacing the list by one record or raising IndexError | any move while fewer than 12000 records exist, with the default rates | keep the newest `sample_freq * history_len` records, `history[-k:]` | not executed | RotationEncoder.DefaultTruncationRaises | RotationEncoder.KeepNewestBounded |
| tests/function/test_robot_balance.py:165-167 | the control stamp is stored with `TIME_S()` but compared against `TIME_MS()` | after a tick past twice the interval, every later pass ticks; at epoch 1.7e12 ms with a 100 ms interval the gate is open in the very millisecond of the previous tick | store the stamp in milliseconds, so ticks are at least the interval apart | not executed | BalanceLoop.AsWrittenTicksEveryPass | BalanceLoop.IntendedTicksSpaced |
| tests/function/test_robot_balance.py:137-176 | only the first reading is wrapped in `Box`; later good reads keep the plain dictionary of `euler_angles`, and `temp_euler.y` raises AttributeError | any tick whose sensor read succeeds | wrap every reading in `Box`, so that every tick steers | not executed | BalanceLoop.BalanceLoop.ControlTick | BalanceLoop.BalanceLoop.IntendedControlTick |
| balance_bot/simple_robot.py:201-204 | each pass reads `distance` of the digital encoder, which defines no such attribute | any run whose first pass starts before the duration: AttributeError after that pass | an encoder that reports its distance, so that the loop runs for the whole duration | not executed | SimpleRobot.SimpleRobot.DriveByBlueDot | SimpleRobot.SimpleRobot.IntendedDriveByBlueDot |
| balance_bot/motor_simulator.py:15-18 | the constructor posts through `self._eh` before assigning it | any construction: AttributeError | assign the handler before posting | not executed | MotorSim.ConstructorAsWrittenFails | MotorSim.ConstructorHandlerFirstBuilds |
| balance_bot/bb_bno055_sensor.py:144-147 | `_validate_calibration_data` returns False or falls off the end (None), so `if not ...` always raises | a file holding all five calibration keys: the check gives None and the constructor raises | return True when every key is present | not executed | Bno055.RestoreCheckAlwaysRaises | Bno055.IntendedCheckAcceptsCompleteData |
| balance_bot/bb_bno055_sensor.py:108-111 | the magnetometer wait reads status index 2, the accelerometer's, again | readings (system 3, gyro 3, accel 3, mag 0) four times: calibration completes with the magnetometer at 0 | wait on index 3, the magnetometer | not executed | Bno055.MagnetometerNeverAwaited | Bno055.IntendedWaitsSeeMagnetometer |
| tests/function/test_motor_encoder.py:76-121 | the append stands after the row loop, so each file adds one test, the last built, even one whose pins were rejected | one file with the row 30, 5, 6, 7, 0.5, 2: a test on power pin 30 is loaded | append inside the loop after the pin checks, keeping exactly the accepted rows | not executed | MotorEncoderFunctionTest.RejectedRowStillLoaded | MotorEncoderFunctionTest.IntendedRowsAccepted |
