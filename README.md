# 9DoF link and motor controllers, modelled in Dafny

This project models the Arduino side of a quadcopter's sensor and motor
stack:

- **DofHandler** (`DofHandler_example/DofHandler.h`) is the driver of a 9-axis
  inertial board on a serial link. It covers:
  - the byte-at-a-time framing state machine (magic prefix "9DoF", a payload
    whose length depends on the data mode, then a '\n' terminator);
  - the mode-dependent payload decoder (`readPacket`, `read_short`, the bit
    pattern of `read_double`);
  - the packet statistics and new-data flag;
  - the ASCII command protocol (data mode, update interval, continuous
    streaming, link speed, zero calibration, frame requests), including the
    close, settle and reopen sequence of a link-speed change.
- **Two MotorController classes** (`gyro_imu_test/MotorController.h` and
  `MotorControl/MotorController.h`). Both track four ESC-driven motors
  selected by OR-able bits: an armed mask, a requested speed per motor and
  the raw PWM value last written to each motor's pin.

Layout:

| file | module | contents |
|---|---|---|
| `protocol.dfy` | `DofProtocol` | constants, `short` wrap-around, big-endian reads, the gyro scaling, the baud table |
| `decoder.dfy` | `DofDecode` | the sensor records, `Decode` (readPacket) and the round trips with the board's encoding |
| `framer.dfy` | `DofFramer` | the framing automaton as values (`FrameStep`, `Run`), one byte through the whole receive path (`Receive`), and draining a stream (`Drain`, `Poll`) |
| `serial.dfy` | `SerialPort` | the serial port as a class: the bytes waiting to be read, a trace of everything done to the port, and a clock |
| `handler.dfy` | `DofHandlerModel` | the `DofHandler` class, every method proved against the value-level model |
| `motor_common.dfy` | `MotorCommon` | motor bits and indices, the mirrored state `Motors`, arming and disarming, Arduino's `map` and `constrain` |
| `gyro_motor_controller.dfy` | `GyroMotorModel` | the gyro test sketch's `MotorController` |
| `motor_controller.dfy` | `MotorControlModel` | the MotorControl sketch's `MotorController` |

How each stateful class is proved:

- Its methods update the fields, arrays and port trace in place.
- Each method's `ensures` ties the new state to a function of the old state
  (`Receive`, `Drain`, `Poll`, `Decode`, `Arm`, `SetSpeed`, ...).
- The source's properties are proved as lemmas about those functions.
- The motor methods keep the source's branch order. Their four per-motor
  branches are separate methods, and an `...InOrder` lemma shows that the
  branches, taken in the source's order, give the declarative update.

Where the code and its own description differ, the model follows the code:

- `setContinuousStream` sends "#o1" or "#o0" but does not update the mirrored
  `continuousStream` flag (DofHandler.h:612-618). `SetContinuousStream`
  therefore leaves `Config()` unchanged.
- `begin` waits 100 ms before sending the "#b" command (DofHandler.h:298), in
  addition to the settle delays that `setBaudRate` also has.
- The gyro controller's `setMotorRaw` writes every motor whose bit is in the
  mask. The MotorControl controller's `setMotorRaw` writes only for a
  single-motor constant or for MOTOR_ALL, so a combined mask such as
  FRONT|BACK writes nothing.

## Model

| member | source | states |
|---|---|---|
| DofProtocol.ModeSize | DofHandler_example/DofHandler.h:13-18 | payload lengths {30, 6, 12}: positive, even, within the 30-byte buffer, and 30 exactly for mode ALL |
| DofProtocol.CoerceMode | DofHandler_example/DofHandler.h:668-675 | the result is a supported mode: the mode itself when supported, otherwise the default mode |
| DofProtocol.Wrap16 | DofHandler_example/DofHandler.h:513-518 | conversion to `short` (the `short val` of read_short, and likewise `goodCount++`, `badCount++` and the negated delta of subtractMotorSpeed) lands in the 16-bit range and is the identity on it |
| DofProtocol.Wrap16Congruent | DofHandler_example/DofHandler.h:408-420 | the `short` counters after `++` (and every other conversion to `short`) are congruent to the exact value modulo 2^16 |
| DofProtocol.ReadShort | DofHandler_example/DofHandler.h:513-518 | read_short yields a 16-bit value |
| DofProtocol.ReadShortValue | DofHandler_example/DofHandler.h:513-518 | read_short is the unsigned big-endian value of the two bytes, reinterpreted as signed |
| DofProtocol.ReadDouble | DofHandler_example/DofHandler.h:502-510 | the 32-bit pattern built by read_double is bounded by its first byte |
| DofProtocol.ReadDoubleBytes | DofHandler_example/DofHandler.h:502-510 | each buffer byte lands in its own byte of the pattern, most significant first |
| DofProtocol.ReadShortOfShortBytes | DofHandler_example/DofHandler.h:513-518 | reading the board's two-byte encoding of a short gives that short back |
| DofProtocol.ShortBytesOfReadShort | DofHandler_example/DofHandler.h:513-518 | every two bytes are the encoding of the short read from them |
| DofProtocol.ReadDoubleOfWordBytes | DofHandler_example/DofHandler.h:502-510 | reading the four-byte encoding of a pattern gives the pattern back |
| DofProtocol.WordBytesOfReadDouble | DofHandler_example/DofHandler.h:502-510 | every four bytes are the encoding of the pattern read from them |
| DofProtocol.ReadShortAt | DofHandler_example/DofHandler.h:513-518 | a short encoded at any offset is read back from that offset |
| DofProtocol.ReadDoubleAt | DofHandler_example/DofHandler.h:502-510 | a pattern encoded at any offset is read back from that offset |
| DofProtocol.TruncTowardZero | DofHandler_example/DofHandler.h:468-470 | the float-to-int conversion drops the fraction toward zero |
| DofProtocol.CheckSumDigit | DofHandler_example/DofHandler.h:472 | the checksum `(x + y + z) % 10` is one signed decimal digit, congruent to the sum and of the sum's sign |
| DofProtocol.GyroIntegerExact | DofHandler_example/DofHandler.h:464-470 | for a 16-bit raw reading, truncating raw / 256 * 100 equals the integer quotient raw * 25 / 64 truncated toward zero, within ±12800 |
| DofProtocol.BaudRateToId | DofHandler_example/DofHandler.h:627-664 | the identifier is 1..9 exactly for the nine supported rates, names that rate in the table, and is -1 for any other rate |
| DofProtocol.BaudRateIdRoundTrip | DofHandler_example/DofHandler.h:627-664 | every identifier names exactly one rate, and that rate maps back to the identifier |
| DofProtocol.Ascii | DofHandler_example/DofHandler.h:299 | the bytes sent for an ASCII command are its characters' codes |
| DofProtocol.DigitByte | DofHandler_example/DofHandler.h:300 | printing an identifier 0..9 sends its one decimal digit |
| DofDecode.Decode | DofHandler_example/DofHandler.h:437-499 | readPacket records the mode of the packet it decoded |
| DofDecode.DecodeTouchesItsFields | DofHandler_example/DofHandler.h:451-496 | EULER changes only the angles; ALL and GYRO leave the angles alone and recompute the gyro integers; GYRO keeps accelerometer and magnetometer |
| DofDecode.DecodeReadsPayloadOnly | DofHandler_example/DofHandler.h:451-496 | decoding depends only on the mode's payload bytes |
| DofDecode.GyroTripleExact | DofHandler_example/DofHandler.h:464-472 | the derived gyro integers and checksum are computable without floating point |
| DofDecode.DecodeAllFrame | DofHandler_example/DofHandler.h:451-474 | an ALL payload decodes to the accelerometer and magnetometer patterns at 0..20 and the gyro shorts at 24, 26 and 28 |
| DofDecode.DecodeGyroFrame | DofHandler_example/DofHandler.h:475-490 | a GYRO payload decodes to the gyro shorts at 0, 2 and 4; the other readings are kept |
| DofDecode.DecodeEulerFrame | DofHandler_example/DofHandler.h:491-496 | an EULER payload decodes to roll, pitch and yaw at 0, 4 and 8; nothing else changes |
| DofDecode.DecodeAllZeros | DofHandler_example/DofHandler.h:451-474 | thirty zero bytes in mode ALL decode to zero readings, zero gyro integers and checksum 0 |
| DofDecode.DecodeGyroExample | DofHandler_example/DofHandler.h:475-490 | GYRO readings (256, -256, 0) give (1.0, -1.0, 0.0), integers (100, -100, 0) and checksum 0 |
| DofFramer.FrameStep | DofHandler_example/DofHandler.h:369-434 | one byte through the framing state machine keeps the fill count within the mode's size |
| DofFramer.FrameStepCases | DofHandler_example/DofHandler.h:375-431 | case by case: a matching magic byte advances, a mismatch restarts the seek, a payload byte is stored, and after a full payload '\n' gives a good packet and any other byte a bad one |
| DofFramer.Run | DofHandler_example/DofHandler.h:369-434 | a byte sequence keeps the framer invariant and reports at most one packet event per byte |
| DofFramer.RunAppend | DofHandler_example/DofHandler.h:369-434 | running two chunks one after the other is running their concatenation |
| DofFramer.RunOne | DofHandler_example/DofHandler.h:369-434 | running one byte is one step |
| DofFramer.CollectPayload | DofHandler_example/DofHandler.h:427-430 | while collecting, payload bytes are appended one by one with no event |
| DofFramer.SeekMagic | DofHandler_example/DofHandler.h:375-402 | "9DoF" takes the seek start to collecting with an empty payload |
| DofFramer.CompleteFrame | DofHandler_example/DofHandler.h:369-434 | magic, a full payload and a terminator give exactly one event, good exactly when the terminator is '\n', and the framer back at the start |
| DofFramer.MagicThenPayload | DofHandler_example/DofHandler.h:369-434 | magic and at most a payload's worth of bytes leave the framer collecting them, with no event |
| DofFramer.QuietThenQuiet | DofHandler_example/DofHandler.h:369-434 | two event-free chunks compose |
| DofFramer.MagicMismatch | DofHandler_example/DofHandler.h:375-402 | a wrong byte anywhere inside the magic prefix sends the framer back to the start without an event |
| DofFramer.Receive | DofHandler_example/DofHandler.h:369-434 | _checkStream on one byte: the framer takes its step; a packet event resets the framer and sets newData; a good packet decodes its payload and is counted good and timed, a bad one only counted bad; without an event the readings and statistics are untouched |
| DofFramer.CountGood | DofHandler_example/DofHandler.h:404-409 | a good packet sets lastPacketGood and newData, stamps dataTime, and advances goodCount by one, wrapping from 32767 to -32768; badCount is kept |
| DofFramer.CountBad | DofHandler_example/DofHandler.h:418-421 | a bad packet clears lastPacketGood, sets newData and advances badCount by one, wrapping from 32767 to -32768; goodCount and dataTime are kept |
| DofFramer.Feed | DofHandler_example/DofHandler.h:369-434 | a byte sequence through the receive path moves the framer as Run does and keeps the mode |
| DofFramer.FeedAppend | DofHandler_example/DofHandler.h:369-434 | feeding is compositional over concatenation |
| DofFramer.FeedOne | DofHandler_example/DofHandler.h:369-434 | feeding one byte is receiving it |
| DofFramer.FeedSnoc | DofHandler_example/DofHandler.h:369-434 | feeding one more byte is receiving it after the prefix |
| DofFramer.FeedQuiet | DofHandler_example/DofHandler.h:369-434 | event-free bytes change the framer and nothing else |
| DofFramer.FrameReceived | DofHandler_example/DofHandler.h:404-424 | a complete frame fed from the start decodes its payload, counts it as good or bad by its terminator, sets newData and timestamps a good packet |
| DofFramer.RunQuietHead | DofHandler_example/DofHandler.h:369-434 | a byte without an event only moves the framer on |
| DofFramer.Drain | DofHandler_example/DofHandler.h:334-349 | checkStream(true) consumes at most the available bytes and keeps the invariant and the mode |
| DofFramer.DrainAfterReceive | DofHandler_example/DofHandler.h:336-342 | draining receives the first byte, then stops on an event or drains the rest |
| DofFramer.DrainFeeds | DofHandler_example/DofHandler.h:336-342 | draining is feeding the consumed prefix |
| DofFramer.DrainStopsAtFirstEvent | DofHandler_example/DofHandler.h:336-342 | when an event fires, draining stops right after the byte that fired it |
| DofFramer.DrainEventIsFirst | DofHandler_example/DofHandler.h:336-342 | the consumed prefix fires exactly one event, on its last byte |
| DofFramer.DrainWithoutEventIsQuiet | DofHandler_example/DofHandler.h:336-342 | when no event is reported, the input fires none |
| DofFramer.Poll | DofHandler_example/DofHandler.h:334-349 | checkStream: without loop at most one byte is read, with loop bytes are read until an event or the end; a reported event sets newData and resets the framer |
| DofFramer.QuietInputDrains | DofHandler_example/DofHandler.h:336-342 | event-free input is drained completely |
| DofFramer.QuietInputReportsNothing | DofHandler_example/DofHandler.h:336-342 | event-free input reports no packet |
| DofFramer.FrameTailDrains | DofHandler_example/DofHandler.h:336-342 | the rest of a payload and a terminator are drained to the end with a packet reported |
| DofFramer.DrainCollects | DofHandler_example/DofHandler.h:336-342 | draining a payload's remainder and terminator consumes all of it and reports a packet |
| DofFramer.SplitFrameOverTwoPolls | DofHandler_example/DofHandler.h:334-349 | a frame split across two polls is reported on the second one only |
| DofFramer.SecondPollOfSplitFrame | DofHandler_example/DofHandler.h:334-349 | the second poll of a split frame consumes the rest and reports the packet |
| DofFramer.FirstPollOfSplitFrame | DofHandler_example/DofHandler.h:334-349 | the first poll of a split frame consumes everything, reports nothing and leaves the partial payload collected |
| SerialPort.NextByte | DofHandler_example/DofHandler.h:370 | `(byte)stream->read()` is the next byte, or 0xFF when nothing waits |
| SerialPort.AfterRead | DofHandler_example/DofHandler.h:370 | a read consumes the first waiting byte |
| SerialPort.SerialStream.Read | DofHandler_example/DofHandler.h:370 | read returns the next byte or -1, and consumes it |
| SerialPort.SerialStream.Available | DofHandler_example/DofHandler.h:337 | available is the number of waiting bytes |
| DofHandlerModel.BaudSwitch | DofHandler_example/DofHandler.h:580-601 | the event sequence of a link-speed change |
| DofHandlerModel.IntervalCommandCarriesInterval | DofHandler_example/DofHandler.h:604-609 | the two bytes after "#i" read back as the interval |
| DofHandlerModel.BaudCommandNamesRate | DofHandler_example/DofHandler.h:587-590 | the digit after "#b" names the requested rate in the board's table |
| DofHandlerModel.SendBaudSwitch | DofHandler_example/DofHandler.h:589-598 | the port receives exactly the baud-change sequence |
| DofHandlerModel.DofHandler.constructor | DofHandler_example/DofHandler.h:269-286 | open and baud as given by a positive baud; interval -1, no streaming, default mode; framer at the start |
| DofHandlerModel.DofHandler.Begin | DofHandler_example/DofHandler.h:289-316 | no effect when already open; otherwise opens at the initial rate, switches to a different supported final rate, and mirrors the rate in use |
| DofHandlerModel.DofHandler.End | DofHandler_example/DofHandler.h:319-325 | closes an open port; always ends closed |
| DofHandlerModel.DofHandler.MarkOpen | DofHandler_example/DofHandler.h:328-331 | records the port as open at the given rate |
| DofHandlerModel.DofHandler.SetBaudRate | DofHandler_example/DofHandler.h:580-601 | no effect when closed or for an unsupported rate; otherwise the baud-change sequence and the new mirrored rate |
| DofHandlerModel.DofHandler.SetUpdateInterval | DofHandler_example/DofHandler.h:604-609 | sends "#i" and the interval's two bytes, and mirrors the interval |
| DofHandlerModel.DofHandler.SetContinuousStream | DofHandler_example/DofHandler.h:612-618 | sends "#o1" or "#o0" with a line ending; the mirrored settings are unchanged |
| DofHandlerModel.DofHandler.SetDataMode | DofHandler_example/DofHandler.h:667-686 | the mode is coerced, the framer restarts, the payload size follows the mode, and "#m" is sent only when forced or when the mode changes |
| DofHandlerModel.DofHandler.RequestData | DofHandler_example/DofHandler.h:621-624 | switches the mode as setDataMode does, then sends "#f" |
| DofHandlerModel.DofHandler.RequestCurrentData | DofHandler_example/DofHandler.h:161 | requesting in the current mode sends only "#f" and restarts the framer |
| DofHandlerModel.DofHandler.ZeroCalibrate | DofHandler_example/DofHandler.h:689-691 | sends "#z" and changes nothing else |
| DofHandlerModel.DofHandler.ClearBuffer | DofHandler_example/DofHandler.h:521-525 | the framer restarts and the first buffer byte is zeroed |
| DofHandlerModel.DofHandler.ReadPacket | DofHandler_example/DofHandler.h:437-499 | the readings become Decode of the buffer in the current mode |
| DofHandlerModel.DofHandler.AcceptPacket | DofHandler_example/DofHandler.h:403-409 | the readings become Decode of the full payload, goodCount is incremented as a `short`, lastPacketGood is set and dataTime is the clock; the framer and settings are untouched |
| DofHandlerModel.DofHandler.FinishPacket | DofHandler_example/DofHandler.h:400-425 | the byte after a full payload: '\n' decodes and counts the packet good, any other byte counts it bad without touching the readings; either way newData is set and the framer restarts |
| DofHandlerModel.DofHandler.CheckStreamOnce | DofHandler_example/DofHandler.h:369-434 | _checkStream reads one byte and makes exactly the transition Receive prescribes |
| DofHandlerModel.DofHandler.DrainStream | DofHandler_example/DofHandler.h:336-342 | the looping checkStream makes exactly the transition Drain prescribes, consuming the bytes Drain counts |
| DofHandlerModel.DofHandler.CheckStream | DofHandler_example/DofHandler.h:334-349 | checkStream makes exactly the transition Poll prescribes |
| DofHandlerModel.DofHandler.CheckStreamValid | DofHandler_example/DofHandler.h:352-366 | true exactly when a good packet arrived; after a bad one newData is cleared and "#f" is sent unless streaming continuously |
| DofHandlerModel.DofHandler.GetData | DofHandler_example/DofHandler.h:174 | returns the sensor record and clears newData |
| DofHandlerModel.DofHandler.GetEulerData | DofHandler_example/DofHandler.h:181 | returns the angles and clears newData |
| DofHandlerModel.DofHandler.GetGyroData | DofHandler_example/DofHandler.h:188 | returns the gyro integers and clears newData |
| DofHandlerModel.DofHandler.IsNewDataAvailable | DofHandler_example/DofHandler.h:199-200 | returns the flag, and clears it only when asked to and it was set |
| DofHandlerModel.DofHandler.ClearNewDataFlag | DofHandler_example/DofHandler.h:205 | clears newData and nothing else |
| MotorCommon.Bit | gyro_imu_test/MotorController.h:6-10 | each motor index has a non-zero selector bit inside MOTOR_ALL |
| MotorCommon.IndexOf | gyro_imu_test/MotorController.h:90-93 | each single-motor constant has the array index whose bit it is |
| MotorCommon.SelectorsPick | gyro_imu_test/MotorController.h:6-10 | a single-motor selector picks exactly its motor; MOTOR_ALL picks every motor |
| MotorCommon.SelectedBoth | gyro_imu_test/MotorController.h:244 | `a & b` selects a motor exactly when both masks do |
| MotorCommon.TakesIff | gyro_imu_test/MotorController.h:244 | `motors & X && armedMask & X`: a motor takes a speed exactly when it is selected and armed |
| MotorCommon.Arm | gyro_imu_test/MotorController.h:346-370 | the arming update keeps four motors and no armed bit outside MOTOR_ALL; its meaning is pinned down by ArmInOrder and ArmedBits |
| MotorCommon.Disarm | gyro_imu_test/MotorController.h:372-396 | the disarming update keeps four motors and no armed bit outside MOTOR_ALL; its meaning is pinned down by DisarmInOrder and ArmedBits |
| MotorCommon.ArmInOrder | gyro_imu_test/MotorController.h:346-370 | the four arming branches, in the source's order, arm exactly the selected motors, zero their speed and write the arming pulse; the others keep their state |
| MotorCommon.DisarmInOrder | gyro_imu_test/MotorController.h:372-396 | the four disarming branches, in order, disarm exactly the selected motors and zero their speed and pin |
| MotorCommon.ArmedBits | gyro_imu_test/MotorController.h:349-393 | arming sets exactly the selected bits and keeps the others; disarming clears exactly them |
| MotorCommon.ArmIdempotent | gyro_imu_test/MotorController.h:346-396 | arming twice is arming once; disarming after arming is disarming |
| MotorCommon.DisarmAllStops | gyro_imu_test/MotorController.h:372-396 | disarming MOTOR_ALL from any state gives the constructor's state |
| MotorCommon.Constrain | gyro_imu_test/MotorController.h:246 | constrain stays within its bounds and is the identity inside them |
| MotorCommon.MapSpeed | gyro_imu_test/MotorController.h:243 | map of 0..255 onto a pulse range stays within the range and keeps the order of speeds |
| MotorCommon.MapSpeedEnds | gyro_imu_test/MotorController.h:243 | speeds 0 and 255 map to the ends of the range |
| GyroMotorModel.SpeedPulse | gyro_imu_test/MotorController.h:243 | speed 0 gives the arming pulse 100 and only speed 0 does; any other speed gives a pulse within 115..250 |
| GyroMotorModel.SetSpeed | gyro_imu_test/MotorController.h:242-263 | the speed update keeps four motors and the armed mask; its meaning is pinned down by SetSpeedInOrder |
| GyroMotorModel.SetRaw | gyro_imu_test/MotorController.h:278-310 | the raw update keeps four motors; its meaning is pinned down by SetRawInOrder |
| GyroMotorModel.AddSpeed | gyro_imu_test/MotorController.h:398-446 | the add update keeps four motors and the armed mask; its meaning is pinned down by AddSpeedInOrder |
| GyroMotorModel.MotorPulseOrdered | gyro_imu_test/MotorController.h:243-261 | with the default offsets the pulse written for a motor is the speed's pulse, monotone in the speed, and at least 115 above speed 0 |
| GyroMotorModel.MotorPulse | gyro_imu_test/MotorController.h:246 | a stopped motor gets the arming pulse; a running one gets its speed's pulse plus its offset, truncated to a byte |
| GyroMotorModel.NewSpeed | gyro_imu_test/MotorController.h:400-406 | a positive delta never lowers the speed, a negative one never raises it, and a sum inside 0..255 is taken exactly |
| GyroMotorModel.NewSpeedClamps | gyro_imu_test/MotorController.h:400-406 | the macro's branches compute the clamp of current + delta to 0..255 |
| GyroMotorModel.AddStepBranches | gyro_imu_test/MotorController.h:413-444 | a selected motor's branch is setMotorSpeed on that motor alone with its clamped sum; an unselected one changes nothing |
| GyroMotorModel.SetRawOfOne | gyro_imu_test/MotorController.h:278-310 | setMotorRaw with a single motor's bit writes that motor's slot and no other |
| GyroMotorModel.SetSpeedOfOne | gyro_imu_test/MotorController.h:242-263 | setMotorSpeed with one motor's bit acts on that motor alone |
| GyroMotorModel.SetRawInOrder | gyro_imu_test/MotorController.h:278-310 | the four setMotorRaw branches, in order, write the raw value to every motor whose bit is in the mask and to no other |
| GyroMotorModel.SetSpeedInOrder | gyro_imu_test/MotorController.h:242-263 | the four setMotorSpeed branches, in order, give exactly the selected armed motors the speed and its pulse |
| GyroMotorModel.AddSpeedInOrder | gyro_imu_test/MotorController.h:398-446 | the four addMotorSpeed branches, in order, give every selected armed motor its clamped sum and that sum's pulse; all other motors are unchanged |
| GyroMotorModel.ConsistentDrivesArmed | gyro_imu_test/MotorController.h:225-446 | in a consistent state a motor's pin is non-zero exactly when it is armed, within 100..250, and at 100 exactly when its speed is 0 |
| GyroMotorModel.ArmKeepsConsistent | gyro_imu_test/MotorController.h:225-240 | the constructor's state is consistent, and armMotor keeps consistency |
| GyroMotorModel.DisarmKeepsConsistent | gyro_imu_test/MotorController.h:372-396 | disarmMotor keeps consistency |
| GyroMotorModel.SetSpeedKeepsConsistent | gyro_imu_test/MotorController.h:242-263 | setMotorSpeed keeps consistency |
| GyroMotorModel.AddSpeedKeepsConsistent | gyro_imu_test/MotorController.h:398-446 | addMotorSpeed keeps consistency |
| GyroMotorModel.UnarmedIgnoresSpeed | gyro_imu_test/MotorController.h:244-261 | when no selected motor is armed, setMotorSpeed and addMotorSpeed change nothing |
| GyroMotorModel.SubtractUndoesAdd | gyro_imu_test/MotorController.h:147 | on a consistent state, subtracting a delta that clamped no armed selected motor undoes adding it |
| GyroMotorModel.ArmResetsSpeed | gyro_imu_test/MotorController.h:346-370 | re-arming a running motor zeroes its speed and puts it back at the arming pulse |
| GyroMotorModel.MotorController.constructor | gyro_imu_test/MotorController.h:225-240 | nothing armed, every speed and raw value 0 |
| GyroMotorModel.MotorController.SetMotorRaw | gyro_imu_test/MotorController.h:278-310 | the new state is SetRaw of the old one |
| GyroMotorModel.MotorController.RawBranch | gyro_imu_test/MotorController.h:278-310 | one `if (motors & MOTOR_X)` block of setMotorRaw: the motor's slot takes the raw value when its bit is in the mask |
| GyroMotorModel.MotorController.SpeedBranch | gyro_imu_test/MotorController.h:244-262 | one `if (motors & MOTOR_X && armedMask & MOTOR_X)` block of setMotorSpeed: the motor takes the speed and its pulse exactly when selected and armed |
| GyroMotorModel.MotorController.ArmBranch | gyro_imu_test/MotorController.h:346-370 | one block of armMotor: a selected motor is armed, its speed zeroed and the arming pulse written |
| GyroMotorModel.MotorController.DisarmBranch | gyro_imu_test/MotorController.h:372-396 | one block of disarmMotor: a selected motor is disarmed, its speed zeroed and its pin driven to 0 |
| GyroMotorModel.MotorController.AddBranch | gyro_imu_test/MotorController.h:413-444 | one block of addMotorSpeed: a selected motor is given its current speed plus the delta, clamped, through setMotorSpeed on its own bit |
| GyroMotorModel.MotorController.GetMotorRaw | gyro_imu_test/MotorController.h:312-324 | the stored raw value for a single-motor constant, 0 for any other selector including combined masks |
| GyroMotorModel.MotorController.GetMotorSpeed | gyro_imu_test/MotorController.h:265-276 | the stored speed for a single-motor constant, 0 for any other selector |
| GyroMotorModel.MotorController.SetMotorSpeed | gyro_imu_test/MotorController.h:242-263 | the new state is SetSpeed of the old one |
| GyroMotorModel.MotorController.ArmMotor | gyro_imu_test/MotorController.h:346-370 | the new state is Arm of the old one with pulse 100 |
| GyroMotorModel.MotorController.DisarmMotor | gyro_imu_test/MotorController.h:372-396 | the new state is Disarm of the old one |
| GyroMotorModel.MotorController.AddMotorSpeed | gyro_imu_test/MotorController.h:398-446 | the new state is AddSpeed of the old one: nothing for delta 0, otherwise the clamped sum for selected armed motors |
| GyroMotorModel.MotorController.SubtractMotorSpeed | gyro_imu_test/MotorController.h:147 | addMotorSpeed with the negated delta converted back to a short |
| MotorControlModel.SpeedPulse | MotorControl/MotorController.h:103 | every pulse is within 127..252, and speed 0 gives the arming pulse 127 |
| MotorControlModel.SpeedPulseOrdered | MotorControl/MotorController.h:103 | a faster speed never gets a smaller pulse |
| MotorControlModel.FullSpeedPulse | MotorControl/MotorController.h:103 | speed 255 gives 252 |
| MotorControlModel.SlowestSpeedsIdle | MotorControl/MotorController.h:103 | speeds 1 and 2 still give the arming pulse; speed 3 is the first above it |
| MotorControlModel.SetRaw | MotorControl/MotorController.h:138-162 | the raw update changes neither the armed mask nor the speeds |
| MotorControlModel.SetSpeed | MotorControl/MotorController.h:102-123 | the speed update keeps four motors and the armed mask; its meaning is pinned down by SetSpeedInOrder |
| MotorControlModel.SetRawOfOne | MotorControl/MotorController.h:146-161 | a single-motor constant writes that motor's slot and no other |
| MotorControlModel.SetRawSelectors | MotorControl/MotorController.h:138-162 | MOTOR_ALL writes all four raws; any selector that is neither a motor nor MOTOR_ALL writes none |
| MotorControlModel.CombinedMaskWritesNothing | MotorControl/MotorController.h:138-162 | setMotorRaw(FRONT|BACK, raw) leaves the state unchanged |
| MotorControlModel.SetRawAllInOrder | MotorControl/MotorController.h:139-145 | the four single-motor writes for MOTOR_ALL, in the order FRONT, BACK, RIGHT, LEFT, write every motor |
| MotorControlModel.SetSpeedOfOne | MotorControl/MotorController.h:102-123 | setMotorSpeed with one motor's bit acts on that motor alone |
| MotorControlModel.SetSpeedInOrder | MotorControl/MotorController.h:102-123 | the four setMotorSpeed branches, in order, give exactly the selected armed motors the speed and its pulse |
| MotorControlModel.ConsistentDrivesArmed | MotorControl/MotorController.h:85-240 | in a consistent state a motor's pin is non-zero exactly when it is armed, and then within 127..252 |
| MotorControlModel.ArmKeepsConsistent | MotorControl/MotorController.h:85-100 | the constructor's state is consistent, and armMotor keeps consistency |
| MotorControlModel.DisarmKeepsConsistent | MotorControl/MotorController.h:216-240 | disarmMotor keeps consistency |
| MotorControlModel.SetSpeedKeepsConsistent | MotorControl/MotorController.h:102-123 | setMotorSpeed keeps consistency |
| MotorControlModel.UnarmedIgnoresSpeed | MotorControl/MotorController.h:104-121 | when no selected motor is armed, setMotorSpeed changes nothing |
| MotorControlModel.SetSpeedLastWins | MotorControl/MotorController.h:102-123 | of two successive setMotorSpeed calls on the same mask, the last one wins |
| MotorControlModel.MotorController.constructor | MotorControl/MotorController.h:85-100 | nothing armed, every speed and raw value 0 |
| MotorControlModel.MotorController.SetMotorRaw | MotorControl/MotorController.h:138-162 | the new state is SetRaw of the old one: all four raws for MOTOR_ALL, one slot for a single motor, nothing otherwise |
| MotorControlModel.MotorController.SpeedBranch | MotorControl/MotorController.h:104-122 | one `if (motors & MOTOR_X && armedMask & MOTOR_X)` block of setMotorSpeed: the motor takes the speed and its pulse exactly when selected and armed |
| MotorControlModel.MotorController.ArmBranch | MotorControl/MotorController.h:190-214 | one block of armMotor: a selected motor is armed, its speed zeroed and the arming pulse written |
| MotorControlModel.MotorController.DisarmBranch | MotorControl/MotorController.h:216-240 | one block of disarmMotor: a selected motor is disarmed, its speed zeroed and its pin driven to 0 |
| MotorControlModel.MotorController.GetMotorRaw | MotorControl/MotorController.h:164-176 | the stored raw value for a single-motor constant, 0 for any other selector |
| MotorControlModel.MotorController.GetMotorSpeed | MotorControl/MotorController.h:125-136 | the stored speed for a single-motor constant, 0 for any other selector |
| MotorControlModel.MotorController.SetMotorSpeed | MotorControl/MotorController.h:102-123 | the new state is SetSpeed of the old one |
| MotorControlModel.MotorController.ArmMotor | MotorControl/MotorController.h:190-214 | the new state is Arm of the old one with pulse 127 |
| MotorControlModel.MotorController.DisarmMotor | MotorControl/MotorController.h:216-240 | the new state is Disarm of the old one |

## Left out

- Floating point. The accelerometer, magnetometer and Euler fields stay as the 32-bit patterns that `read_double` assembles. The reinterpretation `*((double*)&val)` is not modelled. The gyro floats are exact (raw / 256), so they are kept as reals.
- 16-bit AVR `int` arithmetic. C `int` is treated as wide wherever the firmware computes in `int`; `short` fields and arguments wrap explicitly (`Wrap16`). In `subtractMotorSpeed`, `-(-32768)` wraps back to -32768 on the way into the `short` parameter, which `Wrap16(32768)` reproduces. The consequences that do change results on a 16-bit `int` are listed below.
- BaudRateToId: `begin`, `setBaudRate` and `baudRateToId` take the rate as an `int`. On a 16-bit `int`, 38400, 57600 and 115200 cannot be represented, so the nine-rate table is not what the firmware sees there.
- GyroTriple: the checksum sum `x + y + z` is an `int` and overflows once its magnitude exceeds 32767 on a 16-bit `int`; CheckSumDigit takes the exact sum. For three raw readings of 32767 (integers 12799 each) the model gives checksum 7 where the wrapped sum -27139 gives -9.
- NewSpeed: `(short)currentSpeed + speed` in addMotorSpeed is an `int` sum that overflows on a 16-bit `int` for a delta above 32767 minus the current speed. AddSpeed takes the exact sum: for current 10 and delta 32760 the model clamps to 255, while the wrapped sum fails the `>= 255` test and the truncated byte is 2. For a delta of -32768 the test `(-speed) >= currentSpeed` negates it in `int`, which is undefined in C; on a 16-bit `int` it wraps back to -32768, the test fails, and `currentSpeed + speed` truncated to a byte is `currentSpeed` again (speed 40 stays 40), while NewSpeed gives 0. The same input reaches it through `subtractMotorSpeed(motors, -32768)`, so SubtractMotorSpeed gives 0 there too.
- Arduino's `map` is not part of this model's sources. It is taken to be its documented formula `(x - inMin) * (outMax - outMin) / (inMax - inMin) + outMin` in `long` arithmetic with C division.
- The raw offsets of the gyro controller are the header's defaults, all 0. Build-time overrides of them are not modelled.
- `pinMode`, `analogWrite` and `digitalWrite` are not modelled. The `motorRaw` arrays stand for the PWM value on each pin.
- `isArmed` in both controllers is left out. The gyro version falls off its end without a return value. Both versions test `armedMask & MOTOR_X == MOTOR_X`, which C parses as `armedMask & 1`. Their intended meaning cannot be taken from the code.
- `setMotorThrust` and `getMotorThrust` are floating-point thrust curves.
- ESC programming (`changeSetting`, `exitProgramming`) is timed hardware sequences built from `delay`.
- `printData` and `debugRead` only print to a stream. `getDataAge` reads the clock. `getDataMode`, `getLastDataMode` and `isPacketGood` are one-line field reads, visible in the model as `Rx()`.
- The serial port is a class holding the bytes waiting to be read and a trace of events. `millis()` is a clock value that the model never advances. `delay` only appends an event to the trace.
- Fields the firmware leaves uninitialised (framer state, fill count, statistics, new-data flag, last packet mode, buffer contents) start at 0 in the model.
