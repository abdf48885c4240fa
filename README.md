# Leader arm (STS3215) teleoperation — a Dafny model

This project models the control core of a leader/follower teleoperation rig. A hand-moved
"leader" arm of seven Feetech STS3215 serial-bus servos (six joints and a gripper) drives one or
two "follower" robot arms.

- **Packet / Framer / ServoDriver.** The STS3215 register client, `STSServoDriver`:
  - the request frame `[0xFF, 0xFF, id, length, instruction, params…, checksum]` and its
    one's-complement checksum;
  - the byte-by-byte header search and the parse of a response frame;
  - the little-endian register encodings;
  - ping, torque enable, goal position, present position, feedback (with signed 16-bit speed
    and load) and the EEPROM id change.

  The driver is a class over the state of its serial port: open flag, frames written, bytes
  received and a read cursor.
- **LeaderArm.** The calibration engine, `LeaderArm`:
  - raw counts to degrees, with the 4096-count zero-crossing correction;
  - home offsets and joint directions, with their defaults;
  - home calibration and direction setting;
  - loading and saving the calibration file.
- **PortFinder.** Locating serial devices among the enumerated ports:
  - `AutoPortFinder.find_ports`: an exact serial number or location match;
  - `find_port` of the dual-leader reader: an exact serial number, or a substring of the location.
- **TeleopCore / TeleopSingle / TeleopDual.** The two teleoperation loops, `TeleopSystem` and
  `DualTeleopSystem`:
  - start-up and pairing;
  - degrees to radians;
  - the gripper angle mapped to an opening ratio in [0, 1];
  - the direction vectors;
  - the "skip the tick if any servo is unavailable" rule;
  - 50 Hz pacing;
  - cleanup.

  What a loop does to hardware it does not own is recorded as a sequence of events: torque off,
  follower connected, command sent, sleep, port closed. The follower robot's driver is not part
  of this model.

Inputs to the model:
- what a servo answers to a request;
- the readings on a leader's bus at each tick;
- how long each tick's work took;
- the enumerated ports;
- whether a port opens or a follower connects.

Two behaviours of the code differ from what its names and arguments suggest. The model follows the code:
- `LeaderArm` takes a `config_file` argument, but the `save_config` and `load_config` that take
  effect (`leader_arm_st3215.py:150-171`, which redefine the earlier ones at 33-54) always use
  `leader_config.json`. The two leaders of the dual system therefore share one calibration file,
  and the calibration saved last is the one kept. `ConfigStore` is that shared file;
  `TeleopDual.DualTeleopSystem.Run` states which calibration it ends up holding.
- `find_ports` gives a serial number no priority over a location. For each role, the first
  enumerated port whose serial number or location equals the identifier wins
  (`PortFinder.ResolveLocationFirstExample`).

## Model

| member | source | states |
|---|---|---|
| Common.SumAppend | sts3215_driver.py:59 | The sum of a concatenation is the sum of the parts. |
| Common.SumUpdate | sts3215_driver.py:59 | Replacing one byte changes the sum by exactly the difference. |
| Packet.Checksum | sts3215_driver.py:55-60 | `(~sum) & 0xFF` is 255 − sum mod 256, so payload sum plus checksum is 255 mod 256. |
| Packet.Frame | sts3215_driver.py:62-74 | A request frame is six bytes longer than its params. |
| Packet.FrameLayout | sts3215_driver.py:66-74 | Field by field: two 0xFF, id, length = params + 2, instruction, the params, then the checksum of id..params. |
| Packet.FrameChecksumValid | sts3215_driver.py:55-74 | Every frame the driver builds passes the receiver's checksum test, which covers everything after the header. |
| Packet.SingleByteChangeDetected | sts3215_driver.py:55-60 | Changing any one covered byte of a valid frame makes the checksum test fail. |
| Packet.ChecksumByteDecides | sts3215_driver.py:55-74 | A frame with its checksum byte replaced validates iff the byte equals the computed one. |
| Packet.ReadPositionFrameExample | sts3215_driver.py:195-198 | Reading 2 bytes at address 56 of servo 1 is `FF FF 01 04 02 38 02 BE`. |
| Framer.Scan | sts3215_driver.py:93-111 | The header-count machine stops strictly inside the stream, or reports running out. |
| Framer.SyncEnd | sts3215_driver.py:93-111 | The header search from the start of the stream. No contract of its own; `Framer.SyncEndIsFirstPair` states where it stops. |
| Framer.ScanFindsFirstPair | sts3215_driver.py:93-111 | Started consistently, the machine stops right after the first pair of consecutive 0xFF; it runs out only if there is no such pair. |
| Framer.SyncEndIsFirstPair | sts3215_driver.py:91-111 | The header search stops after the first 0xFF 0xFF pair in the stream, and times out only if there is none. |
| Framer.ParseResponse | sts3215_driver.py:83-146 | Returned params come from a frame whose header, id, length byte and body are at the stated positions; consumption is within the stream. |
| Framer.Response | sts3215_driver.py:86 | A response frame is six bytes longer than its params. |
| Framer.SyncAfterJunk | sts3215_driver.py:96-111 | After noise holding no header, the search stops right after the next two 0xFF. |
| Framer.ParseTimeout | sts3215_driver.py:96-98 | With no header in the stream, the read returns None and drains the stream. |
| Framer.ParseRoundTrip | sts3215_driver.py:113-146 | Noise, then a response for the requested id, then anything: the params come back whatever the error and checksum bytes, and the read consumes exactly to the end of the frame. |
| Framer.ParseRejectsOtherId | sts3215_driver.py:137-139 | A well-formed response from another servo yields None, after its body was consumed. |
| Framer.ParseRejectsShortLength | sts3215_driver.py:124-125 | A length byte below 2 yields None right after the length byte. |
| Framer.ParseRejectsTruncated | sts3215_driver.py:116-131 | A response cut before its last byte never yields params. |
| Framer.DecodeEncode | sts3215_driver.py:62-146 | Parsing the driver's own request frame recovers its params. |
| ServoDriver.JoinLe16 | sts3215_driver.py:203 | `lo + (hi << 8)` is a 16-bit unsigned value. |
| ServoDriver.LowByte | sts3215_driver.py:179-183 | `x & 0xFF` on any integer. No contract of its own; `ServoDriver.SplitJoin` and `ServoDriver.JoinSplit` tie it to `JoinLe16`. |
| ServoDriver.HighByte | sts3215_driver.py:179-183 | `(x >> 8) & 0xFF` on any integer, negative ones included. No contract of its own; `ServoDriver.SplitJoin` and `ServoDriver.JoinSplit` tie it to `JoinLe16`. |
| ServoDriver.SplitJoin | sts3215_driver.py:179-183 | Splitting any integer with `& 0xFF` and `(>> 8) & 0xFF` and joining it again gives the value mod 65536. |
| ServoDriver.JoinSplit | sts3215_driver.py:179-180 | Joining two bytes and splitting them again gives the same bytes. |
| ServoDriver.ClampPosition | sts3215_driver.py:169 | The result is in [0, 4095]; in-range values are unchanged; below is 0 and above is 4095. |
| ServoDriver.GoalPositionParams | sts3215_driver.py:179-187 | Address 42, then the clamped position's two bytes and the speed's two bytes (mod 65536), little-endian. |
| ServoDriver.TorqueParams | sts3215_driver.py:156-159 | Address 40, then 1 iff enabling and 0 iff releasing. |
| ServoDriver.PositionOf | sts3215_driver.py:200-206 | -1 exactly when the response is not two params, else the 16-bit value. |
| ServoDriver.ToSigned16 | sts3215_driver.py:220-225 | The int16 reading is in [-32768, 32767] and congruent to the wire value mod 65536. |
| ServoDriver.Signed16RoundTrip | sts3215_driver.py:220-225 | Encoding an int16 into two bytes and decoding it as signed is the identity. |
| ServoDriver.FeedbackOf | sts3215_driver.py:217-228 | A record exactly when there are six params: position unsigned, speed and load int16. |
| ServoDriver.PositionReadRoundTrip | sts3215_driver.py:190-206 | A servo answering value v (after noise, any error or checksum byte) is read as v. |
| ServoDriver.FeedbackReadRoundTrip | sts3215_driver.py:208-228 | A servo answering position, speed and load is read back exactly. |
| ServoDriver.Driver.constructor | sts3215_driver.py:32-49 | The port is open iff opening succeeded; nothing is sent or pending. |
| ServoDriver.ChangeIdFrames | sts3215_driver.py:230-239 | Three WRITE frames that each pass the servo's checksum test: the first two go to the old id, the last to the new id. |
| ServoDriver.Driver.Close | sts3215_driver.py:51-53 | The port is closed and nothing else changes. |
| ServoDriver.Driver.Receive | sts3215_driver.py:100 | Received bytes are appended to the pending input; a closed port receives nothing. |
| ServoDriver.Driver.ReadUpTo | sts3215_driver.py:116-131 | `ser.read(n)`: the first min(n, pending) pending bytes, and the cursor advances by that many. |
| ServoDriver.Driver.WritePacket | sts3215_driver.py:62-81 | Open: the pending input is flushed, exactly `Frame(id, instr, params)` is appended, true. Closed: nothing changes, false. |
| ServoDriver.Driver.SeekHeader | sts3215_driver.py:93-111 | Finds a header iff `SyncEnd` does, and leaves the cursor just past it; on timeout the input is drained. |
| ServoDriver.Driver.ReadResponse | sts3215_driver.py:83-146 | Open port: the result and the bytes consumed are those of `ParseResponse` on the pending input. Closed port: None, nothing consumed. |
| ServoDriver.Driver.Exchange | sts3215_driver.py:150-154 | A request is sent iff the port is open; the reply is parsed; the unread rest stays pending; a closed port leaves the input untouched. |
| ServoDriver.Driver.Ping | sts3215_driver.py:150-154 | Sends a PING frame; present iff the port is open and a response with that id came back; the unread rest of the reply stays pending, and a closed port leaves the input untouched. |
| ServoDriver.Driver.EnableTorque | sts3215_driver.py:156-159 | Sends one WRITE of `TorqueParams(enable)` when open; the write flushes the pending input, and a closed port leaves it untouched. |
| ServoDriver.Driver.SetPosition | sts3215_driver.py:161-188 | Sends one WRITE of the clamped position and speed at address 42 when open; `acc` is not sent; the write flushes the pending input, and a closed port leaves it untouched. |
| ServoDriver.Driver.GetPosition | sts3215_driver.py:190-206 | Sends READ(56, 2); the result is `PositionOf` the parsed reply, or -1 on a closed port; the unread rest of the reply stays pending, and a closed port leaves the input untouched. |
| ServoDriver.Driver.GetFeedback | sts3215_driver.py:208-228 | Sends READ(56, 6); the result is `FeedbackOf` the parsed reply, or None on a closed port; the unread rest of the reply stays pending, and a closed port leaves the input untouched. |
| ServoDriver.Driver.ChangeId | sts3215_driver.py:230-240 | Sends, in order: unlock at the old id, write the new id, lock at the new id; the writes flush the pending input, and a closed port leaves it untouched. |
| LeaderArm.WrapDelta | leader_arm_st3215.py:95-105 | The corrected difference is congruent mod 4096 and, for raw differences, lies in [-2048, 2048]. |
| LeaderArm.WrapIsShortestArc | leader_arm_st3215.py:95-105 | No difference congruent mod 4096 is shorter than the corrected one. |
| LeaderArm.Angle | leader_arm_st3215.py:86-115 | None iff the reading is -1; a reading equal to the offset is 0 degrees. |
| LeaderArm.OffsetOf | leader_arm_st3215.py:92-92 | The stored home offset of a servo, or 2048 when it has none. No contract of its own; `LeaderArm.Angle` uses it and `LeaderArm.CalibratedAnglesAreZero` states its effect. |
| LeaderArm.DirectionOf | leader_arm_st3215.py:112-112 | The stored direction of a servo, or 1 when it has none. No contract of its own; `LeaderArm.Angle` uses it. |
| LeaderArm.AngleRange | leader_arm_st3215.py:95-113 | In-range readings and offsets with direction ±1 give an angle in [-180, 180]. |
| LeaderArm.Defaults | leader_arm_st3215.py:25-26 | Exactly the configured ids, with offset 2048 and direction 1. |
| LeaderArm.InitialCalibration | leader_arm_st3215.py:25-28 | A stored calibration is taken as is; otherwise each configured id gets an offset. |
| LeaderArm.RawPositions | leader_arm_st3215.py:68-76 | One entry per configured id, holding that servo's reading (-1 when unavailable). |
| LeaderArm.AnglesOf | leader_arm_st3215.py:78-117 | Same ids as the readings; an angle is None iff its reading is -1. |
| LeaderArm.AnglesForEntries | leader_arm_st3215.py:84-117 | Filling the dict servo by servo gives exactly the listed ids, each with its `Angle`. |
| LeaderArm.AnglesForIsAnglesOf | leader_arm_st3215.py:83-117 | Servo by servo agrees with converting all readings at once. |
| LeaderArm.CalibratedAnglesAreZero | leader_arm_st3215.py:78-139 | After calibrating on a reading, every servo reads 0 degrees on that reading, whatever the directions. |
| LeaderArm.ConfigStore.constructor | leader_arm_st3215.py:150-171 | The shared file starts with the given content. |
| LeaderArm.Arm.constructor | leader_arm_st3215.py:13-28 | Keeps port, ids and file name; the calibration is `InitialCalibration` of the file; the file is untouched. |
| LeaderArm.Arm.LoadConfig | leader_arm_st3215.py:159-171 | A stored calibration replaces both maps; a missing or unparsable file changes nothing. |
| LeaderArm.Arm.SaveConfig | leader_arm_st3215.py:150-157 | The shared file now holds the current calibration. |
| LeaderArm.Arm.GetRawPositions | leader_arm_st3215.py:68-76 | The loop yields `RawPositions` of the configured ids. |
| LeaderArm.Arm.GetAngles | leader_arm_st3215.py:78-117 | The loop yields `AnglesOf` the raw readings under the current calibration. |
| LeaderArm.Arm.CalibrateHome | leader_arm_st3215.py:121-139 | Succeeds iff no servo reads -1. Then the offsets become the readings and are saved; otherwise nothing changes. Directions are never touched. |
| LeaderArm.Arm.SetDirection | leader_arm_st3215.py:142-148 | Accepts only ±1. Then it changes that one entry and saves; otherwise nothing changes. Offsets are never touched. |
| PortFinder.FindPortFrom | read_daul_leader.py:15-22 | None iff no remaining port matches; otherwise the device of the first matching port. |
| PortFinder.FindPort | read_daul_leader.py:13-22 | None iff no port has the serial or a non-empty location containing the identifier; otherwise the first such port's device. |
| PortFinder.FindPortSerialExample | read_daul_leader.py:17-18 | An exact serial match on the first port is returned. |
| PortFinder.FindPortLocationFirstExample | read_daul_leader.py:15-21 | An earlier location-substring match beats a later serial match. |
| PortFinder.FirstExactFrom | teleop_dual_main.py:60-74 | The first port from k on whose serial or location (missing = "") equals the target, or None if there is none. |
| PortFinder.Resolve | teleop_dual_main.py:57-81 | Some iff the first exact match exists and has a non-empty device path; the value is that device. |
| PortFinder.RolesAppend | teleop_dual_main.py:56 | One more target adds its role. |
| PortFinder.MatchDevice | teleop_dual_main.py:57-74 | The inner loop yields the device of the first exactly matching port, or None. |
| PortFinder.ResolveFromMatch | teleop_dual_main.py:76-81 | The entry recorded from the scan's result is `Resolve`. |
| PortFinder.LocatedKeys | teleop_dual_main.py:56-81 | `found_ports` holds exactly the roles of the target map. |
| PortFinder.LocatedValues | teleop_dual_main.py:56-81 | With distinct roles, each role maps to what its own identifier resolves to. |
| PortFinder.AllLocatedIff | teleop_dual_main.py:54-81 | `all_success` is true iff every identifier resolved. |
| PortFinder.FindPorts | teleop_dual_main.py:42-83 | The loop yields `Located` and `AllLocated` of the target list. |
| PortFinder.ResolveLocationFirstExample | teleop_dual_main.py:60-74 | No serial priority: an earlier port whose location equals the target wins over a later port whose serial equals it. |
| PortFinder.EmptyTargetMatchesMissingField | teleop_dual_main.py:63-71 | An empty identifier matches the first port lacking a serial or a location. |
| TeleopCore.Clip | teleop_main.py:68 | `np.clip`: within bounds; identity inside; saturates below and above. |
| TeleopCore.DegToRad | teleop_main.py:52-53 | Degrees to radians: the result times 180 equals the input times pi. |
| TeleopCore.MapGripper | teleop_main.py:55-70 | The ratio is in [0, 1]; 0 for a span under 0.1; open maps to 0, close to 1. |
| TeleopCore.MapGripperInvertsInterpolation | teleop_main.py:62-68 | Mapping the point t of the way from open to close gives t back. |
| TeleopCore.MapGripperMonotone | teleop_main.py:62-68 | With open below close, the ratio never decreases with the angle. |
| TeleopCore.MapGripperAntitone | teleop_main.py:62-68 | With open above close, the ratio never increases with the angle. |
| TeleopCore.ConfiguredGripperExample | teleop_main.py:21-22 | With open 50 and close 0 the guard never fires: 50→0, 0→1, 25→0.5, and the ends saturate. |
| TeleopCore.TargetState | teleop_main.py:93-102 | Seven values: joints 1-6 in radians, then the gripper ratio of joint 7. |
| TeleopCore.BuildTargetState | teleop_main.py:93-102 | The appending loop yields `TargetState`. |
| TeleopCore.Scale | teleop_main.py:105-106 | Elementwise product with the direction vector. |
| TeleopCore.ScaleInvolution | teleop_main.py:24-26 | Scaling twice by a ±1 direction vector is the identity. |
| TeleopCore.Command | teleop_main.py:93-106 | The command has seven entries. |
| TeleopCore.CommandGripperInRange | teleop_main.py:99-106 | With a gripper direction of +1, the sent gripper value is in [0, 1]. |
| TeleopCore.LeaderAngles | teleop_main.py:89-100 | The default leader reports joints 1..7. |
| TeleopCore.LeaderAnglesNoneTest | teleop_main.py:90 | "No None among the values" is exactly "every servo reported an angle". |
| TeleopCore.LeaderAnglesAvailable | teleop_main.py:89-90 | Every angle is reported iff no servo reads -1. |
| TeleopCore.HomeAnglesAreZero | teleop_main.py:81-89 | Right after calibration, on the same reading, every joint is at 0 degrees. |
| TeleopCore.HomePoseCommand | teleop_main.py:81-106 | Right after calibration, on the same reading, the command is zero joints with the gripper fully closed, for any ±1 direction vector whose gripper entry is +1. |
| TeleopCore.PacingSleep | teleop_main.py:116-118 | Sleeps iff the tick took less than 0.02 s, and then exactly the rest of the period (positive). |
| TeleopCore.PacedTickLength | teleop_main.py:116-118 | A paced tick lasts max(work, period). |
| TeleopCore.SetupLeavesNoLeaderDangling | teleop_main.py:35-50 | Torque goes off iff the leader opened; the follower connects iff both succeed; the leader is closed again iff the follower failed. |
| TeleopCore.SetupEvents | teleop_main.py:35-50 | Start-up of one pair as events. No contract of its own; `TeleopCore.SetupLeavesNoLeaderDangling` states its outcomes both ways. |
| TeleopCore.SleepEvents | teleop_main.py:116-118 | The pacing sleep of one tick as events. No contract of its own; `TeleopCore.PacingSleep` and `TeleopCore.PacedTickLength` state when and how long it sleeps. |
| TeleopCore.SendAndSleepAreTickEvents | teleop_main.py:105-118 | A tick that sends and paces emits only a well-formed command and a positive sleep. |
| TeleopSingle.MappingDirectionNegatesJointFive | teleop_main.py:24-26 | The mapping direction is ±1 and negates exactly joint 5. |
| TeleopSingle.SessionStep | teleop_main.py:85-118 | One more loop pass appends that tick's events. |
| TeleopSingle.TickEvents | teleop_main.py:86-118 | One pass of the loop as events. No contract of its own; `TeleopSingle.TickEventsSent`, `TeleopSingle.TickSkippedIffUnavailable` and `TeleopSingle.HomeTickSendsHomeCommand` state what it emits. |
| TeleopSingle.SessionEvents | teleop_main.py:85-118 | The loop over the ticks as events. No contract of its own; `TeleopSingle.SessionStep` and `TeleopSingle.SessionEventsAreTickEvents` state how it grows and what reaches the hardware. |
| TeleopSingle.TickEventsSent | teleop_main.py:89-118 | A tick with every servo available sends the command, then sleeps iff under 0.02 s. |
| TeleopSingle.TickSkippedIffUnavailable | teleop_main.py:89-90 | A tick emits nothing, not even the sleep, iff some servo reads -1. |
| TeleopSingle.SessionEventsAreTickEvents | teleop_main.py:85-118 | A whole session sends only well-formed commands and positive sleeps. |
| TeleopSingle.HomeTickSendsHomeCommand | teleop_main.py:81-118 | Right after calibration, holding the pose sends the home command and paces. |
| TeleopSingle.TeleopSystem.constructor | teleop_main.py:31-50 | Leader exists iff its port opened, with the initial calibration; exits unless both connect; events are `SetupEvents`. |
| TeleopSingle.TeleopSystem.Run | teleop_main.py:72-123 | The calibration succeeds iff no servo reads -1, with its effect on the offsets and the file; the events are the session's followed by cleanup's, and the `exited` flag is unchanged. |
| TeleopSingle.TeleopSystem.RunTicks | teleop_main.py:85-118 | The loop appends exactly `SessionEvents` of the ticks and changes only `events`. |
| TeleopSingle.TeleopSystem.RunTick | teleop_main.py:86-118 | One pass appends exactly `TickEvents` and changes only `events`. |
| TeleopSingle.TeleopSystem.Cleanup | teleop_main.py:125-127 | Issues the leader's close, then the follower's; a leader close that raises skips the follower's close; `exited` is unchanged. |
| TeleopDual.DeviceIdsAreDistinct | teleop_dual_main.py:16-24 | The four roles are distinct and are exactly the two leaders and the two followers. |
| TeleopDual.PairPorts | teleop_dual_main.py:99-112 | A side has ports iff both its identifiers resolved, and then they are the resolved devices. |
| TeleopDual.LeftPairExample | teleop_dual_main.py:42-83 | Followers sharing a serial number: the left leader is found by serial, the left follower by location. |
| TeleopDual.RightPairExample | teleop_dual_main.py:42-83 | Likewise for the right side. |
| TeleopDual.ResolvedDevices | teleop_dual_main.py:93 | The dict from `find_ports` maps each of the four roles to its identifier's resolution. |
| TeleopDual.LocateSides | teleop_dual_main.py:93-122 | Each side's ports are `PairPorts` of its two identifiers. |
| TeleopDual.SideSetupOutcome | teleop_dual_main.py:99-146 | A side is active iff its follower connected; an inactive side leaves only "torque off" and "closed" events. |
| TeleopDual.SideSetupEvents | teleop_dual_main.py:99-146 | The start-up events of one side, none when its devices did not both resolve. No contract of its own; `TeleopDual.SideSetupOutcome` states its outcomes. |
| TeleopDual.SetupArmPair | teleop_dual_main.py:128-146 | An arm is returned iff the leader opens and the follower connects, with the initial calibration; events are `SetupEvents`. |
| TeleopDual.DualSessionStep | teleop_dual_main.py:192-200 | One more loop pass appends that tick's events. |
| TeleopDual.ArmEventsSent | teleop_dual_main.py:158-176 | An active side with every servo available sends its command. |
| TeleopDual.ArmSilentIff | teleop_dual_main.py:158-166 | A side sends nothing iff it is inactive or some servo reads -1. |
| TeleopDual.DualTickAlwaysPaces | teleop_dual_main.py:195-200 | Unlike the single loop, every tick sleeps iff it took under 0.02 s, even when nothing was sent. |
| TeleopDual.ArmEvents | teleop_dual_main.py:158-176 | A side emits at most its own command, and that command is well-formed (seven values, gripper in [0, 1]). |
| TeleopDual.SidedTickEventsConcat | teleop_dual_main.py:192-200 | The safety property is preserved by concatenation. |
| TeleopDual.DualTickEvents | teleop_dual_main.py:193-200 | One tick emits only well-formed commands of the two sides, and positive sleeps. |
| TeleopDual.DualSessionEvents | teleop_dual_main.py:191-200 | A whole session emits only well-formed commands of the two sides, and positive sleeps (by induction over the ticks). |
| TeleopDual.DualHomeTick | teleop_dual_main.py:185-200 | Right after both calibrations, holding both poses sends the home command left, then right, and paces. |
| TeleopDual.CalibrationOf | teleop_dual_main.py:159-160 | A calibration exists iff the side is active. |
| TeleopDual.CloseEvents | teleop_dual_main.py:207-213 | Nothing for an inactive pair; otherwise only close events of that side, with the follower closed iff the leader's close did not raise. |
| TeleopDual.DualTeleopSystem.constructor | teleop_dual_main.py:86-126 | A side is active iff its devices resolved and both connected, with its port, file name and initial calibration; exits iff neither is active; events are left's setup, then right's. |
| TeleopDual.DualTeleopSystem.Run | teleop_dual_main.py:180-205 | Each active leader calibrates iff no servo reads -1; the shared file holds the right calibration if saved, else the left, else what it held; events are the session's, then cleanup's; `exited` is unchanged. |
| TeleopDual.DualTeleopSystem.RunTicks | teleop_dual_main.py:192-200 | The loop appends exactly `DualSessionEvents` and changes only `events`. |
| TeleopDual.DualTeleopSystem.RunTick | teleop_dual_main.py:193-200 | One pass appends the left arm's events, the right's, then the pacing sleep, and changes only `events`. |
| TeleopDual.DualTeleopSystem.ProcessSingleArm | teleop_dual_main.py:158-178 | Appends exactly `ArmEvents` for the side and changes only `events`. |
| TeleopDual.DualTeleopSystem.Cleanup | teleop_dual_main.py:207-213 | Closes each active pair, left then right; a leader close that fails skips its follower but not the other side; `exited` is unchanged. |

## Left out

Not modelled at all:
- Serial I/O, port enumeration, the wall clock and `time.sleep`. These are inputs: a reply byte
  stream, a bus map, the enumerated ports and each tick's elapsed time. Sleeps are recorded as
  events. Running out of input stands for the read timeout.
- The follower robot (`MKRobotStandalone`, `mk_driver`) is not part of this model; only the
  events it receives are recorded. A failing follower `close()` is not modelled, only a failing
  leader close. In the single-arm system that failure propagates out of `run`; the model ends
  the run there.
- The console and process control: printing, `input()`, `KeyboardInterrupt` (a run is a finite
  tick sequence ending in cleanup), `sys.exit` (the `exited` flag) and `self.running`.
- JSON reading and writing: the file is `Missing`, `Unparsable` or a `Stored` calibration. A
  parse failure after `home_offsets` was already replaced (`leader_arm_st3215.py:165-166`) is
  not modelled.
- The tool and demo scripts (`tool_*.py`, `read_7_axis.py`, the `__main__` blocks and
  `main()` of `read_daul_leader.py`), and the register and instruction constants the driver never uses
  (baud rate, acceleration, goal speed, present speed, load, voltage and temperature addresses;
  REG_WRITE, ACTION and SYNC_WRITE).
- `LeaderArm.set_torque` appears only as a "torque off" event. The leader's driver object is
  not modelled inside `Arm`: the leader reads its servos through a bus map of `get_position`
  results, and `ServoDriver` models that call.
- Whether the leader's port opens is an input. The `success` flag of `find_ports` is only
  printed by its caller, and the return string of `process_single_arm` is never used.

Not modelled exactly:
- Servo ids and instructions are `Byte` values in [0, 256). A length byte over 255 is excluded
  (`LengthFits`); no call in the source comes near it.
- Floating point is modelled as exact reals:
  - `round(final_angle, 2)` is not modelled;
  - the `float32` cast of the command is not modelled;
  - `np.pi` is the decimal literal 3.141592653589793.
- Some loops and steps are split into helper members with no counterpart of their own in the
  source:
  - `ServoDriver.Driver.SeekHeader`;
  - `PortFinder.MatchDevice`;
  - `TeleopDual.LocateSides`;
  - `TeleopSingle.TeleopSystem.RunTick`;
  - `TeleopDual.DualTeleopSystem.RunTick`.
- `TeleopSingle.TeleopSystem.RunTick`, `TeleopDual.DualTeleopSystem.RunTick` and
  `TeleopDual.DualTeleopSystem.ProcessSingleArm` take the calibration in force as an extra ghost
  argument, so that their contracts can name the events they append.
- `expected_len` of `_read_response` is ignored, as in the source. Error bytes are not
  reported.
