/**
 * The dual-arm teleoperation system (`DualTeleopSystem`): two leader/follower pairs, left and
 * right, whose serial devices are found by serial number or USB location (`find_ports`). A
 * side is set up only when both of its devices resolved, and the system exits when neither side
 * came up. `run` calibrates the home of every active leader, left first; each tick then
 * processes the left pair, the right pair, and paces to 50 Hz; `cleanup` closes every active
 * pair.
 *
 * Both leaders keep their calibration in the same file (see `ConfigStore`), so the last home
 * calibration saved is the only one persisted. The followers are seen only through the events
 * they receive; enumerated ports, whether each pair connects, the leaders' buses and the tick
 * timings are inputs.
 */
module TeleopDual {
  import opened Common
  import opened LeaderArm
  import opened PortFinder
  import opened TeleopCore

  const LeftLeaderId: string := "5A68012049"
  const RightLeaderId: string := "5A68009611"
  const LeftFollowerId: string := "1-9.1:1.0"
  const RightFollowerId: string := "1-7:1.0"

  /** `DEVICE_ID_CFG`: role to serial number (the leaders) or USB location (the followers), in order. */
  const DeviceIds: seq<(string, string)> := [("left_leader", LeftLeaderId), ("right_leader", RightLeaderId),
                                             ("left_follower", LeftFollowerId), ("right_follower", RightFollowerId)]

  /** The calibration file names the two leaders are given. */
  const LeftConfigFile: string := "leader_left_config.json"
  const RightConfigFile: string := "leader_right_config.json"

  /** `DIR_CFG`: neither side mirrors any joint. */
  const DualDirection: seq<real> := [1.0, 1.0, 1.0, 1.0, 1.0, 1.0, 1.0]

  /** `GRIPPER_CFG`: both sides use the configured gripper range, open at 50 degrees and closed at 0. */
  function GripperFor(side: Side): GripperRange
  {
    ConfiguredGripper
  }

  /** The device identifiers' roles are distinct, so `find_ports` gives each its own entry. */
  lemma DeviceIdsAreDistinct()
    ensures DistinctRoles(DeviceIds)
    ensures Roles(DeviceIds) == {"left_leader", "right_leader", "left_follower", "right_follower"}
  {
    assert DeviceIds[0].0 == "left_leader";
    assert DeviceIds[1].0 == "right_leader";
    assert DeviceIds[2].0 == "left_follower";
    assert DeviceIds[3].0 == "right_follower";
  }

  /** The leader and follower devices of one side, when both resolved. */
  function PairPorts(ports: seq<PortInfo>, leaderId: string, followerId: string): (r: Option<(string, string)>)
    ensures r.Some? <==> Resolve(ports, leaderId).Some? && Resolve(ports, followerId).Some?
    ensures r.Some? ==> r.value == (Resolve(ports, leaderId).value, Resolve(ports, followerId).value)
  {
    var l := Resolve(ports, leaderId);
    var f := Resolve(ports, followerId);
    if l.Some? && f.Some? then Some((l.value, f.value)) else None
  }

  /** Two followers that share one serial number, told apart by their USB locations. */
  const ExamplePorts: seq<PortInfo> := [PortInfo("/dev/ttyACM0", Some("5A68012049"), Some("1-3:1.0")),
                                        PortInfo("/dev/ttyACM1", Some("5A68009611"), Some("1-4:1.0")),
                                        PortInfo("/dev/ttyACM2", Some("0001"), Some("1-9.1:1.0")),
                                        PortInfo("/dev/ttyACM3", Some("0001"), Some("1-7:1.0"))]

  /** The left leader is found by its serial number, the left follower by its location. */
  lemma LeftPairExample()
    ensures PairPorts(ExamplePorts, LeftLeaderId, LeftFollowerId) == Some(("/dev/ttyACM0", "/dev/ttyACM2"))
  {
    assert FirstExactFrom(ExamplePorts, 0, LeftLeaderId) == Some(0);
    assert FirstExactFrom(ExamplePorts, 0, LeftFollowerId) == Some(2);
  }

  /** The right leader is found by its serial number, the right follower by its location. */
  lemma RightPairExample()
    ensures PairPorts(ExamplePorts, RightLeaderId, RightFollowerId) == Some(("/dev/ttyACM1", "/dev/ttyACM3"))
  {
    assert FirstExactFrom(ExamplePorts, 0, RightLeaderId) == Some(1);
    assert FirstExactFrom(ExamplePorts, 0, RightFollowerId) == Some(3);
  }

  /** The entries `find_ports` makes for the four roles of `DEVICE_ID_CFG`. */
  lemma ResolvedDevices(ports: seq<PortInfo>)
    ensures var resolved := Located(ports, DeviceIds);
      && "left_leader" in resolved && resolved["left_leader"] == Resolve(ports, LeftLeaderId)
      && "right_leader" in resolved && resolved["right_leader"] == Resolve(ports, RightLeaderId)
      && "left_follower" in resolved && resolved["left_follower"] == Resolve(ports, LeftFollowerId)
      && "right_follower" in resolved && resolved["right_follower"] == Resolve(ports, RightFollowerId)
  {
    DeviceIdsAreDistinct();
    LocatedValues(ports, DeviceIds, 0);
    LocatedValues(ports, DeviceIds, 1);
    LocatedValues(ports, DeviceIds, 2);
    LocatedValues(ports, DeviceIds, 3);
  }

  /**
   * Step 1 of start-up: `find_ports` on the device identifiers, then, for each side, its leader
   * and follower devices if `resolved_ports.get` gives both.
   */
  method LocateSides(ports: seq<PortInfo>) returns (leftPorts: Option<(string, string)>, rightPorts: Option<(string, string)>)
    ensures leftPorts == PairPorts(ports, LeftLeaderId, LeftFollowerId)
    ensures rightPorts == PairPorts(ports, RightLeaderId, RightFollowerId)
  {
    DeviceIdsAreDistinct();
    var resolved, success := FindPorts(ports, DeviceIds);
    ResolvedDevices(ports);
    leftPorts, rightPorts := None, None;
    if resolved["left_leader"].Some? && resolved["left_follower"].Some? {
      leftPorts := Some((resolved["left_leader"].value, resolved["left_follower"].value));
    }
    if resolved["right_leader"].Some? && resolved["right_follower"].Some? {
      rightPorts := Some((resolved["right_leader"].value, resolved["right_follower"].value));
    }
  }

  /** The start-up events of one side: nothing when its devices did not both resolve. */
  function SideSetupEvents(side: Side, pp: Option<(string, string)>, c: Connect): seq<HwEvent>
  {
    if pp.None? then [] else SetupEvents(side, pp.value.1, c)
  }

  /** A side is active exactly when both of its devices resolved and both connected. */
  predicate SideActive(pp: Option<(string, string)>, c: Connect)
  {
    pp.Some? && c.leaderOpens && c.followerConnects
  }

  /** An active side connected its follower; an inactive side left no leader open. */
  lemma SideSetupOutcome(side: Side, pp: Option<(string, string)>, c: Connect)
    ensures SideActive(pp, c) <==> exists port :: FollowerConnected(side, port) in SideSetupEvents(side, pp, c)
    ensures !SideActive(pp, c) ==> forall e :: e in SideSetupEvents(side, pp, c) ==> e == LeaderTorqueOff(side) || e == LeaderClosed(side)
  {
    if SideActive(pp, c) {
      assert FollowerConnected(side, pp.value.1) in SideSetupEvents(side, pp, c);
    }
  }

  /**
   * `setup_arm_pair`: open the leader (default servo ids, the side's calibration file) and turn
   * its torque off; then connect the follower, closing the leader again if that fails.
   */
  method SetupArmPair(side: Side, leaderPort: string, followerPort: string, configFile: string,
                      c: Connect, store: ConfigStore)
    returns (pair: Arm?, evs: seq<HwEvent>)
    ensures pair != null <==> c.leaderOpens && c.followerConnects
    ensures pair != null ==> (fresh(pair) && pair.port == leaderPort && pair.servoIds == DefaultServoIds
      && pair.configFile == configFile && pair.store == store
      && pair.Calibration() == InitialCalibration(store.file, DefaultServoIds))
    ensures evs == SetupEvents(side, followerPort, c)
  {
    if !c.leaderOpens {
      return null, [];
    }
    var leader := new Arm(leaderPort, DefaultServoIds, configFile, store);
    evs := [LeaderTorqueOff(side)];
    if !c.followerConnects {
      evs := evs + [LeaderClosed(side)];
      return null, evs;
    }
    evs := evs + [FollowerConnected(side, followerPort)];
    pair := leader;
  }

  /** What one tick of the dual loop sees: each leader's bus, and how long the tick's work took. */
  datatype DualTick = DualTick(leftBus: map<int, int>, rightBus: map<int, int>, elapsed: real)

  /**
   * `process_single_arm` for one side, given its calibration when the side is active: nothing
   * for an inactive side or when a servo is unavailable, else the command.
   */
  function ArmEvents(side: Side, cfg: Option<Config>, bus: map<int, int>): (evs: seq<HwEvent>)
    ensures forall e :: e in evs ==> TickEvent(e) && e.Sent? && e.side == side
  {
    if cfg.None? then []
    else
      var angles := LeaderAngles(cfg.value, bus);
      if !AllAvailable(angles) then []
      else
        CommandGripperInRange(angles, GripperFor(side), DualDirection);
        [Sent(side, Command(angles, GripperFor(side), DualDirection))]
  }

  /** Only well-formed commands of the two sides, and positive sleeps. */
  predicate SidedTickEvents(evs: seq<HwEvent>)
  {
    forall e :: e in evs ==> TickEvent(e) && (e.Sent? ==> e.side != Sole)
  }

  /** Two event sequences that each reach the hardware safely are safe one after the other. */
  lemma SidedTickEventsConcat(a: seq<HwEvent>, b: seq<HwEvent>)
    requires SidedTickEvents(a) && SidedTickEvents(b)
    ensures SidedTickEvents(a + b)
  {
  }

  /** One tick: the left pair, the right pair, then the pacing sleep, whatever the pairs did. */
  function DualTickEvents(left: Option<Config>, right: Option<Config>, t: DualTick): (evs: seq<HwEvent>)
    ensures SidedTickEvents(evs)
  {
    ArmEvents(Left, left, t.leftBus) + ArmEvents(Right, right, t.rightBus) + SleepEvents(t.elapsed)
  }

  /** The events of the first n ticks of a run, in order. */
  function DualSessionEvents(left: Option<Config>, right: Option<Config>, ticks: seq<DualTick>, n: nat): (evs: seq<HwEvent>)
    requires n <= |ticks|
    ensures SidedTickEvents(evs)
  {
    if n == 0 then []
    else
      var earlier, last := DualSessionEvents(left, right, ticks, n - 1), DualTickEvents(left, right, ticks[n - 1]);
      SidedTickEventsConcat(earlier, last);
      earlier + last
  }

  /** Appending the events of tick n to those of the first n ticks gives the first n + 1 ticks'. */
  lemma DualSessionStep(left: Option<Config>, right: Option<Config>, ticks: seq<DualTick>, n: nat,
                        start: seq<HwEvent>, before: seq<HwEvent>, after: seq<HwEvent>)
    requires n < |ticks|
    requires before == start + DualSessionEvents(left, right, ticks, n)
    requires after == before + DualTickEvents(left, right, ticks[n])
    ensures after == start + DualSessionEvents(left, right, ticks, n + 1)
  {
  }

  /** An active side whose servos all answered sends its command. */
  lemma ArmEventsSent(side: Side, cfg: Config, bus: map<int, int>)
    requires AllAvailable(LeaderAngles(cfg, bus))
    ensures ArmEvents(side, Some(cfg), bus) == [Sent(side, Command(LeaderAngles(cfg, bus), GripperFor(side), DualDirection))]
  {
  }

  /** A side sends nothing exactly when it is inactive or one of its servos reads unavailable. */
  lemma ArmSilentIff(side: Side, cfg: Option<Config>, bus: map<int, int>)
    ensures ArmEvents(side, cfg, bus) == [] <==> cfg.None? || Unavailable in RawPositions(DefaultServoIds, bus).Values
  {
    if cfg.Some? {
      LeaderAnglesAvailable(cfg.value, bus);
    }
  }

  /**
   * Unlike the single-arm loop, every tick paces: the tick sleeps exactly when it took less than
   * the period, even when neither side sent anything.
   */
  lemma DualTickAlwaysPaces(left: Option<Config>, right: Option<Config>, t: DualTick)
    ensures Slept(Period - t.elapsed) in DualTickEvents(left, right, t) <==> t.elapsed < Period
  {
    var evs := DualTickEvents(left, right, t);
    if Slept(Period - t.elapsed) in evs {
      var i :| 0 <= i < |evs| && evs[i] == Slept(Period - t.elapsed);
      assert i >= |ArmEvents(Left, left, t.leftBus) + ArmEvents(Right, right, t.rightBus)|;
    }
  }

  /**
   * Right after both leaders were calibrated, a tick with each held where it was calibrated
   * sends the home command to both followers, left first, and paces.
   */
  lemma DualHomeTick(leftHome: map<int, int>, rightHome: map<int, int>,
                     leftDirections: map<int, int>, rightDirections: map<int, int>, elapsed: real)
    requires Unavailable !in RawPositions(DefaultServoIds, leftHome).Values
    requires Unavailable !in RawPositions(DefaultServoIds, rightHome).Values
    ensures DualTickEvents(Some(Config(RawPositions(DefaultServoIds, leftHome), leftDirections)),
                           Some(Config(RawPositions(DefaultServoIds, rightHome), rightDirections)),
                           DualTick(leftHome, rightHome, elapsed))
         == [Sent(Left, HomeCommand), Sent(Right, HomeCommand)] + SleepEvents(elapsed)
  {
    HomePoseCommand(leftHome, leftDirections, DualDirection);
    HomePoseCommand(rightHome, rightDirections, DualDirection);
  }

  /**
   * `cleanup` for one pair: close an active leader's port, then its follower; a failure to
   * close the leader is swallowed and skips the follower (the leader's close is recorded as
   * issued either way).
   */
  function CloseEvents(side: Side, active: bool, leaderCloseRaises: bool): (evs: seq<HwEvent>)
    ensures evs == [] <==> !active
    ensures FollowerClosed(side) in evs <==> active && !leaderCloseRaises
    ensures forall e :: e in evs ==> (e.LeaderClosed? || e.FollowerClosed?) && e.side == side
  {
    if !active then []
    else [LeaderClosed(side)] + (if leaderCloseRaises then [] else [FollowerClosed(side)])
  }

  /** The calibration of an arm that is present. */
  function CalibrationOf(arm: Arm?): (c: Option<Config>)
    reads arm
    ensures c.Some? <==> arm != null
  {
    if arm == null then None else Some(arm.Calibration())
  }

  class DualTeleopSystem {
    /** The active pairs, by their leaders; null for a side that was skipped or failed to set up. */
    const left: Arm?
    const right: Arm?
    /** The calibration file both leaders share. */
    const store: ConfigStore
    /** The process exited during start-up. */
    var exited: bool
    /** What the system did to the hardware, in order. */
    var events: seq<HwEvent>

    /** Both leaders use the default servo ids and the shared file, and are distinct arms. */
    predicate Valid()
      reads this, left, right
    {
      (left != null ==> left.servoIds == DefaultServoIds && left.store == store)
      && (right != null ==> right.servoIds == DefaultServoIds && right.store == store)
      && (left != null && right != null ==> left != right)
    }

    /**
     * Start-up: resolve the four devices, set up each side whose leader and follower both
     * resolved (left first), and exit if neither side is active.
     */
    constructor (ports: seq<PortInfo>, leftConnect: Connect, rightConnect: Connect, store: ConfigStore)
      ensures Valid() && this.store == store && store.file == old(store.file)
      ensures left != null <==> SideActive(PairPorts(ports, LeftLeaderId, LeftFollowerId), leftConnect)
      ensures right != null <==> SideActive(PairPorts(ports, RightLeaderId, RightFollowerId), rightConnect)
      ensures left != null ==> (fresh(left) && left.port == PairPorts(ports, LeftLeaderId, LeftFollowerId).value.0
        && left.configFile == LeftConfigFile
        && left.Calibration() == InitialCalibration(store.file, DefaultServoIds))
      ensures right != null ==> (fresh(right) && right.port == PairPorts(ports, RightLeaderId, RightFollowerId).value.0
        && right.configFile == RightConfigFile
        && right.Calibration() == InitialCalibration(store.file, DefaultServoIds))
      ensures exited <==> left == null && right == null
      ensures events == SideSetupEvents(Left, PairPorts(ports, LeftLeaderId, LeftFollowerId), leftConnect)
                      + SideSetupEvents(Right, PairPorts(ports, RightLeaderId, RightFollowerId), rightConnect)
    {
      var leftPorts, rightPorts := LocateSides(ports);
      var leftEvents: seq<HwEvent> := [];
      var rightEvents: seq<HwEvent> := [];
      var leftPair: Arm? := null;
      var rightPair: Arm? := null;
      if leftPorts.Some? {
        leftPair, leftEvents := SetupArmPair(Left, leftPorts.value.0, leftPorts.value.1, LeftConfigFile, leftConnect, store);
      }
      if rightPorts.Some? {
        rightPair, rightEvents := SetupArmPair(Right, rightPorts.value.0, rightPorts.value.1, RightConfigFile, rightConnect, store);
      }
      left := leftPair;
      right := rightPair;
      this.store := store;
      exited := leftPair == null && rightPair == null;
      events := leftEvents + rightEvents;
    }

    /**
     * `run`: calibrate the home of each active leader (left, then right) on its home bus, run
     * the ticks and finish with `cleanup`. The shared file ends up holding the calibration
     * saved last.
     */
    method Run(leftHome: map<int, int>, rightHome: map<int, int>, ticks: seq<DualTick>,
               leftCloseRaises: bool, rightCloseRaises: bool)
      returns (leftCalibrated: bool, rightCalibrated: bool)
      requires Valid() && !exited
      modifies this`events, left, right, store
      ensures Valid() && exited == old(exited)
      ensures leftCalibrated <==> left != null && Unavailable !in RawPositions(DefaultServoIds, leftHome).Values
      ensures rightCalibrated <==> right != null && Unavailable !in RawPositions(DefaultServoIds, rightHome).Values
      ensures left != null ==> (left.directions == old(left.directions)
        && left.homeOffsets == (if leftCalibrated then RawPositions(DefaultServoIds, leftHome) else old(left.homeOffsets)))
      ensures right != null ==> (right.directions == old(right.directions)
        && right.homeOffsets == (if rightCalibrated then RawPositions(DefaultServoIds, rightHome) else old(right.homeOffsets)))
      ensures store.file == (if rightCalibrated then Stored(right.Calibration())
                             else if leftCalibrated then Stored(left.Calibration())
                             else old(store.file))
      ensures events == old(events) + DualSessionEvents(CalibrationOf(left), CalibrationOf(right), ticks, |ticks|)
        + CloseEvents(Left, left != null, leftCloseRaises) + CloseEvents(Right, right != null, rightCloseRaises)
    {
      leftCalibrated, rightCalibrated := false, false;
      if left != null {
        leftCalibrated := left.CalibrateHome(leftHome);
      }
      if right != null {
        rightCalibrated := right.CalibrateHome(rightHome);
      }
      RunTicks(ticks);
      Cleanup(leftCloseRaises, rightCloseRaises);
    }

    /** The `while self.running` loop over the ticks, until the interrupt. */
    method RunTicks(ticks: seq<DualTick>)
      requires Valid()
      modifies this`events
      ensures events == old(events) + DualSessionEvents(CalibrationOf(left), CalibrationOf(right), ticks, |ticks|)
    {
      ghost var l, r := CalibrationOf(left), CalibrationOf(right);
      for i := 0 to |ticks|
        invariant events == old(events) + DualSessionEvents(l, r, ticks, i)
      {
        ghost var before := events;
        RunTick(ticks[i], l, r);
        DualSessionStep(l, r, ticks, i, old(events), before, events);
      }
    }

    /** One pass of the loop: the left pair, the right pair, then pace (`l`, `r`: the calibrations, which the loop leaves alone). */
    method RunTick(t: DualTick, ghost l: Option<Config>, ghost r: Option<Config>)
      requires Valid() && l == CalibrationOf(left) && r == CalibrationOf(right)
      modifies this`events
      ensures events == old(events) + DualTickEvents(l, r, t)
    {
      ProcessSingleArm(Left, t.leftBus, l);
      ProcessSingleArm(Right, t.rightBus, r);
      var elapsed := t.elapsed;
      if elapsed < Period {
        events := events + [Slept(Period - elapsed)];
      }
    }

    /**
     * `process_single_arm` (`cfg`: the side's calibration, if it is active): nothing for an inactive side; else read the leader's angles, return
     * if any is None, and send the side's command to its follower.
     */
    method ProcessSingleArm(side: Side, bus: map<int, int>, ghost cfg: Option<Config>)
      requires Valid() && side != Sole && cfg == CalibrationOf(if side == Left then left else right)
      modifies this`events
      ensures events == old(events) + ArmEvents(side, cfg, bus)
    {
      var pair := if side == Left then left else right;
      if pair == null {
        return;
      }
      var leaderAngles := pair.GetAngles(bus);
      AnglesForIsAnglesOf(DefaultServoIds, pair.Calibration(), bus);
      LeaderAnglesNoneTest(pair.Calibration(), bus);
      if None in leaderAngles.Values {
        return;
      }
      var targetState := BuildTargetState(leaderAngles, GripperFor(side));
      events := events + [Sent(side, Scale(targetState, DualDirection))];
      ArmEventsSent(side, pair.Calibration(), bus);
    }

    /** `cleanup`: close every active pair, left then right; a failure in one pair does not stop the other. */
    method Cleanup(leftCloseRaises: bool, rightCloseRaises: bool)
      modifies this`events
      ensures exited == old(exited)
      ensures events == old(events) + CloseEvents(Left, left != null, leftCloseRaises)
        + CloseEvents(Right, right != null, rightCloseRaises)
    {
      if left != null {
        events := events + [LeaderClosed(Left)];
        if !leftCloseRaises {
          events := events + [FollowerClosed(Left)];
        }
      }
      if right != null {
        events := events + [LeaderClosed(Right)];
        if !rightCloseRaises {
          events := events + [FollowerClosed(Right)];
        }
      }
    }
  }
}
