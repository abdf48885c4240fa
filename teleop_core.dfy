/**
 * The per-tick logic shared by both teleoperation loops: joint angles in degrees become radians,
 * the gripper angle becomes an opening ratio in [0, 1], the seven-element command is multiplied
 * by a direction vector, and the loop is paced to 50 Hz. What a loop does to the hardware is
 * recorded as a sequence of `HwEvent`s.
 */
module TeleopCore {
  import opened Common
  import opened LeaderArm

  /** `np.pi` as a double. */
  const Pi: real := 3.141592653589793
  /** The pacing period of the 50 Hz loop, in seconds. */
  const Period: real := 0.02
  /** Six joints and the gripper. */
  const JointCount: nat := 7

  /** `deg_to_rad`: degrees times pi / 180, so that 180 degrees of angle are pi radians. */
  function DegToRad(deg: real): (rad: real)
    ensures rad * 180.0 == deg * Pi
  {
    deg * (Pi / 180.0)
  }

  /** The gripper angles at which the follower gripper is fully open and fully closed. */
  datatype GripperRange = GripperRange(open: real, close: real)

  function Span(g: GripperRange): real
  {
    g.close - g.open
  }

  /** `abs(span) < 0.1`: too narrow a range to divide by. */
  predicate Degenerate(g: GripperRange)
  {
    -0.1 < Span(g) < 0.1
  }

  /** `np.clip`. */
  function Clip(x: real, lo: real, hi: real): (r: real)
    requires lo <= hi
    ensures lo <= r <= hi
    ensures lo <= x <= hi ==> r == x
    ensures x < lo ==> r == lo
    ensures hi < x ==> r == hi
  {
    if x < lo then lo else if hi < x then hi else x
  }

  /**
   * `map_gripper`: the position of the gripper angle between open (0) and close (1), clipped
   * to [0, 1]; 0 for a degenerate range.
   */
  function MapGripper(raw: real, g: GripperRange): (ratio: real)
    ensures 0.0 <= ratio <= 1.0
    ensures Degenerate(g) ==> ratio == 0.0
    ensures !Degenerate(g) && raw == g.open ==> ratio == 0.0
    ensures !Degenerate(g) && raw == g.close ==> ratio == 1.0
  {
    if Degenerate(g) then 0.0 else Clip((raw - g.open) / Span(g), 0.0, 1.0)
  }

  /** Interpolating between open and close and mapping back gives the interpolation parameter. */
  lemma MapGripperInvertsInterpolation(t: real, g: GripperRange)
    requires !Degenerate(g) && 0.0 <= t <= 1.0
    ensures MapGripper(g.open + t * Span(g), g) == t
  {
    var s := Span(g);
    assert (g.open + t * s - g.open) / s == t * s / s;
  }

  /** With open below close, a larger gripper angle never gives a smaller ratio. */
  lemma MapGripperMonotone(a: real, b: real, g: GripperRange)
    requires !Degenerate(g) && Span(g) > 0.0 && a <= b
    ensures MapGripper(a, g) <= MapGripper(b, g)
  {
    var s := Span(g);
    assert (a - g.open) / s <= (b - g.open) / s by {
      assert (b - g.open) / s - (a - g.open) / s == (b - a) / s;
    }
  }

  /** With open above close (a reversed gripper), a larger gripper angle never gives a larger ratio. */
  lemma MapGripperAntitone(a: real, b: real, g: GripperRange)
    requires !Degenerate(g) && Span(g) < 0.0 && a <= b
    ensures MapGripper(b, g) <= MapGripper(a, g)
  {
    var s := Span(g);
    assert (b - g.open) / s <= (a - g.open) / s by {
      assert (a - g.open) / s - (b - g.open) / s == (b - a) / (-s);
    }
  }

  /** The configured gripper of both loops: open at 50 degrees, closed at 0. */
  const ConfiguredGripper: GripperRange := GripperRange(50.0, 0.0)

  /** With open 50 and close 0 the guard never fires: 50 maps to 0, 0 to 1, 25 to 0.5, and beyond either end saturates. */
  lemma ConfiguredGripperExample()
    ensures !Degenerate(ConfiguredGripper)
    ensures MapGripper(50.0, ConfiguredGripper) == 0.0
    ensures MapGripper(0.0, ConfiguredGripper) == 1.0
    ensures MapGripper(25.0, ConfiguredGripper) == 0.5
    ensures MapGripper(60.0, ConfiguredGripper) == 0.0
    ensures MapGripper(-10.0, ConfiguredGripper) == 1.0
  {
  }

  /** Every joint id 1..7 has an entry, as `leader_angles[i]` requires. */
  predicate HasJoints(angles: Angles)
  {
    forall j :: 1 <= j <= JointCount ==> j in angles
  }

  /** Every servo reported an angle. */
  predicate AllAvailable(angles: Angles)
  {
    forall id :: id in angles ==> angles[id].Some?
  }

  /** The degrees reported for joint j. */
  function JointDeg(angles: Angles, j: int): real
    requires j in angles && AllAvailable(angles)
  {
    angles[j].value
  }

  /**
   * `target_state`: joints 1..6 in radians, then the gripper ratio of joint 7.
   */
  function TargetState(angles: Angles, g: GripperRange): (t: seq<real>)
    requires HasJoints(angles) && AllAvailable(angles)
    ensures |t| == JointCount
    ensures forall i :: 0 <= i < JointCount - 1 ==> t[i] == DegToRad(JointDeg(angles, i + 1))
    ensures t[JointCount - 1] == MapGripper(JointDeg(angles, JointCount), g)
  {
    seq(JointCount, i requires 0 <= i < JointCount =>
      if i < JointCount - 1 then DegToRad(JointDeg(angles, i + 1)) else MapGripper(JointDeg(angles, JointCount), g))
  }

  /** The loop that assembles `target_state` by appending, joint after joint. */
  method BuildTargetState(angles: Angles, g: GripperRange) returns (targetState: seq<real>)
    requires HasJoints(angles) && AllAvailable(angles)
    ensures targetState == TargetState(angles, g)
  {
    targetState := [];
    for i := 1 to JointCount
      invariant |targetState| == i - 1
      invariant forall k :: 0 <= k < i - 1 ==> targetState[k] == DegToRad(JointDeg(angles, k + 1))
    {
      targetState := targetState + [DegToRad(JointDeg(angles, i))];
    }
    targetState := targetState + [MapGripper(JointDeg(angles, JointCount), g)];
  }

  /** Elementwise product with a direction vector. */
  function Scale(v: seq<real>, dir: seq<real>): (r: seq<real>)
    requires |v| == |dir|
    ensures |r| == |v|
    ensures forall i :: 0 <= i < |v| ==> r[i] == v[i] * dir[i]
  {
    seq(|v|, i requires 0 <= i < |v| => v[i] * dir[i])
  }

  /** Every direction is +1 or -1, so scaling changes at most the sign of each entry. */
  predicate IsDirectionVector(dir: seq<real>)
  {
    |dir| == JointCount && forall i :: 0 <= i < |dir| ==> dir[i] == 1.0 || dir[i] == -1.0
  }

  /** Scaling twice by a direction vector gives the command back: scaling is its own inverse. */
  lemma ScaleInvolution(v: seq<real>, dir: seq<real>)
    requires IsDirectionVector(dir) && |v| == JointCount
    ensures Scale(Scale(v, dir), dir) == v
  {
    var w := Scale(Scale(v, dir), dir);
    forall i | 0 <= i < |v|
      ensures w[i] == v[i]
    {
      if dir[i] == 1.0 {
        assert w[i] == v[i] * 1.0 * 1.0;
      } else {
        assert w[i] == v[i] * -1.0 * -1.0;
      }
    }
  }

  /** The command sent for one set of leader angles. */
  function Command(angles: Angles, g: GripperRange, dir: seq<real>): (cmd: seq<real>)
    requires HasJoints(angles) && AllAvailable(angles) && |dir| == JointCount
    ensures |cmd| == JointCount
  {
    Scale(TargetState(angles, g), dir)
  }

  /** With a direction vector whose gripper entry is +1, the gripper command stays in [0, 1]. */
  lemma CommandGripperInRange(angles: Angles, g: GripperRange, dir: seq<real>)
    requires HasJoints(angles) && AllAvailable(angles) && |dir| == JointCount && dir[JointCount - 1] == 1.0
    ensures 0.0 <= Command(angles, g, dir)[JointCount - 1] <= 1.0
  {
  }

  /** The angles a leader with the default servo ids 1..7 reports on this bus under this calibration. */
  function LeaderAngles(cfg: Config, bus: map<int, int>): (a: Angles)
    ensures HasJoints(a)
  {
    AnglesForIsAnglesOf(DefaultServoIds, cfg, bus);
    assert forall j :: 1 <= j <= JointCount ==> j in DefaultServoIds;
    AnglesFor(DefaultServoIds, cfg, bus)
  }

  /** On the leader's angles, `AllAvailable` is the test `None not in leader_angles.values()`. */
  lemma LeaderAnglesNoneTest(cfg: Config, bus: map<int, int>)
    ensures AllAvailable(LeaderAngles(cfg, bus)) <==> None !in LeaderAngles(cfg, bus).Values
  {
    var a := LeaderAngles(cfg, bus);
    AnglesForIsAnglesOf(DefaultServoIds, cfg, bus);
    if None in a.Values {
      var id :| id in a && a[id] == None;
    }
    if !AllAvailable(a) {
      var id :| id in a && a[id].None?;
      assert a[id] in a.Values;
    }
  }

  /** The leader reports every angle exactly when no servo reads unavailable. */
  lemma LeaderAnglesAvailable(cfg: Config, bus: map<int, int>)
    ensures AllAvailable(LeaderAngles(cfg, bus)) <==> Unavailable !in RawPositions(DefaultServoIds, bus).Values
  {
    var raw := RawPositions(DefaultServoIds, bus);
    var a := LeaderAngles(cfg, bus);
    AnglesForIsAnglesOf(DefaultServoIds, cfg, bus);
    if Unavailable in raw.Values {
      var id :| id in raw && raw[id] == Unavailable;
      assert a[id].None?;
    }
    if !AllAvailable(a) {
      var id :| id in a && a[id].None?;
      assert raw[id] in raw.Values;
    }
  }

  /** The command of the home pose: every joint at 0 radians, gripper closed. */
  const HomeCommand: seq<real> := [0.0, 0.0, 0.0, 0.0, 0.0, 0.0, 1.0]

  /** Right after home calibration, holding the leader where it was calibrated reads every joint at 0 degrees. */
  lemma HomeAnglesAreZero(homeBus: map<int, int>, directions: map<int, int>)
    requires Unavailable !in RawPositions(DefaultServoIds, homeBus).Values
    ensures var angles := LeaderAngles(Config(RawPositions(DefaultServoIds, homeBus), directions), homeBus);
      AllAvailable(angles) && forall j :: 1 <= j <= JointCount ==> JointDeg(angles, j) == 0.0
  {
    var cfg := Config(RawPositions(DefaultServoIds, homeBus), directions);
    AnglesForIsAnglesOf(DefaultServoIds, cfg, homeBus);
    LeaderAnglesAvailable(cfg, homeBus);
    CalibratedAnglesAreZero(DefaultServoIds, homeBus, directions);
  }

  /**
   * Right after home calibration, holding the leader where it was calibrated commands the zero
   * pose with the gripper fully closed (0 degrees is the configured close angle), whatever the
   * leader's directions and for any direction vector that keeps the gripper's sign.
   */
  lemma HomePoseCommand(homeBus: map<int, int>, directions: map<int, int>, dir: seq<real>)
    requires Unavailable !in RawPositions(DefaultServoIds, homeBus).Values
    requires IsDirectionVector(dir) && dir[JointCount - 1] == 1.0
    ensures var angles := LeaderAngles(Config(RawPositions(DefaultServoIds, homeBus), directions), homeBus);
      AllAvailable(angles) && Command(angles, ConfiguredGripper, dir) == HomeCommand
  {
    var angles := LeaderAngles(Config(RawPositions(DefaultServoIds, homeBus), directions), homeBus);
    HomeAnglesAreZero(homeBus, directions);
    var cmd := Command(angles, ConfiguredGripper, dir);
    forall i | 0 <= i < JointCount
      ensures cmd[i] == HomeCommand[i]
    {
      if dir[i] == -1.0 {
        assert cmd[i] == -TargetState(angles, ConfiguredGripper)[i];
      }
    }
  }

  /**
   * The pacing rule: sleep only when the tick took less than the period, and then exactly for
   * the rest of the period (so always a positive time).
   */
  function PacingSleep(elapsed: real): (d: Option<real>)
    ensures d.Some? <==> elapsed < Period
    ensures d.Some? ==> 0.0 < d.value && elapsed + d.value == Period
  {
    if elapsed < Period then Some(Period - elapsed) else None
  }

  /** A paced tick lasts exactly the longer of its work and the period: short ticks are padded, long ones are not caught up. */
  lemma PacedTickLength(elapsed: real)
    ensures var d := PacingSleep(elapsed);
      elapsed + (if d.Some? then d.value else 0.0) == (if elapsed < Period then Period else elapsed)
  {
  }

  /** Which arm pair an event belongs to: the single-arm system, or one side of the dual system. */
  datatype Side = Sole | Left | Right

  /** What a teleoperation loop does to the hardware. */
  datatype HwEvent =
    | LeaderTorqueOff(side: Side)
    | FollowerConnected(side: Side, port: string)
    | Sent(side: Side, action: seq<real>)
    | Slept(seconds: real)
    /** A close of the leader's port was issued; it may have raised. */
    | LeaderClosed(side: Side)
    | FollowerClosed(side: Side)

  /** How the start-up of one arm pair goes: whether the leader's port opens, whether the follower connects. */
  datatype Connect = Connect(leaderOpens: bool, followerConnects: bool)

  /**
   * Start-up of one arm pair, as events: nothing if the leader's port does not open; otherwise
   * the leader's torque goes off, then the follower connects or, failing that, the leader's
   * port is closed again.
   */
  function SetupEvents(side: Side, followerPort: string, c: Connect): seq<HwEvent>
  {
    if !c.leaderOpens then []
    else if !c.followerConnects then [LeaderTorqueOff(side), LeaderClosed(side)]
    else [LeaderTorqueOff(side), FollowerConnected(side, followerPort)]
  }

  /**
   * Start-up leaves no port half open: a leader whose torque went off is either paired with a
   * connected follower or closed again, and a follower connects only to an open leader.
   */
  lemma SetupLeavesNoLeaderDangling(side: Side, followerPort: string, c: Connect)
    ensures var evs := SetupEvents(side, followerPort, c);
      (LeaderTorqueOff(side) in evs <==> c.leaderOpens)
      && (FollowerConnected(side, followerPort) in evs <==> c.leaderOpens && c.followerConnects)
      && (LeaderClosed(side) in evs <==> c.leaderOpens && !c.followerConnects)
  {
  }

  /** The pacing sleep of one tick, as events. */
  function SleepEvents(elapsed: real): seq<HwEvent>
  {
    match PacingSleep(elapsed)
    case None => []
    case Some(d) => [Slept(d)]
  }

  /** A sent command is seven values, with the gripper ratio last in [0, 1]. */
  predicate WellFormedCommand(action: seq<real>)
  {
    |action| == JointCount && 0.0 <= action[JointCount - 1] <= 1.0
  }

  /** Every event a loop may emit within its ticks: well-formed commands and positive sleeps. */
  predicate TickEvent(e: HwEvent)
  {
    (e.Sent? ==> WellFormedCommand(e.action))
    && (e.Slept? ==> 0.0 < e.seconds)
    && (e.Sent? || e.Slept?)
  }

  /** The events of a tick that sends the command of these angles and then paces. */
  lemma SendAndSleepAreTickEvents(side: Side, angles: Angles, g: GripperRange, dir: seq<real>, elapsed: real)
    requires HasJoints(angles) && AllAvailable(angles) && |dir| == JointCount && dir[JointCount - 1] == 1.0
    ensures forall e :: e in [Sent(side, Command(angles, g, dir))] + SleepEvents(elapsed) ==> TickEvent(e)
  {
    CommandGripperInRange(angles, g, dir);
  }
}
