/**
 * The single-arm teleoperation system (`TeleopSystem`): one leader arm at a fixed port drives one
 * follower robot. Start-up connects the leader (torque off) and then the follower; `run`
 * calibrates the leader's home and then, tick by tick, reads the leader's angles, skips the tick
 * if any servo is unavailable, otherwise sends the seven-value command and paces to 50 Hz;
 * the loop ends (on an interrupt) in `cleanup`.
 *
 * The follower robot is seen only through the events it receives. Whether the leader port
 * opens and whether the follower connects are inputs, and so is the bus the leader reads on each
 * tick, with the time the tick's work took.
 */
module TeleopSingle {
  import opened Common
  import opened LeaderArm
  import opened TeleopCore

  const LeaderPort: string := "/dev/leader_arm_right"
  const FollowerPort: string := "/dev/ttyACM1"
  /** The calibration file name `LeaderArm` is given by default. */
  const DefaultConfigFile: string := "leader_config.json"

  /** Joint direction correction [J1..J6, gripper]: joint 5 is mirrored. */
  const MappingDirection: seq<real> := [1.0, 1.0, 1.0, 1.0, -1.0, 1.0, 1.0]

  /** The mapping direction negates joint 5 and leaves every other entry as it is. */
  lemma MappingDirectionNegatesJointFive(v: seq<real>)
    requires |v| == JointCount
    ensures IsDirectionVector(MappingDirection)
    ensures forall i :: 0 <= i < JointCount ==>
      Scale(v, MappingDirection)[i] == (if i == 4 then -v[i] else v[i])
  {
  }

  /** What one tick of the loop sees: the leader's bus, and how long the tick's work took. */
  datatype Tick = Tick(bus: map<int, int>, elapsed: real)

  /** One tick: nothing at all if a servo is unavailable, else the command followed by the pacing sleep. */
  function TickEvents(cfg: Config, t: Tick): seq<HwEvent>
  {
    var angles := LeaderAngles(cfg, t.bus);
    if !AllAvailable(angles) then []
    else [Sent(Sole, Command(angles, ConfiguredGripper, MappingDirection))] + SleepEvents(t.elapsed)
  }

  /** The events of the first n ticks of a run, in order. */
  function SessionEvents(cfg: Config, ticks: seq<Tick>, n: nat): seq<HwEvent>
    requires n <= |ticks|
  {
    if n == 0 then [] else SessionEvents(cfg, ticks, n - 1) + TickEvents(cfg, ticks[n - 1])
  }

  /** Appending the events of tick n to those of the first n ticks gives the first n + 1 ticks'. */
  lemma SessionStep(cfg: Config, ticks: seq<Tick>, n: nat, start: seq<HwEvent>, before: seq<HwEvent>, after: seq<HwEvent>)
    requires n < |ticks|
    requires before == start + SessionEvents(cfg, ticks, n)
    requires after == before + TickEvents(cfg, ticks[n])
    ensures after == start + SessionEvents(cfg, ticks, n + 1)
  {
  }

  /** A tick whose servos all answered sends the command and then paces. */
  lemma TickEventsSent(cfg: Config, t: Tick)
    requires AllAvailable(LeaderAngles(cfg, t.bus))
    ensures TickEvents(cfg, t) == [Sent(Sole, Command(LeaderAngles(cfg, t.bus), ConfiguredGripper, MappingDirection))]
      + (if t.elapsed < Period then [Slept(Period - t.elapsed)] else [])
  {
  }

  /** A tick sends nothing and does not sleep exactly when some servo reads unavailable. */
  lemma TickSkippedIffUnavailable(cfg: Config, t: Tick)
    ensures TickEvents(cfg, t) == [] <==> Unavailable in RawPositions(DefaultServoIds, t.bus).Values
  {
    LeaderAnglesAvailable(cfg, t.bus);
  }

  /** Within a session only well-formed commands and positive sleeps reach the hardware. */
  lemma {:induction false} SessionEventsAreTickEvents(cfg: Config, ticks: seq<Tick>, n: nat)
    requires n <= |ticks|
    ensures forall e :: e in SessionEvents(cfg, ticks, n) ==> TickEvent(e)
  {
    if n > 0 {
      SessionEventsAreTickEvents(cfg, ticks, n - 1);
      var t := ticks[n - 1];
      var angles := LeaderAngles(cfg, t.bus);
      if AllAvailable(angles) {
        SendAndSleepAreTickEvents(Sole, angles, ConfiguredGripper, MappingDirection, t.elapsed);
      }
    }
  }

  /** Right after home calibration, a tick with the leader held where it was calibrated sends the home command. */
  lemma HomeTickSendsHomeCommand(homeBus: map<int, int>, directions: map<int, int>, elapsed: real)
    requires Unavailable !in RawPositions(DefaultServoIds, homeBus).Values
    ensures TickEvents(Config(RawPositions(DefaultServoIds, homeBus), directions), Tick(homeBus, elapsed))
         == [Sent(Sole, HomeCommand)] + SleepEvents(elapsed)
  {
    MappingDirectionNegatesJointFive(HomeCommand);
    HomePoseCommand(homeBus, directions, MappingDirection);
  }

  class TeleopSystem {
    /** The leader arm; null when its port did not open. */
    const leader: Arm?
    /** The process exited during start-up. */
    var exited: bool
    /** What the system did to the hardware, in order. */
    var events: seq<HwEvent>

    /**
     * Start-up: if the leader port does not open, exit before any follower exists; otherwise
     * turn the leader's torque off and connect the follower; if that fails, close the leader
     * and exit.
     */
    constructor (leaderOpens: bool, followerConnects: bool, store: ConfigStore)
      ensures leaderOpens <==> leader != null
      ensures leader != null ==> (fresh(leader) && leader.port == LeaderPort
        && leader.servoIds == DefaultServoIds && leader.store == store
        && leader.Calibration() == InitialCalibration(store.file, DefaultServoIds))
      ensures store.file == old(store.file)
      ensures exited == !(leaderOpens && followerConnects)
      ensures events == SetupEvents(Sole, FollowerPort, Connect(leaderOpens, followerConnects))
    {
      if leaderOpens {
        leader := new Arm(LeaderPort, DefaultServoIds, DefaultConfigFile, store);
      } else {
        leader := null;
      }
      exited := !(leaderOpens && followerConnects);
      if !leaderOpens {
        events := [];
      } else if !followerConnects {
        events := [LeaderTorqueOff(Sole), LeaderClosed(Sole)];
      } else {
        events := [LeaderTorqueOff(Sole), FollowerConnected(Sole, FollowerPort)];
      }
    }

    /**
     * `run`: calibrate the leader's home on `homeBus` (its result is ignored), run the ticks,
     * and finish with `cleanup`.
     */
    method Run(homeBus: map<int, int>, ticks: seq<Tick>, leaderCloseRaises: bool) returns (calibrated: bool)
      requires !exited && leader != null && leader.servoIds == DefaultServoIds
      modifies this`events, leader, leader.store
      ensures exited == old(exited)
      ensures leader.directions == old(leader.directions)
      ensures calibrated == (Unavailable !in RawPositions(DefaultServoIds, homeBus).Values)
      ensures calibrated ==> (leader.homeOffsets == RawPositions(DefaultServoIds, homeBus)
        && leader.store.file == Stored(leader.Calibration()))
      ensures !calibrated ==> (leader.homeOffsets == old(leader.homeOffsets)
        && leader.store.file == old(leader.store.file))
      ensures events == old(events) + SessionEvents(leader.Calibration(), ticks, |ticks|)
        + [LeaderClosed(Sole)] + (if leaderCloseRaises then [] else [FollowerClosed(Sole)])
    {
      calibrated := leader.CalibrateHome(homeBus);
      RunTicks(ticks);
      Cleanup(leaderCloseRaises);
    }

    /** The `while self.running` loop over the ticks, until the interrupt. */
    method RunTicks(ticks: seq<Tick>)
      requires leader != null && leader.servoIds == DefaultServoIds
      modifies this`events
      ensures events == old(events) + SessionEvents(leader.Calibration(), ticks, |ticks|)
    {
      ghost var cfg := leader.Calibration();
      for i := 0 to |ticks|
        invariant events == old(events) + SessionEvents(cfg, ticks, i)
      {
        ghost var before := events;
        RunTick(ticks[i], cfg);
        SessionStep(cfg, ticks, i, old(events), before, events);
      }
    }

    /**
     * One pass of the `run` loop (`cfg`: the leader's calibration, which the loop leaves alone):
     * read the leader's angles; skip the rest of the pass (send and sleep) if any is None; else
     * assemble, scale and send the command, then pace.
     */
    method RunTick(t: Tick, ghost cfg: Config)
      requires leader != null && leader.servoIds == DefaultServoIds && cfg == leader.Calibration()
      modifies this`events
      ensures events == old(events) + TickEvents(cfg, t)
    {
      var angles := leader.GetAngles(t.bus);
      AnglesForIsAnglesOf(DefaultServoIds, cfg, t.bus);
      LeaderAnglesNoneTest(cfg, t.bus);
      if None in angles.Values {
        return;
      }
      var targetState := BuildTargetState(angles, ConfiguredGripper);
      var finalAction := Scale(targetState, MappingDirection);
      events := events + [Sent(Sole, finalAction)];
      var elapsed := t.elapsed;
      if elapsed < Period {
        events := events + [Slept(Period - elapsed)];
      }
      TickEventsSent(cfg, t);
    }

    /**
     * `cleanup`: close the leader's port, then the follower. Nothing catches a failure to close
     * the leader: the follower is then not closed and the exception leaves `run`.
     */
    method Cleanup(leaderCloseRaises: bool)
      modifies this`events
      ensures exited == old(exited)
      ensures events == old(events) + [LeaderClosed(Sole)] + (if leaderCloseRaises then [] else [FollowerClosed(Sole)])
    {
      events := events + [LeaderClosed(Sole)];
      if !leaderCloseRaises {
        events := events + [FollowerClosed(Sole)];
      }
    }
  }
}
