/**
 * The angle calibration engine of the leader arm (`LeaderArm`): per-servo home offsets and
 * directions, the raw-count to degree conversion with its 4096-count wraparound correction,
 * home calibration and direction setting, and persistence of the calibration.
 *
 * The servo bus is seen through `get_position` results: a map from servo id to the reading,
 * -1 meaning "unavailable" (an id missing from the map reads -1 too). The calibration file is a
 * `ConfigStore` object holding the file's abstract content.
 */
module LeaderArm {
  import opened Common

  const DefaultOffset: int := 2048
  const DefaultDirection: int := 1
  /** The sentinel `get_position` returns on any failure. */
  const Unavailable: int := -1
  /** Counts per revolution of the STS3215 encoder. */
  const Resolution: int := 4096
  const DefaultServoIds: seq<int> := [1, 2, 3, 4, 5, 6, 7]

  function Abs(x: int): int
  {
    if x < 0 then -x else x
  }

  /** The zero-crossing correction: a difference of more than half a turn is taken the other way round. */
  function WrapDelta(d: int): (r: int)
    ensures (r - d) % Resolution == 0
    ensures -4095 <= d <= 4095 ==> -2048 <= r <= 2048
  {
    if d > 2048 then d - 4096 else if d < -2048 then d + 4096 else d
  }

  /** The corrected difference is the shortest signed arc: no equivalent difference is shorter. */
  lemma WrapIsShortestArc(d: int, e: int)
    requires -4095 <= d <= 4095
    requires (e - d) % Resolution == 0
    ensures Abs(WrapDelta(d)) <= Abs(e)
  {
  }

  /**
   * One servo's angle in degrees: None for the unavailable sentinel, else the corrected
   * difference from the home offset, scaled by 360/4096 and multiplied by the direction.
   */
  function Angle(raw: int, offset: int, direction: int): (a: Option<real>)
    ensures a.None? <==> raw == Unavailable
    ensures raw != Unavailable && raw == offset ==> a == Some(0.0)
  {
    if raw == Unavailable then None
    else Some((WrapDelta(raw - offset) as real) * (360.0 / 4096.0) * (direction as real))
  }

  /** For in-range readings and offsets and a direction of +1 or -1, the angle lies in [-180, 180]. */
  lemma AngleRange(raw: int, offset: int, direction: int)
    requires 0 <= raw <= 4095 && 0 <= offset <= 4095
    requires direction == 1 || direction == -1
    ensures Angle(raw, offset, direction).Some?
    ensures -180.0 <= Angle(raw, offset, direction).value <= 180.0
  {
    var deg := (WrapDelta(raw - offset) as real) * (360.0 / 4096.0);
    assert -180.0 <= deg <= 180.0;
    if direction == 1 {
      assert deg * (direction as real) == deg;
    } else {
      assert deg * (direction as real) == -deg;
    }
  }

  /** `home_offsets.get(sid, 2048)`. */
  function OffsetOf(homeOffsets: map<int, int>, id: int): int
  {
    if id in homeOffsets then homeOffsets[id] else DefaultOffset
  }

  /** `directions.get(sid, 1)`. */
  function DirectionOf(directions: map<int, int>, id: int): int
  {
    if id in directions then directions[id] else DefaultDirection
  }

  /** The calibration as it is held in memory and written to the file. */
  datatype Config = Config(homeOffsets: map<int, int>, directions: map<int, int>)

  /** What the calibration file holds: nothing, something that does not parse, or a calibration. */
  datatype ConfigFile = Missing | Unparsable | Stored(config: Config)

  /** Offset 2048 and direction 1 for every configured id. */
  function Defaults(servoIds: seq<int>): (c: Config)
    ensures c.homeOffsets.Keys == c.directions.Keys == set id | id in servoIds
    ensures forall id :: id in servoIds ==> c.homeOffsets[id] == 2048 && c.directions[id] == 1
  {
    Config(map id | id in servoIds :: DefaultOffset, map id | id in servoIds :: DefaultDirection)
  }

  /** The calibration an arm starts with: the stored one if the file holds one, else the defaults. */
  function InitialCalibration(file: ConfigFile, servoIds: seq<int>): (c: Config)
    ensures file.Stored? ==> c == file.config
    ensures !file.Stored? ==> c.homeOffsets.Keys == set id | id in servoIds
  {
    if file.Stored? then file.config else Defaults(servoIds)
  }

  /** What the bus reports for one servo. */
  function Reading(bus: map<int, int>, id: int): int
  {
    if id in bus then bus[id] else Unavailable
  }

  /** `get_raw_positions`: one entry per configured id, holding that servo's reading. */
  function RawPositions(servoIds: seq<int>, bus: map<int, int>): (m: map<int, int>)
    ensures m.Keys == set id | id in servoIds
    ensures forall id :: id in servoIds ==> m[id] == Reading(bus, id)
  {
    map id | id in servoIds :: Reading(bus, id)
  }

  /** Angles in degrees by servo id, None where the servo is unavailable. */
  type Angles = map<int, Option<real>>

  /** `get_angles` on given raw readings and calibration. */
  function AnglesOf(raw: map<int, int>, cfg: Config): (m: Angles)
    ensures m.Keys == raw.Keys
    ensures forall id :: id in raw ==> (m[id].None? <==> raw[id] == Unavailable)
  {
    map id | id in raw :: Angle(raw[id], OffsetOf(cfg.homeOffsets, id), DirectionOf(cfg.directions, id))
  }

  /**
   * The same angles built one servo after the other, as the `get_angles` loop fills its dict;
   * a recursive definition, so that the verifier unfolds it only on demand.
   */
  function AnglesFor(ids: seq<int>, cfg: Config, bus: map<int, int>): Angles
  {
    if |ids| == 0 then map[]
    else
      var id := ids[|ids| - 1];
      AnglesFor(ids[..|ids| - 1], cfg, bus)[id := Angle(Reading(bus, id), OffsetOf(cfg.homeOffsets, id), DirectionOf(cfg.directions, id))]
  }

  /** Building the angles servo by servo gives every listed servo, and only those, its angle. */
  lemma {:induction false} AnglesForEntries(ids: seq<int>, cfg: Config, bus: map<int, int>)
    ensures forall x :: x in AnglesFor(ids, cfg, bus) <==> x in ids
    ensures forall x :: x in ids ==>
      AnglesFor(ids, cfg, bus)[x] == Angle(Reading(bus, x), OffsetOf(cfg.homeOffsets, x), DirectionOf(cfg.directions, x))
  {
    if |ids| > 0 {
      var init, id := ids[..|ids| - 1], ids[|ids| - 1];
      AnglesForEntries(init, cfg, bus);
      assert ids == init + [id];
    }
  }

  /** Building the angles servo by servo agrees with converting the raw readings all at once. */
  lemma AnglesForIsAnglesOf(ids: seq<int>, cfg: Config, bus: map<int, int>)
    ensures AnglesFor(ids, cfg, bus) == AnglesOf(RawPositions(ids, bus), cfg)
  {
    AnglesForEntries(ids, cfg, bus);
  }

  /** Once every servo's offset is its current reading, every servo reads 0 degrees, whatever the directions. */
  lemma CalibratedAnglesAreZero(servoIds: seq<int>, bus: map<int, int>, directions: map<int, int>)
    requires Unavailable !in RawPositions(servoIds, bus).Values
    ensures var raw := RawPositions(servoIds, bus);
      forall id :: id in raw ==> AnglesOf(raw, Config(raw, directions))[id] == Some(0.0)
  {
    var raw := RawPositions(servoIds, bus);
    forall id | id in raw
      ensures AnglesOf(raw, Config(raw, directions))[id] == Some(0.0)
    {
      assert raw[id] in raw.Values;
    }
  }

  /**
   * The single calibration file the arm reads and writes (`leader_config.json` in the working
   * directory): every arm uses it, whatever `config_file` it was given.
   */
  class ConfigStore {
    var file: ConfigFile

    constructor (initial: ConfigFile)
      ensures file == initial
    {
      file := initial;
    }
  }

  /** A leader arm: its serial port, its configured servo ids, its calibration and the file it persists to. */
  class Arm {
    const port: string
    const servoIds: seq<int>
    /** Kept as given; load and save ignore it. */
    const configFile: string
    const store: ConfigStore
    var homeOffsets: map<int, int>
    var directions: map<int, int>

    function Calibration(): Config
      reads this
    {
      Config(homeOffsets, directions)
    }

    /**
     * Start from the defaults for every configured id, then load the file: a stored calibration
     * replaces both maps wholesale, a missing or unparsable file leaves the defaults.
     */
    constructor (port: string, servoIds: seq<int>, configFile: string, store: ConfigStore)
      ensures this.port == port && this.servoIds == servoIds
      ensures this.configFile == configFile && this.store == store
      ensures store.file == old(store.file)
      ensures Calibration() == InitialCalibration(store.file, servoIds)
    {
      this.port := port;
      this.servoIds := servoIds;
      this.configFile := configFile;
      this.store := store;
      homeOffsets := map id | id in servoIds :: DefaultOffset;
      directions := map id | id in servoIds :: DefaultDirection;
      new;
      LoadConfig();
    }

    /** `load_config`: take both maps from the file if it holds a calibration, else change nothing. */
    method LoadConfig()
      modifies this
      ensures store.file.Stored? ==> Calibration() == store.file.config
      ensures !store.file.Stored? ==> Calibration() == old(Calibration())
    {
      match store.file
      case Stored(cfg) =>
        homeOffsets := cfg.homeOffsets;
        directions := cfg.directions;
      case _ =>
    }

    /** `save_config`: the file now holds the current calibration. */
    method SaveConfig()
      modifies store
      ensures store.file == Stored(Calibration())
    {
      store.file := Stored(Config(homeOffsets, directions));
    }

    /** `get_raw_positions`: read every configured servo once, in order. */
    method GetRawPositions(bus: map<int, int>) returns (positions: map<int, int>)
      ensures positions == RawPositions(servoIds, bus)
    {
      positions := map[];
      for i := 0 to |servoIds|
        invariant positions == RawPositions(servoIds[..i], bus)
      {
        var sid := servoIds[i];
        var pos := Reading(bus, sid);
        positions := positions[sid := pos];
        assert servoIds[..i + 1] == servoIds[..i] + [sid];
      }
      assert servoIds[..|servoIds|] == servoIds;
    }

    /** `get_angles`: the unavailable sentinel becomes None, every other reading an angle. */
    method GetAngles(bus: map<int, int>) returns (angles: Angles)
      ensures angles == AnglesOf(RawPositions(servoIds, bus), Calibration())
    {
      var rawData := GetRawPositions(bus);
      angles := map[];
      var todo := rawData.Keys;
      while todo != {}
        invariant todo <= rawData.Keys
        invariant angles.Keys == rawData.Keys - todo
        invariant forall id :: id in angles ==> angles[id] == AnglesOf(rawData, Calibration())[id]
        decreases |todo|
      {
        var sid :| sid in todo;
        var rawVal := rawData[sid];
        if rawVal == Unavailable {
          angles := angles[sid := None];
        } else {
          angles := angles[sid := Angle(rawVal, OffsetOf(homeOffsets, sid), DirectionOf(directions, sid))];
        }
        todo := todo - {sid};
      }
    }

    /**
     * `calibrate_home`: if any servo is unavailable, change nothing and do not save; otherwise
     * the current readings become the home offsets and the calibration is saved.
     */
    method CalibrateHome(bus: map<int, int>) returns (ok: bool)
      modifies this, store
      ensures directions == old(directions)
      ensures ok == (Unavailable !in RawPositions(servoIds, bus).Values)
      ensures ok ==> homeOffsets == RawPositions(servoIds, bus) && store.file == Stored(Calibration())
      ensures !ok ==> homeOffsets == old(homeOffsets) && store.file == old(store.file)
    {
      var currentPos := GetRawPositions(bus);
      if Unavailable in currentPos.Values {
        return false;
      }
      homeOffsets := currentPos;
      SaveConfig();
      return true;
    }

    /** `set_direction`: only 1 and -1 are accepted; an accepted value changes one entry and is saved. */
    method SetDirection(servoId: int, direction: int) returns (ok: bool)
      modifies this, store
      ensures homeOffsets == old(homeOffsets)
      ensures ok == (direction == 1 || direction == -1)
      ensures ok ==> directions == old(directions)[servoId := direction] && store.file == Stored(Calibration())
      ensures !ok ==> directions == old(directions) && store.file == old(store.file)
    {
      if direction != 1 && direction != -1 {
        return false;
      }
      directions := directions[servoId := direction];
      SaveConfig();
      return true;
    }
  }
}
