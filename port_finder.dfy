/**
 * Device location: resolving a logical arm role to the serial device it is plugged into, from
 * the list of enumerated ports (device path, optional serial number, optional USB location),
 * in enumeration order. Two matching rules exist:
 *   - `AutoPortFinder.find_ports`: the serial number or the location EQUALS the target
 *     (a missing value counts as the empty string);
 *   - `find_port` of the dual-leader reader: the serial number equals the identifier, or the
 *     non-empty location CONTAINS it.
 * Either way the first port in enumeration order that matches wins.
 */
module PortFinder {
  import opened Common

  /** One enumerated serial device. */
  datatype PortInfo = PortInfo(device: string, serial: Option<string>, location: Option<string>)

  /** `x if x else ""` for an optional string. */
  function OrEmpty(s: Option<string>): string
  {
    if s.Some? then s.value else ""
  }

  /** needle occurs in hay starting at index i. */
  predicate OccursAt(needle: string, hay: string, i: int)
  {
    0 <= i <= |hay| - |needle| && hay[i..i + |needle|] == needle
  }

  /** Python's `needle in hay` on strings. */
  predicate IsSubstring(needle: string, hay: string)
  {
    exists i :: 0 <= i <= |hay| && OccursAt(needle, hay, i)
  }

  // ---------------------------------------------------------------------------------------
  // find_port (dual-leader reader)

  /** `find_port`'s test of one port: exact serial, or substring of a present, non-empty location. */
  predicate LeaderMatch(p: PortInfo, identifier: string)
  {
    (p.serial.Some? && p.serial.value == identifier)
    || (p.location.Some? && |p.location.value| > 0 && IsSubstring(identifier, p.location.value))
  }

  /** Port i is the first one `find_port` accepts. */
  predicate FirstLeaderMatch(ports: seq<PortInfo>, i: int, identifier: string)
  {
    0 <= i < |ports| && LeaderMatch(ports[i], identifier)
    && forall j :: 0 <= j < i ==> !LeaderMatch(ports[j], identifier)
  }

  /** The loop of `find_port` from port k on: return the first accepted port's device. */
  function FindPortFrom(ports: seq<PortInfo>, k: nat, identifier: string): (r: Option<string>)
    requires k <= |ports|
    ensures r.None? <==> forall j :: k <= j < |ports| ==> !LeaderMatch(ports[j], identifier)
    ensures r.Some? ==> exists i :: (k <= i < |ports| && ports[i].device == r.value
      && LeaderMatch(ports[i], identifier) && forall j :: k <= j < i ==> !LeaderMatch(ports[j], identifier))
    decreases |ports| - k
  {
    if k == |ports| then None
    else if ports[k].serial.Some? && ports[k].serial.value == identifier then Some(ports[k].device)
    else if ports[k].location.Some? && |ports[k].location.value| > 0
            && IsSubstring(identifier, ports[k].location.value) then Some(ports[k].device)
    else FindPortFrom(ports, k + 1, identifier)
  }

  /** `find_port`: the device of the first accepted port in enumeration order, None if there is none. */
  function FindPort(ports: seq<PortInfo>, identifier: string): (r: Option<string>)
    ensures r.None? <==> forall j :: 0 <= j < |ports| ==> !LeaderMatch(ports[j], identifier)
    ensures r.Some? ==> exists i :: FirstLeaderMatch(ports, i, identifier) && ports[i].device == r.value
  {
    FindPortFrom(ports, 0, identifier)
  }

  /** An exact serial match on the first port wins over a later location that contains the identifier. */
  lemma FindPortSerialExample()
    ensures FindPort([PortInfo("/dev/ttyACM0", Some("ABC123"), Some("1-2")),
                      PortInfo("/dev/ttyACM1", None, Some("x-ABC123-y"))], "ABC123")
         == Some("/dev/ttyACM0")
  {
  }

  /** No priority of serial over location: an earlier substring-location match beats a later serial match. */
  lemma FindPortLocationFirstExample()
    ensures FindPort([PortInfo("/dev/ttyACM0", None, Some("x-ABC123-y")),
                      PortInfo("/dev/ttyACM1", Some("ABC123"), Some("1-2"))], "ABC123")
         == Some("/dev/ttyACM0")
  {
    assert OccursAt("ABC123", "x-ABC123-y", 2);
  }

  // ---------------------------------------------------------------------------------------
  // AutoPortFinder.find_ports (dual teleop)

  /** `find_ports`' test of one port: the target equals the serial or the location (missing = ""). */
  predicate ExactMatch(p: PortInfo, target: string)
  {
    target == OrEmpty(p.serial) || target == OrEmpty(p.location)
  }

  /** Index of the first port from k on that `ExactMatch`es the target. */
  function FirstExactFrom(ports: seq<PortInfo>, k: nat, target: string): (r: Option<nat>)
    requires k <= |ports|
    ensures r.None? ==> forall j :: k <= j < |ports| ==> !ExactMatch(ports[j], target)
    ensures r.Some? ==> (k <= r.value < |ports| && ExactMatch(ports[r.value], target)
      && forall j :: k <= j < r.value ==> !ExactMatch(ports[j], target))
    decreases |ports| - k
  {
    if k == |ports| then None
    else if ExactMatch(ports[k], target) then Some(k)
    else FirstExactFrom(ports, k + 1, target)
  }

  /**
   * What `find_ports` records for one role: the first exactly matching port's device, or None
   * when no port matches or the matched device path is empty (`if matched_dev` takes an empty path as false).
   */
  function Resolve(ports: seq<PortInfo>, target: string): (r: Option<string>)
    ensures r.Some? <==> exists i :: (0 <= i < |ports| && ExactMatch(ports[i], target)
      && (forall j :: 0 <= j < i ==> !ExactMatch(ports[j], target)) && ports[i].device != "")
    ensures r.Some? ==> exists i :: (0 <= i < |ports| && ExactMatch(ports[i], target)
      && (forall j :: 0 <= j < i ==> !ExactMatch(ports[j], target)) && ports[i].device == r.value)
  {
    match FirstExactFrom(ports, 0, target)
    case None => None
    case Some(i) => if ports[i].device != "" then Some(ports[i].device) else None
  }

  /** The roles of a target list (the keys of `target_map`, in order). */
  function Roles(targets: seq<(string, string)>): set<string>
  {
    set i | 0 <= i < |targets| :: targets[i].0
  }

  /** Adding one more target adds its role. */
  lemma RolesAppend(targets: seq<(string, string)>, t: nat)
    requires t < |targets|
    ensures Roles(targets[..t + 1]) == Roles(targets[..t]) + {targets[t].0}
  {
    assert targets[..t + 1] == targets[..t] + [targets[t]];
    forall r | r in Roles(targets[..t + 1]) ensures r in Roles(targets[..t]) + {targets[t].0} {
      var i :| 0 <= i < t + 1 && targets[..t + 1][i].0 == r;
      if i < t { assert targets[..t][i].0 == r; }
    }
  }

  /** `target_map` is a dict: no role occurs twice. */
  predicate DistinctRoles(targets: seq<(string, string)>)
  {
    forall i, j :: 0 <= i < j < |targets| ==> targets[i].0 != targets[j].0
  }

  /** The inner scan of `find_ports`: the device of the first port whose serial or location equals the target. */
  method MatchDevice(ports: seq<PortInfo>, targetId: string) returns (matchedDev: Option<string>)
    ensures matchedDev == (match FirstExactFrom(ports, 0, targetId)
                           case None => None
                           case Some(i) => Some(ports[i].device))
  {
    matchedDev := None;
    var k := 0;
    while k < |ports|
      invariant 0 <= k <= |ports|
      invariant forall j :: 0 <= j < k ==> !ExactMatch(ports[j], targetId)
    {
      var pSn := OrEmpty(ports[k].serial);
      var pLoc := OrEmpty(ports[k].location);
      if targetId == pSn {
        matchedDev := Some(ports[k].device);
        break;
      }
      if targetId == pLoc {
        matchedDev := Some(ports[k].device);
        break;
      }
      k := k + 1;
    }
    assert matchedDev.Some? ==> FirstExactFrom(ports, 0, targetId) == Some(k);
    assert matchedDev.None? ==> FirstExactFrom(ports, 0, targetId).None?;
  }

  /** What `find_ports` records for a role, from the device the scan matched. */
  lemma ResolveFromMatch(ports: seq<PortInfo>, target: string, matchedDev: Option<string>)
    requires matchedDev == (match FirstExactFrom(ports, 0, target)
                            case None => None
                            case Some(i) => Some(ports[i].device))
    ensures Resolve(ports, target) == (if matchedDev.Some? && matchedDev.value != "" then matchedDev else None)
  {
  }

  /** The `found_ports` dict after the first roles of the target list, in order. */
  function Located(ports: seq<PortInfo>, targets: seq<(string, string)>): map<string, Option<string>>
  {
    if |targets| == 0 then map[]
    else
      var last := targets[|targets| - 1];
      Located(ports, targets[..|targets| - 1])[last.0 := Resolve(ports, last.1)]
  }

  /** `all_success` after the first roles of the target list. */
  predicate AllLocated(ports: seq<PortInfo>, targets: seq<(string, string)>)
  {
    |targets| == 0
    || (AllLocated(ports, targets[..|targets| - 1]) && Resolve(ports, targets[|targets| - 1].1).Some?)
  }

  /** The dict holds exactly the roles of the target list. */
  lemma {:induction false} LocatedKeys(ports: seq<PortInfo>, targets: seq<(string, string)>)
    ensures Located(ports, targets).Keys == Roles(targets)
  {
    if |targets| > 0 {
      var n := |targets| - 1;
      LocatedKeys(ports, targets[..n]);
      RolesAppend(targets, n);
      assert targets[..n + 1] == targets;
    }
  }

  /** With distinct roles, each role is mapped to what its own identifier resolves to. */
  lemma {:induction false} LocatedValues(ports: seq<PortInfo>, targets: seq<(string, string)>, i: nat)
    requires DistinctRoles(targets) && i < |targets|
    ensures targets[i].0 in Located(ports, targets)
    ensures Located(ports, targets)[targets[i].0] == Resolve(ports, targets[i].1)
  {
    var n := |targets| - 1;
    if i < n {
      var init := targets[..n];
      assert init[i] == targets[i];
      assert DistinctRoles(init);
      LocatedValues(ports, init, i);
    }
  }

  /** The success flag says that every role's identifier resolved. */
  lemma {:induction false} AllLocatedIff(ports: seq<PortInfo>, targets: seq<(string, string)>)
    ensures AllLocated(ports, targets) <==> forall i :: 0 <= i < |targets| ==> Resolve(ports, targets[i].1).Some?
  {
    if |targets| > 0 {
      var n := |targets| - 1;
      var init := targets[..n];
      AllLocatedIff(ports, init);
      assert forall i :: 0 <= i < n ==> init[i] == targets[i];
    }
  }

  /**
   * `AutoPortFinder.find_ports`: for every role, scan the ports in order and stop at the first
   * exact serial or location match; record the device or None, and report success only if
   * every role resolved.
   */
  method FindPorts(ports: seq<PortInfo>, targets: seq<(string, string)>)
    returns (found: map<string, Option<string>>, allSuccess: bool)
    requires DistinctRoles(targets)
    ensures found == Located(ports, targets) && allSuccess == AllLocated(ports, targets)
  {
    found := map[];
    allSuccess := true;
    for t := 0 to |targets|
      invariant found == Located(ports, targets[..t])
      invariant allSuccess == AllLocated(ports, targets[..t])
    {
      var (name, targetId) := targets[t];
      var matchedDev := MatchDevice(ports, targetId);
      ResolveFromMatch(ports, targetId, matchedDev);
      if matchedDev.Some? && matchedDev.value != "" {
        found := found[name := matchedDev];
      } else {
        found := found[name := None];
        allSuccess := false;
      }
      assert targets[..t + 1][..t] == targets[..t];
    }
    assert targets[..|targets|] == targets;
  }

  /** No global priority of serial over location: an earlier location match beats a later serial match. */
  lemma ResolveLocationFirstExample()
    ensures Resolve([PortInfo("/dev/ttyACM0", Some("5A68012049"), Some("1-7:1.0")),
                     PortInfo("/dev/ttyACM1", Some("1-7:1.0"), None)], "1-7:1.0")
         == Some("/dev/ttyACM0")
  {
  }

  /** An empty target matches the first port that lacks a serial number or a location. */
  lemma EmptyTargetMatchesMissingField(ports: seq<PortInfo>, i: nat)
    requires i < |ports| && ports[i].device != ""
    requires OrEmpty(ports[i].serial) == "" || OrEmpty(ports[i].location) == ""
    requires forall j :: 0 <= j < i ==> OrEmpty(ports[j].serial) != "" && OrEmpty(ports[j].location) != ""
    ensures Resolve(ports, "") == Some(ports[i].device)
  {
    assert ExactMatch(ports[i], "");
  }
}
