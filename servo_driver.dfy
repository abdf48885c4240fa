/**
 * The STS3215 register client: the driver object that owns one serial port, writes request
 * frames and reads responses, and the register encodings its operations use.
 *
 * The serial port is modelled by its open flag, the log of frames written to it (`sent`) and
 * the bytes it has received (`incoming`) with a read cursor; `incoming[cursor..]` is the
 * pending input. What a servo answers to a request is a parameter (`reply`) of the operation.
 */
module ServoDriver {
  import opened Common
  import opened Packet
  import opened Framer

  /** `x & 0xFF` on a Python integer (also for negative x). */
  function LowByte(x: int): Byte
  {
    x % 256
  }

  /** `(x >> 8) & 0xFF` on a Python integer: the shift floors, as `/` by a positive divisor does here. */
  function HighByte(x: int): Byte
  {
    (x / 256) % 256
  }

  /** `lo + (hi << 8)`: a little-endian 16-bit register value. */
  function JoinLe16(lo: Byte, hi: Byte): (v: int)
    ensures 0 <= v < 65536
  {
    lo + hi * 256
  }

  /** Splitting any integer into its two low bytes and joining them keeps it modulo 2^16. */
  lemma SplitJoin(x: int)
    ensures JoinLe16(LowByte(x), HighByte(x)) == x % 65536
  {
    var q, r := x / 256, x % 256;
    var q2, r2 := q / 256, q % 256;
    assert x == 256 * q + r;
    assert q == 256 * q2 + r2;
    assert x == 65536 * q2 + (256 * r2 + r);
    assert 0 <= 256 * r2 + r < 65536;
  }

  /** Joining two bytes and splitting the value gives the same two bytes back. */
  lemma JoinSplit(lo: Byte, hi: Byte)
    ensures LowByte(JoinLe16(lo, hi)) == lo && HighByte(JoinLe16(lo, hi)) == hi
  {
    var v := lo + hi * 256;
    assert v / 256 == hi;
  }

  /** `max(0, min(4095, position))`. */
  function ClampPosition(position: int): (c: int)
    ensures 0 <= c <= 4095
    ensures 0 <= position <= 4095 ==> c == position
    ensures position < 0 ==> c == 0
    ensures position > 4095 ==> c == 4095
  {
    if position < 0 then 0 else if position > 4095 then 4095 else position
  }

  /** Params of the goal-position write: address 42, position low/high, speed low/high. */
  function GoalPositionParams(position: int, speed: int): (ps: seq<Byte>)
    ensures |ps| == 5 && ps[0] == AddrGoalPosition
    ensures JoinLe16(ps[1], ps[2]) == ClampPosition(position)
    ensures JoinLe16(ps[3], ps[4]) == speed % 65536
  {
    var p := ClampPosition(position);
    SplitJoin(p);
    SplitJoin(speed);
    [AddrGoalPosition, LowByte(p), HighByte(p), LowByte(speed), HighByte(speed)]
  }

  /** Params of the torque write: address 40, then 1 to enable and 0 to release. */
  function TorqueParams(enable: bool): (ps: seq<Byte>)
    ensures |ps| == 2 && ps[0] == AddrTorqueEnable
    ensures ps[1] == 1 <==> enable
    ensures ps[1] == 0 <==> !enable
  {
    [AddrTorqueEnable, if enable then 1 else 0]
  }

  /** `get_position`'s decoding: exactly two params give the little-endian value, anything else -1. */
  function PositionOf(resp: Option<seq<Byte>>): (p: int)
    ensures -1 <= p < 65536
    ensures p == -1 <==> !(resp.Some? && |resp.value| == 2)
  {
    if resp.Some? && |resp.value| == 2 then JoinLe16(resp.value[0], resp.value[1]) else -1
  }

  /** A 16-bit wire value read as two's complement: values above 32767 lose 65536. */
  function ToSigned16(u: int): (v: int)
    requires 0 <= u < 65536
    ensures -32768 <= v <= 32767
    ensures (v - u) % 65536 == 0
  {
    if u > 32767 then u - 65536 else u
  }

  /** Two's-complement encoding into two bytes, then decoding, is the identity on int16. */
  lemma Signed16RoundTrip(v: int)
    requires -32768 <= v <= 32767
    ensures ToSigned16(JoinLe16(LowByte(v), HighByte(v))) == v
  {
    SplitJoin(v);
  }

  /** The `{'pos', 'speed', 'load'}` record of `get_feedback`. */
  datatype Feedback = Feedback(pos: int, speed: int, load: int)

  /** `get_feedback`'s decoding: exactly six params, else None. */
  function FeedbackOf(resp: Option<seq<Byte>>): (fb: Option<Feedback>)
    ensures fb.Some? <==> resp.Some? && |resp.value| == 6
    ensures fb.Some? ==> (0 <= fb.value.pos < 65536
      && -32768 <= fb.value.speed <= 32767 && -32768 <= fb.value.load <= 32767)
  {
    if resp.Some? && |resp.value| == 6 then
      var r := resp.value;
      Some(Feedback(JoinLe16(r[0], r[1]), ToSigned16(JoinLe16(r[2], r[3])), ToSigned16(JoinLe16(r[4], r[5]))))
    else None
  }

  /** A servo answering a position read with value v (any error and checksum byte) is read as v. */
  lemma PositionReadRoundTrip(junk: seq<Byte>, id: Byte, err: Byte, v: int, ck: Byte)
    requires Junk(junk) && 0 <= v < 65536
    ensures PositionOf(ParseResponse(junk + Response(id, err, [LowByte(v), HighByte(v)], ck), id).params) == v
  {
    var f := Response(id, err, [LowByte(v), HighByte(v)], ck);
    assert junk + f == junk + f + [];
    ParseRoundTrip(junk, id, err, [LowByte(v), HighByte(v)], ck, []);
    SplitJoin(v);
  }

  /** A servo answering a feedback read with position, speed and load is read back exactly. */
  lemma FeedbackReadRoundTrip(id: Byte, err: Byte, ck: Byte, pos: int, speed: int, load: int)
    requires 0 <= pos < 65536 && -32768 <= speed <= 32767 && -32768 <= load <= 32767
    ensures var params := [LowByte(pos), HighByte(pos), LowByte(speed), HighByte(speed), LowByte(load), HighByte(load)];
      FeedbackOf(ParseResponse(Response(id, err, params, ck), id).params) == Some(Feedback(pos, speed, load))
  {
    var params := [LowByte(pos), HighByte(pos), LowByte(speed), HighByte(speed), LowByte(load), HighByte(load)];
    assert Response(id, err, params, ck) == [] + Response(id, err, params, ck) + [];
    ParseRoundTrip([], id, err, params, ck, []);
    SplitJoin(pos);
    Signed16RoundTrip(speed);
    Signed16RoundTrip(load);
  }

  /** The three frames of `change_id`: unlock EEPROM, write the new id, lock EEPROM at the new id. */
  function ChangeIdFrames(oldId: Byte, newId: Byte): (frames: seq<seq<Byte>>)
    ensures |frames| == 3
    ensures forall k :: 0 <= k < |frames| ==> |frames[k]| == 8 && ChecksumValid(frames[k]) && frames[k][4] == InstWrite
    ensures frames[0][2] == frames[1][2] == oldId && frames[2][2] == newId
  {
    FrameChecksumValid(oldId, InstWrite, [AddrLock, 0]);
    FrameChecksumValid(oldId, InstWrite, [AddrId, newId]);
    FrameChecksumValid(newId, InstWrite, [AddrLock, 1]);
    FrameLayout(oldId, InstWrite, [AddrLock, 0]);
    FrameLayout(oldId, InstWrite, [AddrId, newId]);
    FrameLayout(newId, InstWrite, [AddrLock, 1]);
    [ Frame(oldId, InstWrite, [AddrLock, 0]),
      Frame(oldId, InstWrite, [AddrId, newId]),
      Frame(newId, InstWrite, [AddrLock, 1]) ]
  }

  /** The driver (`STSServoDriver`) and the state of the serial port it owns. */
  class Driver {
    var isOpen: bool
    var sent: seq<seq<Byte>>
    var incoming: seq<Byte>
    var cursor: nat

    ghost predicate Valid()
      reads this
    {
      cursor <= |incoming|
    }

    /** Bytes received and not yet read. */
    function Pending(): seq<Byte>
      reads this
      requires Valid()
    {
      incoming[cursor..]
    }

    /** Opening the port either succeeds (`portOpened`) or leaves the driver without a port. */
    constructor (portOpened: bool)
      ensures Valid() && isOpen == portOpened && sent == [] && Pending() == []
    {
      isOpen := portOpened;
      sent := [];
      incoming := [];
      cursor := 0;
    }

    method Close()
      requires Valid()
      modifies this
      ensures Valid() && !isOpen
      ensures sent == old(sent) && incoming == old(incoming) && cursor == old(cursor)
    {
      isOpen := false;
    }

    /** Bytes arriving from the bus; a closed port receives nothing. */
    method Receive(bytes: seq<Byte>)
      requires Valid()
      modifies this
      ensures Valid() && isOpen == old(isOpen) && sent == old(sent) && cursor == old(cursor)
      ensures incoming == old(incoming) + (if isOpen then bytes else [])
      ensures Pending() == old(Pending()) + (if isOpen then bytes else [])
    {
      if isOpen {
        incoming := incoming + bytes;
      }
    }

    /** `ser.read(n)`: up to n pending bytes, fewer when the input runs out (the timeout). */
    method ReadUpTo(n: nat) returns (bytes: seq<Byte>)
      requires Valid()
      modifies this
      ensures Valid() && isOpen == old(isOpen) && sent == old(sent) && incoming == old(incoming)
      ensures var k := if n <= |old(Pending())| then n else |old(Pending())|;
        bytes == old(Pending())[..k] && cursor == old(cursor) + k
    {
      var k := if n <= |incoming| - cursor then n else |incoming| - cursor;
      bytes := incoming[cursor..cursor + k];
      cursor := cursor + k;
    }

    /**
     * `_write_packet`: with the port open, discard pending input, send the frame and return
     * true; with the port closed, send nothing and return false.
     */
    method WritePacket(id: Byte, instr: Byte, params: seq<Byte>) returns (ok: bool)
      requires Valid() && LengthFits(params)
      modifies this
      ensures Valid() && isOpen == old(isOpen) && incoming == old(incoming)
      ensures ok == old(isOpen)
      ensures ok ==> sent == old(sent) + [Frame(id, instr, params)] && Pending() == []
      ensures !ok ==> sent == old(sent) && cursor == old(cursor)
    {
      var length := |params| + 2;
      var payload := [id, length, instr] + params;
      var checksum := Checksum(payload);
      var fullPacket := [Sync, Sync] + payload + [checksum];
      if isOpen {
        cursor := |incoming|;
        sent := sent + [fullPacket];
        return true;
      }
      return false;
    }

    /**
     * The header search of `_read_response`: consume one byte at a time until two consecutive
     * 0xFF bytes; false if the input runs out first (the timeout).
     */
    method SeekHeader() returns (found: bool)
      requires Valid() && isOpen
      modifies this
      ensures Valid() && isOpen && sent == old(sent) && incoming == old(incoming)
      ensures found <==> SyncEnd(old(Pending())).Some?
      ensures found ==> cursor == old(cursor) + SyncEnd(old(Pending())).value
      ensures !found ==> cursor == |incoming|
    {
      ghost var s := Pending();
      ghost var start := cursor;
      var headerCount := 0;
      while true
        invariant Valid() && isOpen && sent == old(sent) && incoming == old(incoming)
        invariant start <= cursor && s == incoming[start..]
        invariant headerCount < 2
        invariant Scan(s, cursor - start, headerCount) == SyncEnd(s)
        decreases |incoming| - cursor
      {
        if cursor == |incoming| {
          // the stream is exhausted: the timeout
          return false;
        }
        var b := incoming[cursor];
        cursor := cursor + 1;
        if b == Sync {
          headerCount := headerCount + 1;
        } else {
          headerCount := 0;
        }
        if headerCount == 2 {
          break;
        }
      }
      return true;
    }

    /**
     * `_read_response`: the header search consumes one byte at a time, then id and length,
     * then the body. `expectedLen` has no effect, as in the source.
     */
    method ReadResponse(id: Byte, expectedLen: int) returns (resp: Option<seq<Byte>>)
      requires Valid()
      modifies this
      ensures Valid() && isOpen == old(isOpen) && sent == old(sent) && incoming == old(incoming)
      ensures old(isOpen) ==> (resp == ParseResponse(old(Pending()), id).params
        && cursor == old(cursor) + ParseResponse(old(Pending()), id).consumed)
      ensures !old(isOpen) ==> resp == None && cursor == old(cursor)
    {
      if !isOpen {
        return None;
      }
      ghost var s := Pending();
      ghost var start := cursor;
      var found := SeekHeader();
      if !found {
        return None;
      }
      ghost var e := cursor - start;
      assert SyncEnd(s) == Some(e);
      assert Pending() == s[e..];
      var meta := ReadUpTo(2);
      if |meta| < 2 {
        return None;
      }
      assert meta == s[e..e + 2];
      var respId: Byte, respLen: int := meta[0], meta[1];
      var remaining := respLen - 2;
      if remaining < 0 {
        return None;
      }
      assert Pending() == s[e + 2..];
      var body := ReadUpTo(respLen);
      if |body| != respLen {
        return None;
      }
      // body[0] is the servo's error byte and the last byte its checksum: neither is acted on
      var params := body[1..|body| - 1];
      assert body == s[e + 2..e + 2 + respLen];
      assert params == s[e + 3..e + 1 + respLen];
      if respId != id {
        return None;
      }
      return Some(params);
    }

    /** Write a request, let the servo answer `reply`, read the response. */
    method Exchange(id: Byte, instr: Byte, params: seq<Byte>, reply: seq<Byte>) returns (resp: Option<seq<Byte>>)
      requires Valid() && LengthFits(params)
      modifies this
      ensures Valid() && isOpen == old(isOpen)
      ensures sent == old(sent) + (if isOpen then [Frame(id, instr, params)] else [])
      ensures resp == (if isOpen then ParseResponse(reply, id).params else None)
      ensures isOpen ==> Pending() == reply[ParseResponse(reply, id).consumed..]
      ensures !isOpen ==> incoming == old(incoming) && cursor == old(cursor)
    {
      var _ := WritePacket(id, instr, params);
      Receive(reply);
      resp := ReadResponse(id, 0);
    }

    /** `ping`: the servo is present iff a response with its id comes back. */
    method Ping(id: Byte, reply: seq<Byte>) returns (present: bool)
      requires Valid()
      modifies this
      ensures Valid() && isOpen == old(isOpen)
      ensures sent == old(sent) + (if isOpen then [Frame(id, InstPing, [])] else [])
      ensures present == (isOpen && ParseResponse(reply, id).params.Some?)
      ensures isOpen ==> Pending() == reply[ParseResponse(reply, id).consumed..]
      ensures !isOpen ==> incoming == old(incoming) && cursor == old(cursor)
    {
      var resp := Exchange(id, InstPing, [], reply);
      present := resp.Some?;
    }

    /** `enable_torque`: write 1 or 0 to the torque-enable register. */
    method EnableTorque(id: Byte, enable: bool)
      requires Valid()
      modifies this
      ensures Valid() && isOpen == old(isOpen)
      ensures sent == old(sent) + (if isOpen then [Frame(id, InstWrite, TorqueParams(enable))] else [])
      ensures incoming == old(incoming)
      ensures isOpen ==> Pending() == []
      ensures !isOpen ==> cursor == old(cursor)
    {
      var val := if enable then 1 else 0;
      var _ := WritePacket(id, InstWrite, [AddrTorqueEnable, val]);
    }

    /** `set_position`: one write at address 42 of the clamped position and the speed; `acc` is never sent. */
    method SetPosition(id: Byte, position: int, speed: int, acc: int)
      requires Valid()
      modifies this
      ensures Valid() && isOpen == old(isOpen)
      ensures sent == old(sent) + (if isOpen then [Frame(id, InstWrite, GoalPositionParams(position, speed))] else [])
      ensures incoming == old(incoming)
      ensures isOpen ==> Pending() == []
      ensures !isOpen ==> cursor == old(cursor)
    {
      var p := if 4095 < position then 4095 else position;
      p := if 0 < p then p else 0;
      var posL, posH := LowByte(p), HighByte(p);
      var spdL, spdH := LowByte(speed), HighByte(speed);
      var params := [AddrGoalPosition, posL, posH, spdL, spdH];
      var _ := WritePacket(id, InstWrite, params);
    }

    /** `get_position`: the two-byte present position, or -1 on any failure. */
    method GetPosition(id: Byte, reply: seq<Byte>) returns (position: int)
      requires Valid()
      modifies this
      ensures Valid() && isOpen == old(isOpen)
      ensures sent == old(sent) + (if isOpen then [Frame(id, InstRead, [AddrPresentPosition, 2])] else [])
      ensures position == (if isOpen then PositionOf(ParseResponse(reply, id).params) else -1)
      ensures isOpen ==> Pending() == reply[ParseResponse(reply, id).consumed..]
      ensures !isOpen ==> incoming == old(incoming) && cursor == old(cursor)
    {
      var resp := Exchange(id, InstRead, [AddrPresentPosition, 2], reply);
      if resp.Some? && |resp.value| > 0 && |resp.value| == 2 {
        position := resp.value[0] + (resp.value[1] as int) * 256;
      } else {
        position := -1;
      }
    }

    /** `get_feedback`: position, signed speed and signed load from six bytes at address 56, or None. */
    method GetFeedback(id: Byte, reply: seq<Byte>) returns (fb: Option<Feedback>)
      requires Valid()
      modifies this
      ensures Valid() && isOpen == old(isOpen)
      ensures sent == old(sent) + (if isOpen then [Frame(id, InstRead, [AddrPresentPosition, 6])] else [])
      ensures fb == (if isOpen then FeedbackOf(ParseResponse(reply, id).params) else None)
      ensures isOpen ==> Pending() == reply[ParseResponse(reply, id).consumed..]
      ensures !isOpen ==> incoming == old(incoming) && cursor == old(cursor)
    {
      var resp := Exchange(id, InstRead, [AddrPresentPosition, 6], reply);
      if resp.Some? && |resp.value| > 0 && |resp.value| == 6 {
        var r := resp.value;
        var pos := r[0] + (r[1] as int) * 256;
        var spd := r[2] + (r[3] as int) * 256;
        if spd > 32767 {
          spd := spd - 65536;
        }
        var load := r[4] + (r[5] as int) * 256;
        if load > 32767 {
          load := load - 65536;
        }
        fb := Some(Feedback(pos, spd, load));
      } else {
        fb := None;
      }
    }

    /** `change_id`: three writes in a fixed order, with no check on `newId` and no read-back. */
    method ChangeId(oldId: Byte, newId: Byte)
      requires Valid()
      modifies this
      ensures Valid() && isOpen == old(isOpen)
      ensures sent == old(sent) + (if isOpen then ChangeIdFrames(oldId, newId) else [])
      ensures incoming == old(incoming)
      ensures isOpen ==> Pending() == []
      ensures !isOpen ==> cursor == old(cursor)
    {
      var _ := WritePacket(oldId, InstWrite, [AddrLock, 0]);
      var _ := WritePacket(oldId, InstWrite, [AddrId, newId]);
      var _ := WritePacket(newId, InstWrite, [AddrLock, 1]);
    }
  }
}
