/**
 * The request side of the Feetech STS/SCS serial protocol as the driver builds it:
 * instruction and register constants, the one's-complement checksum and the request frame
 *   [0xFF, 0xFF, id, length, instruction, params..., checksum]
 * with length = |params| + 2.
 */
module Packet {
  import opened Common

  // Instructions used by the driver.
  const InstPing: Byte := 1
  const InstRead: Byte := 2
  const InstWrite: Byte := 3

  // STS3215 memory map addresses used by the driver. Speed and load are read as part of the
  // six bytes from the present position on, so their own addresses are not needed.
  const AddrId: Byte := 5
  const AddrTorqueEnable: Byte := 40
  const AddrGoalPosition: Byte := 42
  const AddrLock: Byte := 55
  const AddrPresentPosition: Byte := 56

  /** The sync byte; two of them open every frame. */
  const Sync: Byte := 0xFF

  /**
   * `(~sum(payload)) & 0xFF`, written with Python's integer semantics:
   * `~x` is `-x - 1` and `& 0xFF` is the non-negative remainder modulo 256.
   */
  function Checksum(payload: seq<Byte>): (c: Byte)
    ensures c == 255 - Sum(payload) % 256
    ensures (Sum(payload) + c) % 256 == 255
  {
    (-Sum(payload) - 1) % 256
  }

  /** The length byte covers instruction/error, params and checksum, so it must fit a byte. */
  predicate LengthFits(params: seq<Byte>)
  {
    |params| + 2 < 256
  }

  /** The bytes `_write_packet` puts on the wire. */
  function Frame(id: Byte, instr: Byte, params: seq<Byte>): (f: seq<Byte>)
    requires LengthFits(params)
    ensures |f| == |params| + 6
  {
    var payload := [id, |params| + 2, instr] + params;
    [Sync, Sync] + payload + [Checksum(payload)]
  }

  /**
   * The receiver's check: everything after the two sync bytes, checksum included,
   * sums to 255 modulo 256.
   */
  predicate ChecksumValid(f: seq<Byte>)
  {
    |f| >= 3 && Sum(f[2..]) % 256 == 255
  }

  /** Layout of a request frame, field by field. */
  lemma FrameLayout(id: Byte, instr: Byte, params: seq<Byte>)
    requires LengthFits(params)
    ensures var f := Frame(id, instr, params);
      f[0] == Sync && f[1] == Sync && f[2] == id && f[3] == |params| + 2 && f[4] == instr
      && f[5..|f| - 1] == params
      && f[|f| - 1] == Checksum(f[2..|f| - 1])
  {
    var f := Frame(id, instr, params);
    assert f[2..|f| - 1] == [id, |params| + 2, instr] + params;
  }

  /** The checksum covers id, length, instruction and params (never the header) and validates. */
  lemma {:induction false} FrameChecksumValid(id: Byte, instr: Byte, params: seq<Byte>)
    requires LengthFits(params)
    ensures ChecksumValid(Frame(id, instr, params))
  {
    var payload := [id, |params| + 2, instr] + params;
    var f := Frame(id, instr, params);
    assert f[2..] == payload + [Checksum(payload)];
    SumAppend(payload, [Checksum(payload)]);
    assert Sum([Checksum(payload)]) == Checksum(payload) by {
      assert [Checksum(payload)][..0] == [];
    }
  }

  /** Changing any one byte covered by the checksum breaks the congruence. */
  lemma {:induction false} SingleByteChangeDetected(f: seq<Byte>, i: nat, b: Byte)
    requires ChecksumValid(f)
    requires 2 <= i < |f| && b != f[i]
    ensures !ChecksumValid(f[i := b])
  {
    var tail := f[2..];
    assert f[i := b][2..] == tail[i - 2 := b];
    SumUpdate(tail, i - 2, b);
    var d := b - f[i];
    assert -256 < d < 256 && d != 0;
    assert Sum(tail[i - 2 := b]) == Sum(tail) + d;
  }

  /** A frame whose checksum byte was computed correctly always validates; with the wrong one it never does. */
  lemma ChecksumByteDecides(id: Byte, instr: Byte, params: seq<Byte>, ck: Byte)
    requires LengthFits(params)
    ensures var f := Frame(id, instr, params);
      ChecksumValid(f[|f| - 1 := ck]) <==> ck == f[|f| - 1]
  {
    var f := Frame(id, instr, params);
    FrameChecksumValid(id, instr, params);
    if ck != f[|f| - 1] {
      SingleByteChangeDetected(f, |f| - 1, ck);
    } else {
      assert f[|f| - 1 := ck] == f;
    }
  }

  /** A READ of two bytes at address 56 (present position) of servo 1, byte by byte. */
  lemma ReadPositionFrameExample()
    ensures Frame(1, InstRead, [AddrPresentPosition, 2]) == [0xFF, 0xFF, 0x01, 0x04, 0x02, 0x38, 0x02, 0xBE]
  {
    var payload: seq<Byte> := [1, 4, 2, 56, 2];
    assert Sum(payload[..1]) == 1 by { assert payload[..1][..0] == []; }
    assert Sum(payload[..2]) == 5 by { assert payload[..2][..1] == payload[..1]; }
    assert Sum(payload[..3]) == 7 by { assert payload[..3][..2] == payload[..2]; }
    assert Sum(payload[..4]) == 63 by { assert payload[..4][..3] == payload[..3]; }
    assert Sum(payload) == 65 by { assert payload[..4] == payload[..|payload| - 1]; }
    var params: seq<Byte> := [AddrPresentPosition, 2];
    assert [1, |params| + 2, InstRead] + params == payload;
    assert Checksum(payload) == 0xBE;
  }
}
