/**
 * The receive side of the servo protocol: the byte-by-byte header search and the parse of a
 * response frame
 *   [0xFF, 0xFF, id, length, error, params..., checksum]
 * as `_read_response` performs them, stated over the byte stream the port delivers.
 * Running out of stream stands for the read timeout.
 */
module Framer {
  import opened Common
  import opened Packet

  /** Two consecutive sync bytes end just before index k of s. */
  predicate PairEndsAt(s: seq<Byte>, k: int)
  {
    2 <= k <= |s| && s[k - 2] == Sync && s[k - 1] == Sync
  }

  /** No two consecutive sync bytes anywhere in s. */
  predicate NoSyncPair(s: seq<Byte>)
  {
    forall k :: 2 <= k <= |s| ==> !PairEndsAt(s, k)
  }

  /**
   * The `header_count` state machine from stream index i with counter `count`: a sync byte
   * increments the counter, any other byte resets it, and the scan stops right after the byte
   * that brings it to 2. The result is the index just past the header, or None when the
   * stream runs out first.
   */
  function Scan(s: seq<Byte>, i: nat, count: nat): (r: Option<nat>)
    requires i <= |s|
    ensures r.Some? ==> i < r.value <= |s|
    decreases |s| - i
  {
    if i == |s| then None
    else
      var c := if s[i] == Sync then count + 1 else 0;
      if c == 2 then Some(i + 1) else Scan(s, i + 1, c)
  }

  /** Where the header search started at the beginning of the stream stops. */
  function SyncEnd(s: seq<Byte>): Option<nat>
  {
    Scan(s, 0, 0)
  }

  /** The counter machine, started in a consistent state, stops exactly after the first sync pair. */
  lemma {:induction false} ScanFindsFirstPair(s: seq<Byte>, i: nat, count: nat)
    requires i <= |s|
    requires count == (if i > 0 && s[i - 1] == Sync then 1 else 0)
    requires forall k :: 2 <= k <= i ==> !PairEndsAt(s, k)
    ensures match Scan(s, i, count)
      case Some(e) => PairEndsAt(s, e) && forall k :: 2 <= k < e ==> !PairEndsAt(s, k)
      case None => NoSyncPair(s)
    decreases |s| - i
  {
    if i < |s| {
      var c := if s[i] == Sync then count + 1 else 0;
      if c == 2 {
        assert PairEndsAt(s, i + 1);
      } else {
        assert !PairEndsAt(s, i + 1);
        ScanFindsFirstPair(s, i + 1, c);
      }
    }
  }

  /** The header search finds the first pair of consecutive sync bytes, and fails only when there is none. */
  lemma SyncEndIsFirstPair(s: seq<Byte>)
    ensures match SyncEnd(s)
      case Some(e) => PairEndsAt(s, e) && forall k :: 2 <= k < e ==> !PairEndsAt(s, k)
      case None => NoSyncPair(s)
  {
    ScanFindsFirstPair(s, 0, 0);
  }

  /** What `_read_response` returns (`params`) and how many stream bytes it took (`consumed`). */
  datatype Reply = Reply(params: Option<seq<Byte>>, consumed: nat)

  /**
   * `_read_response` on stream s for the requested servo id: search the header, read id and
   * length, reject a length below 2, read `length` body bytes, reject a short body, reject a
   * foreign id, and return the body without its first (error) and last (checksum) byte.
   * Neither the error byte nor the checksum decides anything.
   */
  function ParseResponse(s: seq<Byte>, id: Byte): (r: Reply)
    ensures r.consumed <= |s|
    ensures r.params.Some? ==>
      var n, p := r.consumed, r.params.value;
      n >= |p| + 6 && PairEndsAt(s, n - |p| - 4)
      && s[n - |p| - 4] == id && s[n - |p| - 3] == |p| + 2 && s[n - |p| - 1..n - 1] == p
  {
    match SyncEnd(s)
    case None => Reply(None, |s|)
    case Some(e) =>
      assert e <= |s|;
      SyncEndIsFirstPair(s);
      if |s| - e < 2 then Reply(None, |s|)
      else
        var respId: Byte, len: int := s[e], s[e + 1];
        if len - 2 < 0 then Reply(None, e + 2)
        else if |s| - (e + 2) < len then Reply(None, |s|)
        else if respId != id then Reply(None, e + 2 + len)
        else Reply(Some(s[e + 3..e + 1 + len]), e + 2 + len)
  }

  /** A response frame as a servo sends it, with whatever error and checksum byte it carries. */
  function Response(id: Byte, err: Byte, params: seq<Byte>, ck: Byte): (f: seq<Byte>)
    requires LengthFits(params)
    ensures |f| == |params| + 6
  {
    [Sync, Sync, id, |params| + 2, err] + params + [ck]
  }

  /** Line noise that cannot be mistaken for (part of) a header. */
  predicate Junk(junk: seq<Byte>)
  {
    NoSyncPair(junk) && (|junk| == 0 || junk[|junk| - 1] != Sync)
  }

  /** After junk, the header search stops right after the first two sync bytes that follow it. */
  lemma SyncAfterJunk(junk: seq<Byte>, t: seq<Byte>)
    requires Junk(junk)
    ensures SyncEnd(junk + [Sync, Sync] + t) == Some(|junk| + 2)
  {
    var s := junk + [Sync, Sync] + t;
    assert PairEndsAt(s, |junk| + 2);
    forall k | 2 <= k < |junk| + 2
      ensures !PairEndsAt(s, k)
    {
      if k <= |junk| {
        assert !PairEndsAt(junk, k);
      }
    }
    SyncEndIsFirstPair(s);
  }

  /** With nothing resembling a header in the stream, the read times out having drained the stream. */
  lemma ParseTimeout(s: seq<Byte>, id: Byte)
    requires NoSyncPair(s)
    ensures ParseResponse(s, id) == Reply(None, |s|)
  {
    SyncEndIsFirstPair(s);
  }

  /**
   * Junk, then a well-formed response for the requested id, then anything: the read returns
   * that response's params whatever its error and checksum bytes, and consumes exactly up to
   * the end of the frame.
   */
  lemma ParseRoundTrip(junk: seq<Byte>, id: Byte, err: Byte, params: seq<Byte>, ck: Byte, rest: seq<Byte>)
    requires Junk(junk) && LengthFits(params)
    ensures ParseResponse(junk + Response(id, err, params, ck) + rest, id)
         == Reply(Some(params), |junk| + |params| + 6)
  {
    var f := Response(id, err, params, ck);
    var s := junk + f + rest;
    assert s == junk + [Sync, Sync] + (f[2..] + rest);
    SyncAfterJunk(junk, f[2..] + rest);
    var e := |junk| + 2;
    assert s[e] == id && s[e + 1] == |params| + 2;
    assert s[e + 3..e + 1 + |params| + 2] == params;
  }

  /** A well-formed response from any other servo is rejected, but only after its body was consumed. */
  lemma ParseRejectsOtherId(junk: seq<Byte>, id: Byte, other: Byte, err: Byte, params: seq<Byte>, ck: Byte, rest: seq<Byte>)
    requires Junk(junk) && LengthFits(params) && other != id
    ensures ParseResponse(junk + Response(other, err, params, ck) + rest, id)
         == Reply(None, |junk| + |params| + 6)
  {
    var f := Response(other, err, params, ck);
    var s := junk + f + rest;
    assert s == junk + [Sync, Sync] + (f[2..] + rest);
    SyncAfterJunk(junk, f[2..] + rest);
    var e := |junk| + 2;
    assert s[e] == other && s[e + 1] == |params| + 2;
  }

  /** A length byte below 2 is rejected right after it is read, before any body byte is taken. */
  lemma ParseRejectsShortLength(junk: seq<Byte>, respId: Byte, len: Byte, id: Byte, rest: seq<Byte>)
    requires Junk(junk) && len < 2
    ensures ParseResponse(junk + [Sync, Sync, respId, len] + rest, id) == Reply(None, |junk| + 4)
  {
    var s := junk + [Sync, Sync, respId, len] + rest;
    assert s == junk + [Sync, Sync] + ([respId, len] + rest);
    SyncAfterJunk(junk, [respId, len] + rest);
    assert s[|junk| + 3] == len;
  }

  /** A response cut off anywhere before its last byte never yields params. */
  lemma ParseRejectsTruncated(junk: seq<Byte>, id: Byte, err: Byte, params: seq<Byte>, ck: Byte, n: nat)
    requires Junk(junk) && LengthFits(params)
    requires n < |params| + 6
    ensures ParseResponse(junk + Response(id, err, params, ck)[..n], id).params == None
  {
    var f := Response(id, err, params, ck);
    var s := junk + f[..n];
    if n < 2 {
      forall k | 2 <= k <= |s|
        ensures !PairEndsAt(s, k)
      {
        if k <= |junk| {
          assert !PairEndsAt(junk, k);
        }
      }
      ParseTimeout(s, id);
    } else {
      assert s == junk + [Sync, Sync] + f[2..n];
      SyncAfterJunk(junk, f[2..n]);
      if n >= 4 {
        assert s[|junk| + 3] == |params| + 2;
      }
    }
  }

  /** Decoding the driver's own request frame recovers its params: encoder and decoder agree. */
  lemma DecodeEncode(id: Byte, instr: Byte, params: seq<Byte>)
    requires LengthFits(params)
    ensures ParseResponse(Frame(id, instr, params), id) == Reply(Some(params), |params| + 6)
  {
    var f := Frame(id, instr, params);
    FrameLayout(id, instr, params);
    assert f == [] + Response(id, instr, params, f[|f| - 1]) + [];
    ParseRoundTrip([], id, instr, params, f[|f| - 1], []);
  }
}
