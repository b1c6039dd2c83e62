/** The length-prefixed frames between the enclave's TAP device and the proxy on the
    host: rx wraps what the device sends, tx unwraps what the host sends. */
module Frames {
  import opened Common
  import opened Streams

  const FRAME_LEN := 0xffff
  const FRAME_SIZE_LEN := 2

  // --------------------------------------------------------- on whole sequences

  type Frame = f: Bytes | |f| <= FRAME_LEN witness []

  function Header(n: nat): Bytes
    requires n <= FRAME_LEN
  {
    [(n % 256) as byte, (n / 256) as byte]
  }

  function SizeOf(b: Bytes): nat
    requires |b| >= FRAME_SIZE_LEN
  {
    b[0] as nat + 256 * b[1] as nat
  }

  /** The bytes that rx sends for frames. */
  function Encode(frames: seq<Frame>): Bytes {
    if frames == [] then []
    else Encode(frames[..|frames| - 1]) + Header(|frames[|frames| - 1]|) + frames[|frames| - 1]
  }

  /** The first frame of a stream, if it is complete and not empty. */
  predicate StartsWithFrame(b: Bytes) {
    |b| >= FRAME_SIZE_LEN && 0 < SizeOf(b) <= |b| - FRAME_SIZE_LEN
  }

  /** What tx delivers from a stream. */
  function Decode(b: Bytes): seq<Frame> {
    if !StartsWithFrame(b) then []
    else
      var end := FRAME_SIZE_LEN + SizeOf(b);
      [b[FRAME_SIZE_LEN..end]] + Decode(b[end..])
  }

  /** The 16-bit length never truncates. */
  lemma HeaderRoundTrip(n: nat, b: Bytes)
    requires n <= 65535
    ensures SizeOf(Header(n) + b) == n
  {
  }

  lemma {:induction false} EncodeCons(f: Frame, frames: seq<Frame>)
    ensures Encode([f] + frames) == Header(|f|) + f + Encode(frames)
  {
    if frames == [] {
      assert [f] + frames == [f] && [f][..0] == [];
    } else {
      var k := |frames| - 1;
      EncodeCons(f, frames[..k]);
      assert ([f] + frames)[..|frames|] == [f] + frames[..k];
      var last := frames[k];
      calc {
        Encode([f] + frames);
        Encode([f] + frames[..k]) + Header(|last|) + last;
        (Header(|f|) + f + Encode(frames[..k])) + Header(|last|) + last;
        Header(|f|) + f + (Encode(frames[..k]) + Header(|last|) + last);
      }
    }
  }

  lemma {:induction false} EncodePrefix(frames: seq<Frame>, k: nat)
    requires k <= |frames|
    ensures Encode(frames[..k]) <= Encode(frames)
    decreases |frames|
  {
    if k == |frames| {
      assert frames[..k] == frames;
    } else {
      EncodePrefix(frames[..|frames| - 1], k);
      assert frames[..|frames| - 1][..k] == frames[..k];
    }
  }

  /** Where frame i is in the stream: behind the frames before it come its length, low byte
      first, and then its bytes. */
  lemma EncodeLayout(frames: seq<Frame>, i: nat)
    requires i < |frames|
    ensures var at, n := |Encode(frames[..i])|, |frames[i]|;
      && at + 2 + n <= |Encode(frames)|
      && Encode(frames)[at] as int == n % 256 && Encode(frames)[at + 1] as int == n / 256
      && Encode(frames)[at + 2..at + 2 + n] == frames[i]
  {
    var upTo := frames[..i + 1];
    EncodePrefix(frames, i + 1);
    assert upTo[..i] == frames[..i] && upTo[i] == frames[i];
    var at, n := |Encode(frames[..i])|, |frames[i]|;
    assert Encode(upTo) == Encode(frames[..i]) + Header(n) + frames[i];
    assert Encode(upTo)[at..] == Header(n) + frames[i];
    assert Encode(frames)[at..at + 2 + n] == Encode(upTo)[at..];
  }

  /** Position of the first empty frame. */
  function UntilEmpty(frames: seq<Frame>): (k: nat)
    ensures k <= |frames| && (k < |frames| ==> frames[k] == [])
    ensures forall i :: 0 <= i < k ==> frames[i] != []
  {
    if frames == [] || frames[0] == [] then 0 else 1 + UntilEmpty(frames[1..])
  }

  lemma DecodeStep(f: Frame, b: Bytes)
    requires f != []
    ensures Decode(Header(|f|) + f + b) == [f] + Decode(b)
  {
    var s := Header(|f|) + f + b;
    assert s == Header(|f|) + (f + b);
    HeaderRoundTrip(|f|, f + b);
    var end := FRAME_SIZE_LEN + |f|;
    assert s[FRAME_SIZE_LEN..end] == f;
    assert s[end..] == b;
  }

  /** Round trip, for every sequence of frames: decoding what was encoded gives the
      frames up to the first empty one, so all of them iff none is empty. */
  lemma {:induction false} RoundTrip(frames: seq<Frame>)
    ensures Decode(Encode(frames)) == frames[..UntilEmpty(frames)]
    ensures Decode(Encode(frames)) == frames <==> forall i :: 0 <= i < |frames| ==> frames[i] != []
    decreases |frames|
  {
    if frames != [] {
      var f, more := frames[0], frames[1..];
      assert frames == [f] + more;
      EncodeCons(f, more);
      if f == [] {
        HeaderRoundTrip(0, f + Encode(more));
        assert Encode(frames) == Header(0) + (f + Encode(more));
      } else {
        DecodeStep(f, Encode(more));
        RoundTrip(more);
        assert frames[..UntilEmpty(frames)] == [f] + more[..UntilEmpty(more)];
      }
    }
  }

  /** A nonempty frame begins a stream iff the stream decodes to it first. */
  lemma DecodeTakesFrame(f: Frame, b: Bytes)
    requires f != [] && Header(|f|) + f <= b
    ensures Decode(b) == [f] + Decode(b[FRAME_SIZE_LEN + |f|..])
  {
    var rest := b[FRAME_SIZE_LEN + |f|..];
    assert b == Header(|f|) + f + rest;
    DecodeStep(f, rest);
  }

  /** On an arbitrary stream, decoding yields the maximal prefix of complete nonempty
      frames: they encode to a prefix of the stream, and what follows does not start with
      a complete nonempty frame. */
  lemma {:induction false} DecodeIsMaximal(b: Bytes)
    ensures forall i :: 0 <= i < |Decode(b)| ==> Decode(b)[i] != []
    ensures Encode(Decode(b)) <= b && !StartsWithFrame(b[|Encode(Decode(b))|..])
    decreases |b|
  {
    if StartsWithFrame(b) {
      var end := FRAME_SIZE_LEN + SizeOf(b);
      var more := Decode(b[end..]);
      DecodeIsMaximal(b[end..]);
      EncodeCons(b[FRAME_SIZE_LEN..end], more);
      HeaderOfSize(b);
      PrefixBehind(b[..end], b[end..], Encode(more));
      assert b == b[..end] + b[end..];
      assert b[..end] == b[..FRAME_SIZE_LEN] + b[FRAME_SIZE_LEN..end];
    }
  }

  lemma PrefixBehind(a: Bytes, b: Bytes, e: Bytes)
    requires e <= b
    ensures a + e <= a + b && (a + b)[|a + e|..] == b[|e|..]
  {
  }

  lemma HeaderOfSize(b: Bytes)
    requires |b| >= FRAME_SIZE_LEN
    ensures SizeOf(b) <= FRAME_LEN && Header(SizeOf(b)) == b[..FRAME_SIZE_LEN]
  {
  }

  /** Every list of nonempty frames whose encoding begins the stream is delivered first. */
  lemma {:induction false} DecodeContainsAll(b: Bytes, frames: seq<Frame>)
    requires Encode(frames) <= b && forall i :: 0 <= i < |frames| ==> frames[i] != []
    ensures frames <= Decode(b)
    decreases |frames|
  {
    if frames != [] {
      var f, more := frames[0], frames[1..];
      assert frames == [f] + more;
      EncodeCons(f, more);
      assert Header(|f|) + f <= b;
      DecodeTakesFrame(f, b);
      var rest := b[FRAME_SIZE_LEN + |f|..];
      assert Encode(more) == Encode(frames)[FRAME_SIZE_LEN + |f|..];
      assert Encode(more) <= rest;
      DecodeContainsAll(rest, more);
    }
  }

  // --------------------------------------------------------------- cut streams

  /** One frame as it goes over the connection. */
  function Wrapped(f: Frame): Bytes {
    Header(|f|) + f
  }

  /** The bytes hold the first k frames and at most a proper part of the next. */
  predicate CutAfter(frames: seq<Frame>, k: nat, bytes: Bytes) {
    && k <= |frames| && Encode(frames[..k]) <= bytes
    && if k == |frames| then bytes == Encode(frames)
       else bytes[|Encode(frames[..k])|..] < Wrapped(frames[k])
  }

  lemma PartIsNoFrame(f: Frame, part: Bytes)
    requires part < Wrapped(f)
    ensures !StartsWithFrame(part)
  {
    if |part| >= FRAME_SIZE_LEN {
      assert part[0] == Header(|f|)[0] && part[1] == Header(|f|)[1];
    }
  }

  /** A part of a frame at the end of a stream adds nothing. */
  lemma {:induction false} DecodeIgnoresPart(frames: seq<Frame>, part: Bytes)
    requires !StartsWithFrame(part)
    ensures Decode(Encode(frames) + part) == Decode(Encode(frames))
    decreases |frames|
  {
    if frames == [] {
      assert Encode(frames) + part == part;
    } else {
      var f, more := frames[0], frames[1..];
      assert frames == [f] + more;
      EncodeCons(f, more);
      var rest := Encode(more) + part;
      assert Encode(frames) + part == Header(|f|) + f + rest;
      if f == [] {
        HeaderRoundTrip(0, f + rest);
        HeaderRoundTrip(0, f + Encode(more));
        assert Encode(frames) == Header(0) + (f + Encode(more)) && Encode(frames) + part == Header(0) + (f + rest);
      } else {
        DecodeStep(f, rest);
        DecodeStep(f, Encode(more));
        DecodeIgnoresPart(more, part);
      }
    }
  }

  /** The frames that tx can get out of the first k. */
  function Deliverable(frames: seq<Frame>, k: nat): seq<Frame>
    requires k <= |frames|
  {
    frames[..k][..UntilEmpty(frames[..k])]
  }

  /** A stream that breaks off in a frame still decodes to the complete ones before it, up
      to the first empty one. */
  lemma BrokenRoundTrip(frames: seq<Frame>, k: nat, bytes: Bytes)
    requires CutAfter(frames, k, bytes)
    ensures Decode(bytes) == Deliverable(frames, k)
    ensures Decode(bytes) == frames[..k] <==> forall i :: 0 <= i < k ==> frames[i] != []
  {
    var whole := Encode(frames[..k]);
    var part := bytes[|whole|..];
    assert bytes == whole + part;
    if k == |frames| {
      assert frames[..k] == frames && part == [];
    } else {
      PartIsNoFrame(frames[k], part);
    }
    DecodeIgnoresPart(frames[..k], part);
    RoundTrip(frames[..k]);
    assert forall i :: 0 <= i < k ==> frames[..k][i] == frames[i];
  }

  // ------------------------------------------------------------------- rx, tx

  /** The TAP device: frames that it has to offer, frames that it was handed.  Writing may
      fail at any time. */
  class Tap {
    var outgoing: seq<Frame>
    var received: seq<Bytes>

    constructor (outgoing: seq<Frame>)
      ensures this.outgoing == outgoing && received == []
    {
      this.outgoing, received := outgoing, [];
    }

    /** One frame per read, into buf[lo..]. */
    method Read(buf: array<byte>, lo: nat) returns (n: nat, ok: bool)
      requires lo + FRAME_LEN <= buf.Length
      modifies `outgoing, buf
      ensures ok <==> old(outgoing) != []
      ensures ok ==> outgoing == old(outgoing)[1..] && n == |old(outgoing)[0]|
      ensures ok ==> buf[lo..lo + n] == old(outgoing)[0]
      ensures !ok ==> outgoing == old(outgoing)
    {
      n, ok := 0, outgoing != [];
      if ok {
        var f := outgoing[0];
        n := |f|;
        forall i | 0 <= i < n {
          buf[lo + i] := f[i];
        }
        outgoing := outgoing[1..];
      }
    }

    /** Takes any part of the frame, and may or may not admit it. */
    method Write(buf: array<byte>, lo: nat, hi: nat) returns (m: nat, ok: bool)
      requires lo <= hi <= buf.Length
      modifies `received
      ensures m <= hi - lo && received == old(received) + Packet(buf[lo..lo + m])
    {
      ok := *;
      m :| 0 <= m <= hi - lo;
      received := received + Packet(buf[lo..lo + m]);
    }
  }

  /** Nothing is no packet. */
  function Packet(b: Bytes): seq<Bytes> {
    if b == [] then [] else [b]
  }

  /** The connection to the host, for writing. */
  class Conn {
    var written: Bytes

    constructor ()
      ensures written == []
    {
      written := [];
    }

    /** Takes any part of the bytes, and may or may not admit it. */
    method Write(buf: array<byte>, n: nat) returns (m: nat, ok: bool)
      requires n <= buf.Length
      modifies this
      ensures m <= n && written == old(written) + buf[..m]
    {
      ok := *;
      m :| 0 <= m <= n;
      written := written + buf[..m];
    }
  }

  /** Whatever part of some frames' encoding arrives, it is cut after some of them. */
  lemma {:induction false} PrefixIsCut(frames: seq<Frame>, k: nat, bytes: Bytes) returns (j: nat)
    requires k <= |frames| && bytes <= Encode(frames[..k])
    ensures j <= k && CutAfter(frames, j, bytes)
  {
    if k == 0 {
      j := 0;
      assert frames == [] ==> frames[..0] == frames;
    } else {
      var before := Encode(frames[..k - 1]);
      assert frames[..k][..k - 1] == frames[..k - 1];
      assert Encode(frames[..k]) == before + Wrapped(frames[k - 1]);
      if |bytes| <= |before| {
        assert bytes == Encode(frames[..k])[..|bytes|] == before[..|bytes|];
        j := PrefixIsCut(frames, k - 1, bytes);
      } else {
        var m := |bytes| - |before|;
        assert bytes == before + Wrapped(frames[k - 1])[..m];
        j := CutInFrame(frames, k - 1, m);
      }
    }
  }

  /** A stream that is cut stays so when its end gets lost. */
  lemma LostEndIsCut(frames: seq<Frame>, k: nat, bytes: Bytes, arrived: Bytes) returns (j: nat)
    requires CutAfter(frames, k, bytes) && arrived <= bytes
    ensures j <= k && CutAfter(frames, j, arrived)
  {
    var whole := Encode(frames[..k]);
    assert frames[..|frames|] == frames;
    if |arrived| <= |whole| {
      assert arrived == bytes[..|arrived|] == whole[..|arrived|];
      j := PrefixIsCut(frames, k, arrived);
    } else {
      j := k;
      assert arrived[|whole|..] == bytes[|whole|..][..|arrived| - |whole|];
    }
  }

  datatype RxEnd = TapDrained | ConnFailed

  lemma CutInFrame(frames: seq<Frame>, k: nat, m: nat) returns (j: nat)
    requires k < |frames| && m <= |Wrapped(frames[k])|
    ensures CutAfter(frames, j, Encode(frames[..k]) + Wrapped(frames[k])[..m]) && k <= j <= k + 1
    ensures m == |Wrapped(frames[k])| ==>
      j == k + 1 && Encode(frames[..k]) + Wrapped(frames[k])[..m] == Encode(frames[..j])
  {
    var f, bytes := frames[k], Encode(frames[..k]) + Wrapped(frames[k])[..m];
    if m == |Wrapped(f)| {
      j := k + 1;
      assert frames[..j][..k] == frames[..k] && frames[..j][k] == f && Wrapped(f)[..m] == Wrapped(f);
      assert Encode(frames[..j]) == bytes;
      assert j < |frames| ==> bytes[|bytes|..] == [];
      assert j == |frames| ==> frames[..j] == frames;
    } else {
      j := k;
      assert bytes[|Encode(frames[..k])|..] == Wrapped(f)[..m];
    }
  }

  /** rx: writes each frame of the device behind its length, in one reused buffer.  It
      goes on until the device has no more or a write falls short or fails; by then the
      connection has got the encoding of some frames and at most a part of the next. */
  method Rx(conn: Conn, tap: Tap) returns (end: RxEnd, ghost k: nat)
    requires conn.written == []
    modifies conn, tap`outgoing
    ensures CutAfter(old(tap.outgoing), k, conn.written)
    ensures end == TapDrained ==> k == |old(tap.outgoing)|
  {
    var buf := new byte[FRAME_SIZE_LEN + FRAME_LEN];
    ghost var frames := tap.outgoing;
    k := 0;
    while true
      invariant 0 <= k <= |frames| && tap.outgoing == frames[k..] && conn.written == Encode(frames[..k])
      decreases |tap.outgoing|
    {
      var n, ok := tap.Read(buf, FRAME_SIZE_LEN);
      if !ok {
        assert frames[..k] == frames;
        return TapDrained, k;
      }
      buf[0], buf[1] := (n % 256) as byte, (n / 256) as byte;
      assert buf[..FRAME_SIZE_LEN + n] == Wrapped(frames[k]);
      var m: int;
      m, ok := conn.Write(buf, FRAME_SIZE_LEN + n);
      assert buf[..m] == Wrapped(frames[k])[..m];
      ghost var j := CutInFrame(frames, k, m);
      if !ok {
        return ConnFailed, j;
      }
      m := m - FRAME_SIZE_LEN;
      if m != n {
        return ConnFailed, j;
      }
      k := j;
    }
  }

  datatype TxEnd = NoLength | NoPayload | BadSize | TapFailed

  /** What the device got of the frames when the write of frame k fell short or failed. */
  predicate DeliveredUpTo(frames: seq<Frame>, k: nat, m: nat, received: seq<Bytes>) {
    k < |frames| && m <= |frames[k]| && received == frames[..k] + Packet(frames[k][..m])
  }

  lemma PartOfSlice(b: Bytes, lo: nat, n: nat, m: nat)
    requires m <= n && lo + n <= |b|
    ensures b[lo..lo + n][..m] == b[lo..lo + m]
  {
  }

  lemma DecodeFirst(b: Bytes)
    requires StartsWithFrame(b)
    ensures var end := FRAME_SIZE_LEN + SizeOf(b);
      Decode(b) == [b[FRAME_SIZE_LEN..end]] + Decode(b[FRAME_SIZE_LEN..][SizeOf(b)..])
    ensures b[FRAME_SIZE_LEN..][..SizeOf(b)] == b[FRAME_SIZE_LEN..FRAME_SIZE_LEN + SizeOf(b)]
  {
    assert b[FRAME_SIZE_LEN..][SizeOf(b)..] == b[FRAME_SIZE_LEN + SizeOf(b)..];
  }

  /** The outcome of reading one frame. */
  datatype FrameRead = GotFrame(n: int) | NoFrame(end: TxEnd)

  /** The reading half of a round of tx: length, payload and their checks. */
  method ReadFrame(conn: Stream, buf: array<byte>) returns (r: FrameRead)
    requires buf.Length == FRAME_SIZE_LEN + FRAME_LEN
    modifies conn, buf
    ensures r.GotFrame? <==> StartsWithFrame(old(conn.rest))
    ensures r.GotFrame? ==>
      && 0 < r.n <= FRAME_LEN && |conn.rest| < |old(conn.rest)|
      && Decode(old(conn.rest)) == [buf[FRAME_SIZE_LEN..FRAME_SIZE_LEN + r.n]] + Decode(conn.rest)
    ensures r.NoFrame? ==> r.end != TapFailed
  {
    ghost var b := conn.rest;
    var n, err := ReadFull(conn, buf, 0, FRAME_SIZE_LEN);
    if err != NoError {
      return NoFrame(NoLength);
    }
    if n != FRAME_SIZE_LEN {
      return NoFrame(BadSize);
    }
    var size := buf[0] as nat + 256 * buf[1] as nat;
    assert buf[0] == buf[0..FRAME_SIZE_LEN][0] && buf[1] == buf[0..FRAME_SIZE_LEN][1];
    assert size == SizeOf(b);
    n, err := ReadFull(conn, buf, FRAME_SIZE_LEN, size + FRAME_SIZE_LEN);
    if err != NoError {
      return NoFrame(NoPayload);
    }
    if n == 0 || n != size {
      return NoFrame(BadSize);
    }
    DecodeFirst(b);
    return GotFrame(n);
  }

  /** tx: reads length and payload of one frame after the other, however the stream is
      cut, and hands each complete frame to the device.  As long as the device takes what
      it is handed, it gets exactly what the stream decodes to; when a write falls short
      or fails, it has got the frames before and any part of that one. */
  method Tx(conn: Stream, tap: Tap) returns (end: TxEnd, ghost k: nat, ghost m: nat)
    requires tap.received == []
    modifies conn, tap`received
    ensures end != TapFailed ==> tap.received == Decode(old(conn.rest))
    ensures end == TapFailed ==> DeliveredUpTo(Decode(old(conn.rest)), k, m, tap.received)
  {
    var buf := new byte[FRAME_SIZE_LEN + FRAME_LEN];
    ghost var all := Decode(conn.rest);
    k, m := 0, 0;
    while true
      invariant k <= |all| && tap.received == all[..k] && Decode(conn.rest) == all[k..]
      decreases |conn.rest|
    {
      var r := ReadFrame(conn, buf);
      if r.NoFrame? {
        assert all[k..] == [];
        return r.end, k, m;
      }
      assert k < |all| && buf[FRAME_SIZE_LEN..FRAME_SIZE_LEN + r.n] == all[k];
      var w, ok := tap.Write(buf, FRAME_SIZE_LEN, r.n + FRAME_SIZE_LEN);
      PartOfSlice(buf[..], FRAME_SIZE_LEN, r.n, w);
      assert buf[FRAME_SIZE_LEN..FRAME_SIZE_LEN + w] == all[k][..w];
      if !ok {
        return TapFailed, k, w;
      }
      if w != r.n {
        return TapFailed, k, w;
      }
      assert all[k][..w] == all[k];
      assert all[..k + 1] == all[..k] + [all[k]] && all[k..][1..] == all[k + 1..];
      k := k + 1;
    }
  }

  /** rx at one end and tx at the other: however the connection cuts the stream, wherever it
      breaks off and whatever it loses of the end, the far device gets the frames that
      arrived completely, up to the first empty one; these are all when nothing failed and
      none is empty. */
  method Relay(tap: Tap, far: Tap, stutters: nat, breaks: bool)
    returns (rx: RxEnd, tx: TxEnd, allArrived: bool, ghost k: nat)
    requires tap != far && far.received == []
    modifies tap, far
    ensures k <= |old(tap.outgoing)| && (rx == TapDrained && allArrived ==> k == |old(tap.outgoing)|)
    ensures tx != TapFailed ==> far.received == Deliverable(old(tap.outgoing), k)
    ensures tx == TapFailed ==> exists i, m :: DeliveredUpTo(Deliverable(old(tap.outgoing), k), i, m, far.received)
  {
    ghost var frames := tap.outgoing;
    var conn := new Conn();
    rx, k := Rx(conn, tap);
    var n :| 0 <= n <= |conn.written|;
    allArrived := n == |conn.written|;
    var arrived := conn.written[..n];
    if !allArrived {
      k := LostEndIsCut(frames, k, conn.written, arrived);
    } else {
      assert arrived == conn.written;
    }
    BrokenRoundTrip(frames, k, arrived);
    var stream := new Stream(arrived, stutters, breaks);
    ghost var i, m;
    tx, i, m := Tx(stream, far);
  }
}
