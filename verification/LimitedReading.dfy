/** A reader that refuses to hand out more than a given number of bytes. */
module LimitedReading {
  import opened Common
  import opened Streams

  datatype Status = Good | AtEOF | Failed | TooMuchToRead

  function StatusOf(err: ReadError): Status {
    match err
    case NoError => Good
    case EOF => AtEOF
    case _ => Failed
  }

  class LimitReader {
    const reader: Stream
    var limit: nat

    constructor (reader: Stream, limit: nat)
      ensures this.reader == reader && this.limit == limit
    {
      this.reader, this.limit := reader, limit;
    }

    /** Reads into buf[..len].  At the limit it probes for one more byte; below it the
        remaining limit and the remaining stream shrink by what was read. */
    method Read(buf: array<byte>, len: nat) returns (n: nat, status: Status)
      requires len <= buf.Length
      modifies this, reader, buf
      ensures limit == old(limit) - n
      ensures old(limit) > 0 ==>
        && n <= len && n <= |old(reader.rest)| && reader.rest == old(reader.rest)[n..]
        && buf[..n] == old(reader.rest)[..n]
        && (status == Good || (status == StatusOf(reader.End()) && reader.rest == []))
        && reader.stutters <= old(reader.stutters)
        && (n == 0 && status == Good && len > 0 ==> reader.stutters < old(reader.stutters))
      ensures old(limit) == 0 ==>
        && n == 0 && (status == AtEOF || status == TooMuchToRead)
        && (status == AtEOF ==> old(reader.rest) == [] && !reader.breaks)
        && (status == TooMuchToRead ==> old(reader.rest) != [] || old(reader.stutters) > 0 || reader.breaks)
    {
      if limit == 0 {
        var disposable := new byte[1];
        var m, err := reader.Read(disposable, 0, 1);
        if m == 0 && err == EOF {
          return 0, AtEOF;
        }
        return 0, TooMuchToRead;
      }
      var room := if len > limit then limit else len;
      var m, err := reader.Read(buf, 0, room);
      assert buf[0..m] == buf[..m];
      limit := limit - m;
      return m, StatusOf(err);
    }
  }

  datatype Result = Ok(data: Bytes) | TooMuch | ReadFailed

  /** io.ReadAll through a limitReader: however the stream is cut, all of it if it is
      shorter than the limit, an error if it is longer or breaks.  At exactly the limit it
      is all of it, too, provided that the stream never returns nothing without an error. */
  method ReadAll(l: LimitReader) returns (r: Result)
    modifies l, l.reader
    ensures |old(l.reader.rest)| < old(l.limit) ==>
      r == if l.reader.breaks then ReadFailed else Ok(old(l.reader.rest))
    ensures |old(l.reader.rest)| > old(l.limit) ==> r == TooMuch
    ensures |old(l.reader.rest)| == old(l.limit) ==>
      if l.reader.breaks then !r.Ok?
      else r == Ok(old(l.reader.rest)) || (r == TooMuch && old(l.reader.stutters) > 0)
  {
    var data: Bytes := [];
    var buf := new byte[512];
    ghost var all, limit := l.reader.rest, l.limit;
    while true
      invariant |data| <= |all| && data == all[..|data|] && l.reader.rest == all[|data|..]
      invariant l.limit == limit - |data|
      invariant l.reader.stutters <= old(l.reader.stutters)
      decreases |all| - |data|, l.reader.stutters
    {
      var room :| 1 <= room <= 512;
      var n, status := l.Read(buf, room);
      assert all[|data|..][..n] == all[|data|..|data| + n];
      data := data + buf[..n];
      if status == AtEOF {
        assert data == all;
        return Ok(data);
      }
      if status == TooMuchToRead {
        return TooMuch;
      }
      if status == Failed {
        return ReadFailed;
      }
    }
  }
}
