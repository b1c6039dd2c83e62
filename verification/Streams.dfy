/** Byte streams as Go's io.Reader presents them: every read hands out as much as it
    pleases. */
module Streams {
  import opened Common

  datatype ReadError = NoError | EOF | UnexpectedEOF | Broken

  /** A finite stream that ends properly or breaks.  How it is cut into reads is left open,
      and so is whether its end is reported together with the last bytes or by itself; up
      to `stutters` reads may return nothing and no error. */
  class Stream {
    var rest: Bytes
    var stutters: nat
    const breaks: bool

    constructor (data: Bytes, stutters: nat, breaks: bool)
      ensures rest == data && this.stutters == stutters && this.breaks == breaks
    {
      rest, this.stutters, this.breaks := data, stutters, breaks;
    }

    function End(): ReadError {
      if breaks then Broken else EOF
    }

    /** Reads into buf[lo..hi]. */
    method Read(buf: array<byte>, lo: nat, hi: nat) returns (n: nat, err: ReadError)
      requires lo <= hi <= buf.Length
      modifies this, buf
      ensures lo + n <= hi && n <= |old(rest)| && rest == old(rest)[n..]
      ensures buf[lo..lo + n] == old(rest)[..n]
      ensures buf[..lo] == old(buf[..lo]) && buf[lo + n..] == old(buf[lo + n..])
      ensures err == NoError || (err == End() && rest == [])
      ensures stutters <= old(stutters)
      ensures n == 0 && err == NoError && lo < hi ==> stutters < old(stutters)
    {
      n, err := 0, NoError;
      if lo == hi {
        return;
      }
      if * {
        if stutters > 0 {
          stutters := stutters - 1;
          return;
        }
      }
      if rest == [] {
        err := End();
        return;
      }
      n :| 1 <= n <= |rest| && n <= hi - lo;
      forall i | 0 <= i < n {
        buf[lo + i] := rest[i];
      }
      rest := rest[n..];
      if * {
        err := if rest == [] then End() else NoError;
      }
    }
  }

  /** A read of m bytes behind the first n. */
  lemma Appended(s: Bytes, t: Bytes, lo: nat, n: nat, m: nat, data: Bytes)
    requires |t| == |s| && lo + n + m <= |s| && n + m <= |data|
    requires s[lo..lo + n] == data[..n] && t[..lo + n] == s[..lo + n] && t[lo + n..lo + n + m] == data[n..][..m]
    ensures t[..lo] == s[..lo] && t[lo..lo + n + m] == data[..n + m]
  {
    assert t[..lo] == t[..lo + n][..lo];
    assert t[lo..lo + n] == t[..lo + n][lo..] == s[..lo + n][lo..];
    assert t[lo..lo + n + m] == t[lo..lo + n] + t[lo + n..lo + n + m];
  }

  /** io.ReadFull: all of buf[lo..hi], or an error. */
  method ReadFull(conn: Stream, buf: array<byte>, lo: nat, hi: nat) returns (n: nat, err: ReadError)
    requires lo <= hi <= buf.Length
    modifies conn, buf
    ensures buf[..lo] == old(buf[..lo])
    ensures |old(conn.rest)| >= hi - lo ==>
      n == hi - lo && err == NoError && buf[lo..hi] == old(conn.rest)[..n] && conn.rest == old(conn.rest)[n..]
    ensures |old(conn.rest)| < hi - lo ==>
      && n == |old(conn.rest)| && conn.rest == []
      && err == if conn.breaks then Broken else if n == 0 then EOF else UnexpectedEOF
  {
    n, err := 0, NoError;
    ghost var data := conn.rest;
    while n < hi - lo && err == NoError
      invariant n <= hi - lo && n <= |data| && conn.rest == data[n..]
      invariant buf[..lo] == old(buf[..lo]) && buf[lo..lo + n] == data[..n]
      invariant err == NoError || (err == conn.End() && conn.rest == [])
      decreases hi - lo - n, conn.stutters, err == NoError
    {
      var m;
      ghost var before := buf[..];
      m, err := conn.Read(buf, lo + n, hi);
      Appended(before, buf[..], lo, n, m, data);
      n := n + m;
    }
    if n == hi - lo {
      err := NoError;
    } else if n > 0 && err == EOF {
      err := UnexpectedEOF;
    }
  }
}
