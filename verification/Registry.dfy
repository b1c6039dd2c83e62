/** The leader's worker registry: an event loop over a map of last-seen times. */
module Registry {
  import opened Common

  type Url = string
  type Time = int
  type Workers = map<Url, Time>

  datatype Event =
    | Register(worker: Url, at: Time)
    | Unregister(worker: Url, at: Time)
    | Tick(at: Time)
    | ForAll(at: Time)
    | Length(at: Time)

  /** Who is left after a tick. */
  function Unpruned(set0: Workers, now: Time, timeout: Time): Workers {
    map w | w in set0 && now - set0[w] <= timeout :: set0[w]
  }

  function Handle(set0: Workers, e: Event, timeout: Time): Workers {
    match e
    case Register(w, at) => set0[w := at]
    case Unregister(w, _) => set0 - {w}
    case Tick(now) => Unpruned(set0, now, timeout)
    case ForAll(_) => set0
    case Length(_) => set0
  }

  /** The registry after all events of a trace. */
  function After(trace: seq<Event>, timeout: Time): Workers {
    if trace == [] then map[]
    else Handle(After(trace[..|trace| - 1], timeout), trace[|trace| - 1], timeout)
  }

  // ---------------------------------------------------------- the event loop

  class WorkerManager {
    const timeout: Time
    var workers: Workers

    constructor (timeout: Time)
      ensures this.timeout == timeout && workers == map[]
    {
      this.timeout := timeout;
      workers := map[];
    }

    /** Deletes stale workers while it ranges over the map. */
    method Prune(now: Time)
      modifies this
      ensures workers == Unpruned(old(workers), now, timeout)
    {
      var rest := workers.Keys;
      while rest != {}
        invariant rest <= workers.Keys
        invariant forall w :: w in workers ==>
          w in old(workers) && workers[w] == old(workers)[w] && (w in rest || now - workers[w] <= timeout)
        invariant forall w :: w in old(workers) && now - old(workers)[w] <= timeout ==> w in workers
        decreases |rest|
      {
        var w :| w in rest;
        rest := rest - {w};
        if now - workers[w] > timeout {
          workers := workers - {w};
        }
      }
    }

    /** Starts one call per registered worker; the order is up to the map. */
    method RunForAll() returns (calls: seq<Url>)
      ensures multiset(calls) == multiset(workers.Keys)
    {
      calls := [];
      var rest := workers.Keys;
      while rest != {}
        invariant rest <= workers.Keys
        invariant multiset(calls) + multiset(rest) == multiset(workers.Keys)
        decreases |rest|
      {
        var w :| w in rest;
        rest := rest - {w};
        calls := calls + [w];
      }
    }

    /** One round of the select statement.  Returns the calls that it started and the
        length that it handed out, if any. */
    method HandleEvent(e: Event) returns (calls: seq<Url>, len: Option<nat>)
      modifies this
      ensures workers == Handle(old(workers), e, timeout)
      ensures multiset(calls) == if e.ForAll? then multiset(old(workers).Keys) else multiset{}
      ensures len == if e.Length? then Some(|old(workers)|) else None
    {
      calls, len := [], None;
      match e {
        case Tick(now) => Prune(now);
        case Register(w, at) => workers := workers[w := at];
        case Unregister(w, _) => workers := workers - {w};
        case ForAll(_) => calls := RunForAll();
        case Length(_) => len := Some(|workers|);
      }
    }

    /** The event loop on a whole trace. */
    method Run(trace: seq<Event>)
      requires workers == map[]
      modifies this
      ensures workers == After(trace, timeout)
    {
      for i := 0 to |trace|
        invariant workers == After(trace[..i], timeout)
      {
        var _, _ := HandleEvent(trace[i]);
        assert trace[..i + 1][..i] == trace[..i];
      }
      assert trace[..|trace|] == trace;
    }
  }

  // ----------------------------------------------------- what "registered" means

  /** Nothing after position i renews, unregisters or outdates the registration of w
      that was made there. */
  predicate Holds(trace: seq<Event>, timeout: Time, w: Url, i: nat) {
    && i < |trace| && trace[i].Register? && trace[i].worker == w
    && forall j :: i < j < |trace| ==> Harmless(trace[j], w, trace[i].at, timeout)
  }

  predicate Harmless(e: Event, w: Url, registeredAt: Time, timeout: Time) {
    && !(e.Register? && e.worker == w)
    && !(e.Unregister? && e.worker == w)
    && (e.Tick? ==> e.at - registeredAt <= timeout)
  }

  /** A worker is in the registry after a trace iff its last registration has no later
      unregistration and no later tick more than the timeout after it; the registry
      then remembers the time of that registration. */
  lemma {:induction false} RegisteredIff(trace: seq<Event>, timeout: Time, w: Url)
    ensures w in After(trace, timeout) <==> exists i: nat :: Holds(trace, timeout, w, i)
    ensures forall i: nat :: Holds(trace, timeout, w, i) ==> After(trace, timeout)[w] == trace[i].at
  {
    if trace != [] {
      var n := |trace| - 1;
      RegisteredIff(trace[..n], timeout, w);
      forall i: nat | Holds(trace, timeout, w, i)
        ensures w in After(trace, timeout) && After(trace, timeout)[w] == trace[i].at
      {
        if i < n { HoldsEarlier(trace, timeout, w, i); }
      }
      if w in After(trace, timeout) {
        if trace[n].Register? && trace[n].worker == w {
          assert Holds(trace, timeout, w, n);
        } else {
          var i: nat :| Holds(trace[..n], timeout, w, i);
          HoldsLater(trace, timeout, w, i);
        }
      }
    }
  }

  lemma HoldsEarlier(trace: seq<Event>, timeout: Time, w: Url, i: nat)
    requires trace != [] && Holds(trace, timeout, w, i) && i < |trace| - 1
    ensures Holds(trace[..|trace| - 1], timeout, w, i)
    ensures Harmless(trace[|trace| - 1], w, trace[i].at, timeout)
  {
    var shorter := trace[..|trace| - 1];
    forall j | i < j < |shorter| ensures Harmless(shorter[j], w, shorter[i].at, timeout) {
      assert shorter[j] == trace[j];
    }
  }

  lemma HoldsLater(trace: seq<Event>, timeout: Time, w: Url, i: nat)
    requires trace != [] && Holds(trace[..|trace| - 1], timeout, w, i)
    requires Harmless(trace[|trace| - 1], w, trace[i].at, timeout)
    ensures Holds(trace, timeout, w, i)
  {
    forall j | i < j < |trace| ensures Harmless(trace[j], w, trace[i].at, timeout) {
      if j < |trace| - 1 { assert trace[..|trace| - 1][j] == trace[j]; }
    }
  }

  // ------------------------------------------------------------ consequences

  predicate InOrder(trace: seq<Event>) {
    forall i, j :: 0 <= i < j < |trace| ==> trace[i].at <= trace[j].at
  }

  /** The ticker fired in every stretch of one timeout up to the end of the trace. */
  predicate TicksEvery(trace: seq<Event>, timeout: Time, end: Time) {
    forall from: Time :: trace != [] && trace[0].at <= from && from + timeout <= end ==>
      TickWithin(trace, from, timeout)
  }

  predicate TickWithin(trace: seq<Event>, from: Time, timeout: Time) {
    exists k :: 0 <= k < |trace| && trace[k].Tick? && from < trace[k].at <= from + timeout
  }

  predicate SilentSince(trace: seq<Event>, w: Url, at: Time) {
    forall i :: 0 <= i < |trace| && trace[i].Register? && trace[i].worker == w ==> trace[i].at <= at
  }

  /** A silent worker is gone within twice the timeout. */
  lemma SilentWorkerIsGone(trace: seq<Event>, timeout: Time, w: Url, at: Time, end: Time)
    requires InOrder(trace) && TicksEvery(trace, timeout, end) && timeout >= 0
    requires trace != [] && trace[0].at <= at && SilentSince(trace, w, at)
    requires at + 2 * timeout <= end
    ensures w !in After(trace, timeout)
  {
    RegisteredIff(trace, timeout, w);
    var from := at + timeout;
    assert TickWithin(trace, from, timeout);
    var k :| 0 <= k < |trace| && trace[k].Tick? && from < trace[k].at <= from + timeout;
    forall i: nat ensures !Holds(trace, timeout, w, i) {
      if i < |trace| && trace[i].Register? && trace[i].worker == w {
        assert !Harmless(trace[k], w, trace[i].at, timeout);
      }
    }
  }

  /** From its first registration on, w has registered within the last timeout. */
  predicate Lively(trace: seq<Event>, timeout: Time, w: Url, first: nat) {
    && first < |trace| && trace[first].Register? && trace[first].worker == w
    && forall j :: first <= j < |trace| ==> Recent(trace, timeout, w, j)
  }

  predicate Recent(trace: seq<Event>, timeout: Time, w: Url, j: nat)
    requires j < |trace|
  {
    && (trace[j].Unregister? ==> trace[j].worker != w)
    && exists i :: 0 <= i <= j && trace[i].Register? && trace[i].worker == w
                   && trace[j].at - trace[i].at <= timeout
  }

  /** A worker whose registrations are never more than the timeout apart is never
      pruned: it is in the registry at every point after the first of them. */
  lemma {:induction false} LivelyWorkerStays(trace: seq<Event>, timeout: Time, w: Url, first: nat, n: nat)
    requires InOrder(trace) && Lively(trace, timeout, w, first) && first < n <= |trace|
    ensures w in After(trace[..n], timeout)
    ensures forall i :: 0 <= i < n && trace[i].Register? && trace[i].worker == w ==>
      trace[i].at <= After(trace[..n], timeout)[w]
    decreases n
  {
    var last := n - 1;
    assert trace[..n][..last] == trace[..last];
    if last > first {
      LivelyWorkerStays(trace, timeout, w, first, last);
      assert Recent(trace, timeout, w, last);
      var i :| 0 <= i <= last && trace[i].Register? && trace[i].worker == w
               && trace[last].at - trace[i].at <= timeout;
    }
  }
}
