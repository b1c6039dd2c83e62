/** The length query: any number of callers and the event loop talk over one and the
    same unbuffered channel, in both directions.  A send meets whichever receive is
    waiting, be it the loop's or another caller's. */
module LengthRendezvous {
  import opened Common

  type Caller = nat

  datatype Pc = Asking | Awaiting | Got(result: nat)
  datatype Loop = Select | Replying

  /** `size` is the number of registered workers; only the loop changes it. */
  datatype State = State(loop: Loop, size: nat, callers: map<Caller, Pc>)

  datatype Label =
    | Call(c: Caller)
    | OtherEvent(size: nat)              // The loop handles another event.
    | AskLoop(c: Caller)                 // c's send meets the loop's select.
    | AskCaller(c: Caller, d: Caller)    // c's send meets d's receive.
    | Reply(c: Caller)                   // The loop's send meets c's receive.

  predicate Enabled(s: State, l: Label) {
    match l
    case Call(c) => c !in s.callers
    case OtherEvent(_) => s.loop.Select?
    case AskLoop(c) => s.loop.Select? && c in s.callers && s.callers[c].Asking?
    case AskCaller(c, d) => c in s.callers && d in s.callers && s.callers[c].Asking? && s.callers[d].Awaiting?
    case Reply(c) => s.loop.Replying? && c in s.callers && s.callers[c].Awaiting?
  }

  function Apply(s: State, l: Label): State
    requires Enabled(s, l)
  {
    match l
    case Call(c) => s.(callers := s.callers[c := Asking])
    case OtherEvent(n) => s.(size := n)
    case AskLoop(c) => s.(loop := Replying, callers := s.callers[c := Awaiting])
    case AskCaller(c, d) => s.(callers := s.callers[d := Got(0)][c := Awaiting])
    case Reply(c) => s.(loop := Select, callers := s.callers[c := Got(s.size)])
  }

  function Execute(s0: State, trace: seq<Label>): Option<State> {
    if trace == [] then Some(s0)
    else
      var before := Execute(s0, trace[..|trace| - 1]);
      var l := trace[|trace| - 1];
      if before.Some? && Enabled(before.value, l) then Some(Apply(before.value, l)) else None
  }

  predicate Reaches(s0: State, trace: seq<Label>, s: State) {
    s0.loop.Select? && s0.callers == map[] && Execute(s0, trace) == Some(s)
  }

  function AwaitingCallers(s: State): set<Caller> {
    set c | c in s.callers && s.callers[c].Awaiting?
  }

  /** The loop owes a reply iff exactly one caller waits for one. */
  ghost predicate Inv(s: State) {
    || (s.loop.Select? && AwaitingCallers(s) == {})
    || (s.loop.Replying? && exists c :: AwaitingCallers(s) == {c})
  }

  /** Who waits after a step. */
  lemma AwaitingAfter(s: State, l: Label)
    requires Enabled(s, l)
    ensures AwaitingCallers(Apply(s, l)) ==
      match l
      case Call(_) => AwaitingCallers(s)
      case OtherEvent(_) => AwaitingCallers(s)
      case AskLoop(c) => AwaitingCallers(s) + {c}
      case AskCaller(c, d) => AwaitingCallers(s) - {d} + {c}
      case Reply(c) => AwaitingCallers(s) - {c}
  {
    var t := Apply(s, l);
    match l {
      case Call(c) => assert forall x :: x in AwaitingCallers(t) <==> x in AwaitingCallers(s);
      case OtherEvent(_) => assert forall x :: x in AwaitingCallers(t) <==> x in AwaitingCallers(s);
      case AskLoop(c) => assert forall x :: x in AwaitingCallers(t) <==> x in AwaitingCallers(s) || x == c;
      case AskCaller(c, d) =>
        assert forall x :: x in AwaitingCallers(t) <==> (x in AwaitingCallers(s) && x != d) || x == c;
      case Reply(c) => assert forall x :: x in AwaitingCallers(t) <==> x in AwaitingCallers(s) && x != c;
    }
  }

  lemma StepKeeps(s: State, l: Label)
    requires Inv(s) && Enabled(s, l)
    ensures Inv(Apply(s, l))
  {
    AwaitingAfter(s, l);
    if l.AskCaller? {
      assert l.d in AwaitingCallers(s);
      assert AwaitingCallers(Apply(s, l)) == {l.c};
    } else if l.Reply? {
      assert l.c in AwaitingCallers(s);
    } else if l.AskLoop? {
      assert AwaitingCallers(Apply(s, l)) == {l.c};
    }
  }

  lemma {:induction false} ReachableInv(s0: State, trace: seq<Label>, s: State)
    requires Reaches(s0, trace, s)
    ensures Inv(s)
  {
    if trace != [] {
      var before := Execute(s0, trace[..|trace| - 1]).value;
      ReachableInv(s0, trace[..|trace| - 1], before);
      StepKeeps(before, trace[|trace| - 1]);
    }
  }

  /** Neither side gets stuck: whenever the loop owes a reply there is just one caller to
      take it, whenever it does not nobody waits for one, and every caller that has not
      got its result can move on. */
  lemma NobodyGetsStuck(s0: State, trace: seq<Label>, s: State)
    requires Reaches(s0, trace, s)
    ensures s.loop.Replying? <==> |AwaitingCallers(s)| == 1
    ensures s.loop.Replying? <==> exists c :: Enabled(s, Reply(c))
    ensures forall c :: c in s.callers && s.callers[c].Awaiting? ==> Enabled(s, Reply(c))
    ensures forall c :: c in s.callers && s.callers[c].Asking? ==>
              Enabled(s, AskLoop(c)) || exists d :: Enabled(s, AskCaller(c, d))
  {
    ReachableInv(s0, trace, s);
    if s.loop.Replying? {
      var d :| AwaitingCallers(s) == {d};
      assert d in AwaitingCallers(s);
      assert Enabled(s, Reply(d));
      forall c | c in s.callers && s.callers[c].Asking? ensures Enabled(s, AskCaller(c, d)) { }
    } else {
      forall c | c in s.callers ensures !s.callers[c].Awaiting? {
        assert c !in AwaitingCallers(s);
      }
    }
  }

  /** Between a request and its reply the number of workers does not change, so what the loop
      hands out is also the number at the time of the request. */
  lemma SizeStaysWhileReplying(s: State, l: Label)
    requires Enabled(s, l)
    ensures s.loop.Replying? || Apply(s, l).loop.Replying? ==> Apply(s, l).size == s.size
    ensures l.OtherEvent? ==> Apply(s, l).size == l.size
  {
  }

  /** What a caller gets: either the number of workers at that moment, from the loop, or
      another caller's zero. */
  lemma ResultIsSizeOrZero(s0: State, trace: seq<Label>, s: State, l: Label, c: Caller)
    requires Reaches(s0, trace, s) && Enabled(s, l)
    requires c in s.callers && s.callers[c].Awaiting? && Apply(s, l).callers[c].Got?
    ensures (l == Reply(c) && Apply(s, l).callers[c].result == s.size)
            || (l.AskCaller? && l.d == c && Apply(s, l).callers[c].result == 0)
  {
  }

  predicate Alone(trace: seq<Label>, c: Caller) {
    forall i :: 0 <= i < |trace| && trace[i].Call? ==> trace[i].c == c
  }

  /** A lone caller gets exactly the number of workers. */
  lemma LoneCallerGetsSize(s0: State, trace: seq<Label>, s: State, l: Label, c: Caller)
    requires Reaches(s0, trace, s) && Alone(trace, c) && Enabled(s, l)
    requires c in s.callers && s.callers[c].Awaiting? && Apply(s, l).callers[c].Got?
    ensures Apply(s, l).callers[c] == Got(s.size) && Apply(s, l).size == s.size
  {
    OnlyCaller(s0, trace, s, c);
  }

  lemma {:induction false} OnlyCaller(s0: State, trace: seq<Label>, s: State, c: Caller)
    requires Reaches(s0, trace, s) && Alone(trace, c)
    ensures s.callers.Keys <= {c}
  {
    if trace != [] {
      var n := |trace| - 1;
      forall i | 0 <= i < n && trace[..n][i].Call? ensures trace[..n][i].c == c {
        assert trace[..n][i] == trace[i];
      }
      OnlyCaller(s0, trace[..n], Execute(s0, trace[..n]).value, c);
    }
  }

  /** With two callers the first one can be told zero although workers are registered. */
  lemma TwoCallersCanMeet(size: nat)
    ensures var s0 := State(Select, size, map[]);
      Execute(s0, [Call(0), Call(1), AskLoop(0), AskCaller(1, 0)])
        == Some(State(Replying, size, map[0 := Got(0), 1 := Awaiting]))
  {
    var s0 := State(Select, size, map[]);
    var t1 := [Call(0)];
    var t2 := [Call(0), Call(1)];
    var t3 := [Call(0), Call(1), AskLoop(0)];
    var t4 := [Call(0), Call(1), AskLoop(0), AskCaller(1, 0)];
    assert t1[..0] == [] && t2[..1] == t1 && t3[..2] == t2 && t4[..3] == t3;
    assert Execute(s0, t1) == Some(State(Select, size, map[0 := Asking]));
    assert Execute(s0, t2) == Some(State(Select, size, map[0 := Asking, 1 := Asking]));
    assert map[0 := Asking, 1 := Asking][0 := Awaiting] == map[0 := Awaiting, 1 := Asking];
    assert Execute(s0, t3) == Some(State(Replying, size, map[0 := Awaiting, 1 := Asking]));
    assert map[0 := Awaiting, 1 := Asking][0 := Got(0)][1 := Awaiting] == map[0 := Got(0), 1 := Awaiting];
  }
}
