/** What the steps of a run add up to: who is registered and whom a fan-out addresses, by the
    run alone, and that every request and every heartbeat is taken care of exactly once. */
module SyncAccounts {
  import opened Common
  import opened SyncProtocol
  import opened SyncInvariant
  import opened SyncFrames
  import opened SyncKnowledge
  import opened SyncSteps
  import opened SyncTheorems
  import opened SyncProgress
  import R = Registry

  /** A run from a fresh start. */
  predicate IsRun(p: Path) {
    p.Valid() && Init(p.Start())
  }

  lemma RunReaches(p: Path, n: nat)
    requires IsRun(p) && n < |p.states|
    ensures Reaches(p.Start(), p.labels[..n], p.states[n])
  {
    PathExecutes(p, n);
  }

  lemma RunStep(p: Path, n: nat)
    requires IsRun(p) && n < |p.labels|
    ensures Enabled(p.states[n], p.labels[n]) && p.states[n + 1] == Apply(p.states[n], p.labels[n])
    ensures p.labels[..n + 1] == p.labels[..n] + [p.labels[n]]
  {
    assert Link(p.states[n], p.labels[n], p.states[n + 1]);
  }

  // ------------------------------------------------------------- the registry

  /** The step registers w: after a heartbeat with the right hash, or after a call to w. */
  predicate Registers(s: State, l: Label, w: WorkerId) {
    l == Register(w) || (l.RegisterAfter? && l.sid in s.syncs && s.syncs[l.sid].worker == w)
  }

  /** The step removes w: it was silent for too long, or a call to it failed. */
  predicate Removes(s: State, l: Label, w: WorkerId) {
    l == Prune(w) || (l.UnregisterAfter? && l.sid in s.syncs && s.syncs[l.sid].worker == w)
  }

  /** Step i registered w and no later step up to n removed it. */
  predicate HoldsSince(p: Path, n: nat, w: WorkerId, i: nat)
    requires n <= |p.labels| && n <= |p.states|
  {
    && i < n && Registers(p.states[i], p.labels[i], w)
    && forall j :: i < j < n ==> !Removes(p.states[j], p.labels[j], w)
  }

  predicate IsRegistered(p: Path, n: nat, w: WorkerId)
    requires n <= |p.labels| && n <= |p.states|
  {
    exists i :: 0 <= i < n && HoldsSince(p, n, w, i)
  }

  /** What one step does to the registry. */
  lemma RegistryStep(s: State, l: Label, w: WorkerId)
    requires Enabled(s, l)
    ensures w in Apply(s, l).leader.registry <==>
      Registers(s, l, w) || (w in s.leader.registry && !Removes(s, l, w))
  {
    if !OfLeader(l) { WorkerLeaves(s, l); } else { LeaderRegistryStep(s, l, w); }
  }

  lemma LeaderRegistryStep(s: State, l: Label, w: WorkerId)
    requires OfLeader(l) && LeaderEnabled(s, l)
    ensures w in LeaderEffect(s, l).leader.registry <==>
      Registers(s, l, w) || (w in s.leader.registry && !Removes(s, l, w))
  {
    match l {
      case HearDoc(sid, doc) => HearingRegistersNobody(s, sid, VerifyAttstn(s.docs, doc, s.syncs[sid].nonce));
      case RegisterAfter(sid) =>
      case UnregisterAfter(sid) =>
      case _ =>
    }
  }

  lemma HearingRegistersNobody(s: State, sid: SyncId, aux: Aux)
    requires sid in s.syncs
    ensures AfterVerifying(s, sid, aux).leader.registry == s.leader.registry
  {
  }

  /** A worker is in the leader's registry after n steps of a run iff one of them registered it
      and no later one removed it. */
  lemma {:induction false} RegistryIff(p: Path, n: nat, w: WorkerId)
    requires IsRun(p) && n < |p.states|
    ensures w in p.states[n].leader.registry <==> IsRegistered(p, n, w)
  {
    if n > 0 {
      var m := n - 1;
      RegistryIff(p, m, w);
      RunStep(p, m);
      RegistryStep(p.states[m], p.labels[m], w);
      OneMoreStep(p, m, w);
    }
  }

  lemma OneMoreStep(p: Path, n: nat, w: WorkerId)
    requires n < |p.labels| && n < |p.states|
    ensures IsRegistered(p, n + 1, w) <==>
      Registers(p.states[n], p.labels[n], w)
      || (IsRegistered(p, n, w) && !Removes(p.states[n], p.labels[n], w))
  {
    var m := n + 1;
    if Registers(p.states[n], p.labels[n], w) {
      assert HoldsSince(p, m, w, n);
    }
    if i :| 0 <= i < n && HoldsSince(p, n, w, i) {
      assert HoldsSince(p, m, w, i) <==> !Removes(p.states[n], p.labels[n], w);
    }
    if i :| 0 <= i < m && HoldsSince(p, m, w, i) {
      assert i < n ==> HoldsSince(p, n, w, i);
    }
  }

  /** The events that a step is to the event loop of the registry. */
  function EventOf(s: State, l: Label, at: R.Time, name: WorkerId -> R.Url): seq<R.Event> {
    match l
    case Register(w) => [R.Register(name(w), at)]
    case RegisterAfter(sid) => if sid in s.syncs then [R.Register(name(s.syncs[sid].worker), at)] else []
    case Prune(w) => [R.Unregister(name(w), at)]
    case UnregisterAfter(sid) => if sid in s.syncs then [R.Unregister(name(s.syncs[sid].worker), at)] else []
    case _ => []
  }

  function EventsOf(p: Path, n: nat, name: WorkerId -> R.Url): seq<R.Event>
    requires n <= |p.labels| && n <= |p.states|
  {
    if n == 0 then []
    else EventsOf(p, n - 1, name) + EventOf(p.states[n - 1], p.labels[n - 1], n, name)
  }

  /** The protocol's registry is the one that the event loop computes from the same events. */
  lemma {:induction false} RegistryRefines(p: Path, n: nat, name: WorkerId -> R.Url, timeout: R.Time, w: WorkerId)
    requires IsRun(p) && n < |p.states| && forall a, b :: name(a) == name(b) ==> a == b
    ensures w in p.states[n].leader.registry <==> name(w) in R.After(EventsOf(p, n, name), timeout)
  {
    if n > 0 {
      var m := n - 1;
      RegistryRefines(p, m, name, timeout, w);
      RunStep(p, m);
      RegistryStep(p.states[m], p.labels[m], w);
      EventIsStep(p.states[m], p.labels[m], n, name, EventsOf(p, m, name), timeout, w);
    }
  }

  lemma EventIsStep(s: State, l: Label, at: R.Time, name: WorkerId -> R.Url, events: seq<R.Event>,
                    timeout: R.Time, w: WorkerId)
    requires forall a, b :: name(a) == name(b) ==> a == b
    ensures name(w) in R.After(events + EventOf(s, l, at, name), timeout) <==>
      Registers(s, l, w) || (name(w) in R.After(events, timeout) && !Removes(s, l, w))
  {
    var new_ := EventOf(s, l, at, name);
    if new_ == [] {
      assert events + new_ == events;
    } else {
      assert (events + new_)[..|events|] == events;
    }
  }

  // ----------------------------------------------------------------- fan-outs

  lemma TargetsStep(s: State, l: Label)
    requires Enabled(s, l)
    ensures l.Dispatch? ==>
      l.v !in s.leader.targets && Apply(s, l).leader.targets == s.leader.targets[l.v := s.leader.registry]
    ensures !l.Dispatch? ==> Apply(s, l).leader.targets == s.leader.targets
  {
    if !OfLeader(l) { WorkerLeaves(s, l); } else if !l.Dispatch? { LeaderTargetsNobody(s, l); }
  }

  lemma LeaderTargetsNobody(s: State, l: Label)
    requires OfLeader(l) && LeaderEnabled(s, l) && !l.Dispatch?
    ensures LeaderEffect(s, l).leader.targets == s.leader.targets
  {
    if OfLoop(l) { LoopTargetsNobody(s, l); } else { CallTargetsNobody(s, l); }
  }

  lemma LoopTargetsNobody(s: State, l: Label)
    requires OfLoop(l) && LeaderEnabled(s, l) && !l.Dispatch?
    ensures LeaderEffect(s, l).leader.targets == s.leader.targets
  {
    match l {
      case Put(_) =>
      case DispatchDone =>
      case Prune(_) =>
      case SpawnSync(w, sid, n) => StartTargetsNobody(s, w, sid, n);
      case Heartbeat(w, hash, sid, n) => ComparisonTargetsNobody(s, w, hash, sid, n);
      case Register(_) =>
    }
  }

  lemma StartTargetsNobody(s: State, w: WorkerId, sid: SyncId, n: Nonce)
    requires CanSpawnSync(s, w, sid, n)
    ensures DoSpawnSync(s, w, sid, n).leader.targets == s.leader.targets
  {
  }

  lemma ComparisonTargetsNobody(s: State, w: WorkerId, hash: Option<Bytes>, sid: SyncId, n: Nonce)
    ensures DoHeartbeat(s, w, hash, sid, n).leader.targets == s.leader.targets
  {
    if !SameHash(s, hash) {
      assert DoHeartbeat(s, w, hash, sid, n) == Start(s, w, FromHeartbeat, sid, n);
    }
  }

  lemma CallTargetsNobody(s: State, l: Label)
    requires OfLeader(l) && !OfLoop(l) && LeaderEnabled(s, l)
    ensures LeaderEffect(s, l).leader.targets == s.leader.targets
  {
    match l {
      case HearDoc(sid, doc) => HearingTargetsNobody(s, sid, VerifyAttstn(s.docs, doc, s.syncs[sid].nonce));
      case TakeSnapshot(_) =>
      case PostKeys(_) =>
      case HearOk(_, _) =>
      case SyncFails(_) =>
      case RegisterAfter(_) =>
      case UnregisterAfter(_) =>
    }
  }

  lemma HearingTargetsNobody(s: State, sid: SyncId, aux: Aux)
    requires sid in s.syncs
    ensures AfterVerifying(s, sid, aux).leader.targets == s.leader.targets
  {
  }

  /** A PUT was dispatched iff the run has its dispatch, and its fan-out addresses exactly the
      workers that were registered by then. */
  lemma {:induction false} TargetsIff(p: Path, n: nat, v: nat)
    requires IsRun(p) && n < |p.states|
    ensures v in p.states[n].leader.targets <==> exists i :: 0 <= i < n && p.labels[i] == Dispatch(v)
    ensures forall i :: 0 <= i < n && p.labels[i] == Dispatch(v) ==> AddressesRegistered(p, n, v, i)
  {
    if n > 0 {
      var m := n - 1;
      TargetsIff(p, m, v);
      RunStep(p, m);
      TargetsStep(p.states[m], p.labels[m]);
      forall i | 0 <= i < n && p.labels[i] == Dispatch(v) ensures AddressesRegistered(p, n, v, i) {
        if i < m {
          assert AddressesRegistered(p, m, v, i);
        } else {
          forall w ensures w in p.states[m].leader.registry <==> IsRegistered(p, m, w) {
            RegistryIff(p, m, w);
          }
        }
      }
    }
  }

  /** After n steps, the fan-out of version v is for those registered before step i. */
  ghost predicate AddressesRegistered(p: Path, n: nat, v: nat, i: nat)
    requires i <= n <= |p.labels| && n < |p.states|
  {
    && v in p.states[n].leader.targets
    && forall w :: w in p.states[n].leader.targets[v] <==> IsRegistered(p, i, w)
  }

  /** The registry is the one that the fan-out is for. */
  predicate Frozen(d: Leader) {
    d.loop.FanningOut? ==> d.loop.version in d.targets && d.registry == d.targets[d.loop.version]
  }

  /** As long as a fan-out is under way, nobody gets in or out of the registry. */
  lemma {:induction false} RegistryIsFrozen(p: Path, n: nat)
    requires IsRun(p) && n < |p.states|
    ensures Frozen(p.states[n].leader)
  {
    if n > 0 {
      var m := n - 1;
      RegistryIsFrozen(p, m);
      RunStep(p, m);
      FrozenStep(p.states[m], p.labels[m]);
    }
  }

  lemma FrozenStep(s: State, l: Label)
    requires Enabled(s, l) && Frozen(s.leader)
    ensures Frozen(Effect(s, l).leader)
  {
    if !OfLeader(l) {
      WorkerLeaves(s, l);
    } else if OfLoop(l) {
      LoopFrozen(s, l);
    } else {
      CallFrozen(s, l);
    }
  }

  lemma LoopFrozen(s: State, l: Label)
    requires OfLoop(l) && LeaderEnabled(s, l) && Frozen(s.leader)
    ensures Frozen(LeaderEffect(s, l).leader)
  {
    match l {
      case Put(_) =>
      case Dispatch(_) =>
      case DispatchDone =>
      case Prune(_) =>
      case SpawnSync(_, _, _) =>
      case Heartbeat(_, _, _, _) =>
      case Register(_) =>
    }
  }

  lemma CallFrozen(s: State, l: Label)
    requires OfLeader(l) && !OfLoop(l) && LeaderEnabled(s, l) && Frozen(s.leader)
    ensures Frozen(LeaderEffect(s, l).leader)
  {
    match l {
      case HearDoc(sid, doc) => HearingKeepsLoop(s, sid, VerifyAttstn(s.docs, doc, s.syncs[sid].nonce));
      case TakeSnapshot(_) =>
      case PostKeys(_) =>
      case HearOk(_, _) =>
      case SyncFails(_) =>
      case RegisterAfter(_) =>
      case UnregisterAfter(_) =>
    }
  }

  lemma HearingKeepsLoop(s: State, sid: SyncId, aux: Aux)
    requires sid in s.syncs
    ensures AfterVerifying(s, sid, aux).leader == s.leader.(crashed := s.leader.crashed || aux.LeaderAux?)
  {
  }

  /** After the dispatch of the PUT of version v, each worker that was registered by then has
      exactly one call from it, with a snapshot of v or later, which ends with the worker
      having installed that or with an unregister for it. */
  lemma FanOutReachesAll(p: Path, n: nat, i: nat, v: nat, w: WorkerId)
    requires IsRun(p) && i < n < |p.states| && p.labels[i] == Dispatch(v) && IsRegistered(p, i, w)
    requires p.states[n].leader.loop.FanningOut? ==> p.states[n].leader.loop.version != v
    ensures FansOutTo(p.states[n], v, w)
  {
    TargetsIff(p, n, v);
    assert AddressesRegistered(p, n, v, i);
    RunReaches(p, n);
    FanOut(p.Start(), p.labels[..n], p.states[n], v, w);
  }

  /** And nobody else has a call from it. */
  lemma FanOutReachesNoOther(p: Path, n: nat, sid: SyncId) returns (i: nat)
    requires IsRun(p) && n < |p.states| && sid in p.states[n].syncs && p.states[n].syncs[sid].origin.FromPut?
    ensures i < n && p.labels[i] == Dispatch(p.states[n].syncs[sid].origin.version)
    ensures IsRegistered(p, i, p.states[n].syncs[sid].worker)
  {
    RunReaches(p, n);
    ReachableInv(p.Start(), p.labels[..n], p.states[n]);
    assert SyncOk(p.states[n], sid);
    var v := p.states[n].syncs[sid].origin.version;
    TargetsIff(p, n, v);
    i :| 0 <= i < n && p.labels[i] == Dispatch(v);
    assert AddressesRegistered(p, n, v, i);
  }

  // ----------------------------------------------------------------- requests

  /** The handlers that a GET has become. */
  function SessionsOf(s: State, g: Get): set<Nonce> {
    set n | n in s.sessions && s.sessions[n].worker == g.worker && s.sessions[n].leadersNonce == g.leadersNonce
  }

  /** The handlers that a POST has become. */
  function FinishesOf(s: State, p: Post): set<HandlerId> {
    set h | h in s.finishes && s.finishes[h].worker == p.worker && s.finishes[h].body == p.body
  }

  /** Most steps neither bring a request nor take one up. */
  lemma NoRequest(s: State, l: Label)
    requires Enabled(s, l) && !OfRequest(l) && !l.PushNonce? && !l.TakeNonce?
    ensures SameRequests(s, Effect(s, l))
  {
    if OfLeader(l) {
      LeaderLeaves(s, l);
    } else if OfFinish(l) {
      NoRequestFinishing(s, l);
    } else {
      NoRequestStarting(s, l);
    }
  }

  predicate SameRequests(s: State, t: State) {
    && t.gets == s.gets && t.posts == s.posts
    && t.sessions.Keys == s.sessions.Keys && t.finishes.Keys == s.finishes.Keys
    && (forall n :: n in s.sessions ==>
          t.sessions[n].worker == s.sessions[n].worker && t.sessions[n].leadersNonce == s.sessions[n].leadersNonce)
    && (forall h :: h in s.finishes ==>
          t.finishes[h].body == s.finishes[h].body && t.finishes[h].worker == s.finishes[h].worker)
  }

  lemma NoRequestStarting(s: State, l: Label)
    requires OfInit(l) && !l.PushNonce? && WorkerEnabled(s, l)
    ensures SameKnowledge(s, WorkerEffect(s, l))
  {
    match l {
      case BoxKeyFails(n) => AbortTeachesNothing(s, n);
      case AttstnFails(n) => AbortTeachesNothing(s, n);
      case PushKey(n, k) => PushKeyTeachesNothing(s, n, k);
      case AnswerGet(n) => AnswerGetTeachesNothing(s, n);
    }
  }

  lemma NoRequestFinishing(s: State, l: Label)
    requires OfFinish(l) && !l.TakeNonce? && WorkerEnabled(s, l)
    ensures SameKnowledge(s, WorkerEffect(s, l))
  {
    match l {
      case VerifyPost(h, fails) => VerifyPostTeachesNothing(s, h, fails);
      case PopKey(h) => PopKeyTeachesNothing(s, h);
      case Install(h) => InstallTeachesNothing(s, h);
    }
  }

  function GetBalance(s: State, g: Get): nat {
    s.gets[g] + |SessionsOf(s, g)|
  }

  function PostBalance(s: State, p: Post): nat {
    s.posts[p] + |FinishesOf(s, p)|
  }

  /** Requests are no matter of time, nor of steps that leave them alone. */
  lemma SameBalance(s: State, t: State, g: Get, p: Post)
    requires SameRequests(s, t)
    ensures GetBalance(t, g) == GetBalance(s, g) && PostBalance(t, p) == PostBalance(s, p)
  {
    assert SessionsOf(t, g) == SessionsOf(s, g) && FinishesOf(t, p) == FinishesOf(s, p);
  }

  lemma GetStep(s: State, l: Label, t: State, g: Get)
    requires Enabled(s, l) && t == Effect(s, l) && forall n :: n in s.sessions ==> n in s.seen
    ensures GetBalance(t, g) == GetBalance(s, g) + if l == GetArrives(g.worker, g.leadersNonce) then 1 else 0
  {
    if l.PushNonce? {
      NonceStep(s, l.get, l.n, g);
    } else if l.TakeNonce? || OfRequest(l) {
      NoSession(s, l, g);
    } else {
      QuietStepBalance(s, l, t, g, Post(0, Body(false, None, None)));
    }
  }

  lemma QuietStepBalance(s: State, l: Label, t: State, g: Get, p: Post)
    requires Enabled(s, l) && t == Effect(s, l) && !OfRequest(l) && !l.PushNonce? && !l.TakeNonce?
    ensures GetBalance(t, g) == GetBalance(s, g) && PostBalance(t, p) == PostBalance(s, p)
  {
    NoRequest(s, l);
    SameBalance(s, t, g, p);
  }

  lemma NonceStep(s: State, get: Get, n: Nonce, g: Get)
    requires CanPushNonce(s, get, n) && n !in s.sessions
    ensures GetBalance(DoPushNonce(s, get, n), g) == GetBalance(s, g)
  {
    var t := DoPushNonce(s, get, n);
    NewSession(s, t, n, g);
  }

  lemma NewSession(s: State, t: State, n: Nonce, g: Get)
    requires n !in s.sessions && n in t.sessions && t.sessions == s.sessions[n := t.sessions[n]]
    ensures |SessionsOf(t, g)| == |SessionsOf(s, g)|
      + if t.sessions[n].worker == g.worker && t.sessions[n].leadersNonce == g.leadersNonce then 1 else 0
  {
    if t.sessions[n].worker == g.worker && t.sessions[n].leadersNonce == g.leadersNonce {
      assert SessionsOf(t, g) == SessionsOf(s, g) + {n};
    } else {
      assert SessionsOf(t, g) == SessionsOf(s, g);
    }
  }

  lemma NoSession(s: State, l: Label, g: Get)
    requires (l.TakeNonce? || OfRequest(l)) && WorkerEnabled(s, l)
    ensures SessionsOf(WorkerEffect(s, l), g) == SessionsOf(s, g)
    ensures WorkerEffect(s, l).gets[g] == s.gets[g] + if l == GetArrives(g.worker, g.leadersNonce) then 1 else 0
  {
    match l {
      case TakeNonce(_, _) =>
      case GetArrives(_, _) =>
      case PostArrives(_) =>
      case ClientAttstn(_, _) =>
    }
  }

  lemma PostStep(s: State, l: Label, t: State, p: Post)
    requires Enabled(s, l) && t == Effect(s, l)
    ensures PostBalance(t, p) == PostBalance(s, p) + if l == PostArrives(p) then 1 else 0
  {
    if l.TakeNonce? {
      TakeStep(s, l.post, l.h, p);
    } else if l.PushNonce? || OfRequest(l) {
      NoFinish(s, l, p);
    } else {
      QuietStepBalance(s, l, t, Get(0, 0), p);
    }
  }

  lemma TakeStep(s: State, post: Post, h: HandlerId, p: Post)
    requires CanTakeNonce(s, post, h)
    ensures PostBalance(DoTakeNonce(s, post, h), p) == PostBalance(s, p)
  {
    var t := DoTakeNonce(s, post, h);
    NewFinish(s, t, h, p);
  }

  lemma NewFinish(s: State, t: State, h: HandlerId, p: Post)
    requires h !in s.finishes && h in t.finishes && t.finishes == s.finishes[h := t.finishes[h]]
    ensures |FinishesOf(t, p)| == |FinishesOf(s, p)|
      + if t.finishes[h].worker == p.worker && t.finishes[h].body == p.body then 1 else 0
  {
    if t.finishes[h].worker == p.worker && t.finishes[h].body == p.body {
      assert FinishesOf(t, p) == FinishesOf(s, p) + {h};
    } else {
      assert FinishesOf(t, p) == FinishesOf(s, p);
    }
  }

  lemma NoFinish(s: State, l: Label, p: Post)
    requires (l.PushNonce? || OfRequest(l)) && WorkerEnabled(s, l)
    ensures FinishesOf(WorkerEffect(s, l), p) == FinishesOf(s, p)
    ensures WorkerEffect(s, l).posts[p] == s.posts[p] + if l == PostArrives(p) then 1 else 0
  {
    match l {
      case PushNonce(_, _) =>
      case GetArrives(_, _) =>
      case PostArrives(_) =>
      case ClientAttstn(_, _) =>
    }
  }

  /** Every GET that got past the in-progress check is either still waiting for the nonce
      channel or has become exactly one session, for the worker and the nonce that it named. */
  lemma {:induction false} GetsAreConserved(p: Path, n: nat, g: Get)
    requires IsRun(p) && n < |p.states|
    ensures multiset(p.labels[..n])[GetArrives(g.worker, g.leadersNonce)]
         == p.states[n].gets[g] + |SessionsOf(p.states[n], g)|
  {
    if n > 0 {
      var m := n - 1;
      GetsAreConserved(p, m, g);
      RunStep(p, m);
      RunReaches(p, m);
      ReachableKnown(p.Start(), p.labels[..m], p.states[m]);
      var t := Effect(p.states[m], p.labels[m]);
      GetStep(p.states[m], p.labels[m], t, g);
      SameBalance(t, p.states[n], g, Post(0, Body(false, None, None)));
    }
  }

  /** Likewise every POST that was read. */
  lemma {:induction false} PostsAreConserved(p: Path, n: nat, post: Post)
    requires IsRun(p) && n < |p.states|
    ensures multiset(p.labels[..n])[PostArrives(post)] == p.states[n].posts[post] + |FinishesOf(p.states[n], post)|
  {
    if n > 0 {
      var m := n - 1;
      PostsAreConserved(p, m, post);
      RunStep(p, m);
      var t := Effect(p.states[m], p.labels[m]);
      PostStep(p.states[m], p.labels[m], t, post);
      SameBalance(t, p.states[n], Get(0, 0), post);
    }
  }

  // --------------------------------------------------------------- heartbeats

  function Heartbeats(p: Path, n: nat, w: WorkerId): nat
    requires n <= |p.labels|
  {
    if n == 0 then 0
    else Heartbeats(p, n - 1, w) + if p.labels[n - 1].Heartbeat? && p.labels[n - 1].w == w then 1 else 0
  }

  /** The calls that heartbeats of w have started. */
  function CallsOf(s: State, w: WorkerId): set<SyncId> {
    set sid | sid in s.syncs && s.syncs[sid].worker == w && s.syncs[sid].origin.FromHeartbeat?
  }

  /** Heartbeats of w that wait for their registration, and calls that others have started. */
  function HeartbeatBalance(s: State, w: WorkerId): nat {
    s.leader.registering[w] + |CallsOf(s, w)|
  }

  lemma HeartbeatStep(s: State, l: Label, w: WorkerId)
    requires Enabled(s, l)
    ensures HeartbeatBalance(Apply(s, l), w) + (if l == Register(w) then 1 else 0)
         == HeartbeatBalance(s, w) + if l.Heartbeat? && l.w == w then 1 else 0
  {
    if !OfLeader(l) {
      WorkerLeaves(s, l);
      assert CallsOf(Apply(s, l), w) == CallsOf(s, w);
    } else if OfLoop(l) {
      LoopHeartbeatStep(s, l, LeaderEffect(s, l), w);
      assert CallsOf(Apply(s, l), w) == CallsOf(LeaderEffect(s, l), w);
    } else {
      CallHeartbeatStep(s, l, LeaderEffect(s, l), w);
      assert CallsOf(Apply(s, l), w) == CallsOf(LeaderEffect(s, l), w);
    }
  }

  lemma LoopHeartbeatStep(s: State, l: Label, t: State, w: WorkerId)
    requires OfLoop(l) && LeaderEnabled(s, l) && t == LeaderEffect(s, l)
    ensures HeartbeatBalance(t, w) + (if l == Register(w) then 1 else 0)
         == HeartbeatBalance(s, w) + if l.Heartbeat? && l.w == w then 1 else 0
  {
    if l.Heartbeat? {
      ComparisonStep(s, l.w, l.hash, l.sid, l.n, w);
    } else {
      if !l.SpawnSync? { LoopCallsNobody(s, l); }
      assert CallsOf(t, w) == CallsOf(s, w);
    }
  }

  lemma LoopCallsNobody(s: State, l: Label)
    requires OfLoop(l) && !l.SpawnSync? && !l.Heartbeat? && LeaderEnabled(s, l)
    ensures LeaderEffect(s, l).syncs == s.syncs
  {
  }

  lemma ComparisonStep(s: State, x: WorkerId, hash: Option<Bytes>, sid: SyncId, n: Nonce, w: WorkerId)
    requires CanHeartbeat(s, x, hash, sid, n)
    ensures HeartbeatBalance(DoHeartbeat(s, x, hash, sid, n), w) == HeartbeatBalance(s, w) + if x == w then 1 else 0
  {
    var t := DoHeartbeat(s, x, hash, sid, n);
    if SameHash(s, hash) {
      assert CallsOf(t, w) == CallsOf(s, w);
    } else {
      NewCall(s, t, sid, w);
    }
  }

  lemma NewCall(s: State, t: State, sid: SyncId, w: WorkerId)
    requires sid !in s.syncs && sid in t.syncs && t.syncs == s.syncs[sid := t.syncs[sid]]
    ensures |CallsOf(t, w)| == |CallsOf(s, w)|
      + if t.syncs[sid].worker == w && t.syncs[sid].origin.FromHeartbeat? then 1 else 0
  {
    if t.syncs[sid].worker == w && t.syncs[sid].origin.FromHeartbeat? {
      assert CallsOf(t, w) == CallsOf(s, w) + {sid};
    } else {
      assert CallsOf(t, w) == CallsOf(s, w);
    }
  }

  lemma CallHeartbeatStep(s: State, l: Label, t: State, w: WorkerId)
    requires OfLeader(l) && !OfLoop(l) && LeaderEnabled(s, l) && t == LeaderEffect(s, l)
    ensures HeartbeatBalance(t, w) == HeartbeatBalance(s, w)
  {
    SameOrigins(s, l, t);
    assert CallsOf(t, w) == CallsOf(s, w);
  }

  lemma SameOrigins(s: State, l: Label, t: State)
    requires OfLeader(l) && !OfLoop(l) && LeaderEnabled(s, l) && t == LeaderEffect(s, l)
    ensures t.leader.registering == s.leader.registering && t.syncs.Keys == s.syncs.Keys
    ensures forall sid :: sid in s.syncs ==>
      t.syncs[sid].worker == s.syncs[sid].worker && t.syncs[sid].origin == s.syncs[sid].origin
  {
    match l {
      case HearDoc(sid, doc) => HearingKeepsOrigins(s, sid, VerifyAttstn(s.docs, doc, s.syncs[sid].nonce));
      case TakeSnapshot(_) =>
      case PostKeys(_) =>
      case HearOk(_, _) =>
      case SyncFails(_) =>
      case RegisterAfter(_) =>
      case UnregisterAfter(_) =>
    }
  }

  lemma HearingKeepsOrigins(s: State, sid: SyncId, aux: Aux)
    requires sid in s.syncs
    ensures var t := AfterVerifying(s, sid, aux);
      && t.leader.registering == s.leader.registering && t.syncs.Keys == s.syncs.Keys
      && forall c :: c in s.syncs ==>
           t.syncs[c].worker == s.syncs[c].worker && t.syncs[c].origin == s.syncs[c].origin
  {
  }

  /** Every heartbeat leads to exactly one registration, done or waiting, or to exactly one
      call. */
  lemma {:induction false} HeartbeatsAreConserved(p: Path, n: nat, w: WorkerId)
    requires IsRun(p) && n < |p.states|
    ensures Heartbeats(p, n, w) ==
      multiset(p.labels[..n])[Register(w)] + p.states[n].leader.registering[w] + |CallsOf(p.states[n], w)|
  {
    if n > 0 {
      var m := n - 1;
      HeartbeatsAreConserved(p, m, w);
      RunStep(p, m);
      HeartbeatStep(p.states[m], p.labels[m], w);
    }
  }
}
