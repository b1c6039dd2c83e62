/** Runs that the protocol does have: an undisturbed sync goes through iff the keys fit
    into a request, and two syncs that overlap at the very end can leave a worker with the
    older keys. */
module SyncProgress {
  import opened Common
  import opened SyncBudget
  import opened SyncProtocol
  import opened SyncInvariant
  import opened SyncFrames
  import opened SyncKnowledge
  import opened SyncSteps
  import opened SyncTheorems

  lemma Go(p: Path, l: Label) returns (q: Path)
    requires p.Valid() && Enabled(p.End(), l)
    ensures q.Valid() && q.Start() == p.Start() && q.End() == Apply(p.End(), l)
    ensures q.labels == p.labels + [l]
  {
    q := Path(p.states + [Apply(p.End(), l)], p.labels + [l]);
    forall i | 0 <= i < |q.labels| ensures Link(q.states[i], q.labels[i], q.states[i + 1]) {
      if i < |p.labels| { assert Link(p.states[i], p.labels[i], p.states[i + 1]); }
    }
  }

  lemma {:induction false} PathExecutes(p: Path, n: nat)
    requires p.Valid() && n <= |p.labels|
    ensures Execute(p.Start(), p.labels[..n]) == Some(p.states[n])
  {
    if n > 0 {
      var i := n - 1;
      PathExecutes(p, i);
      assert p.labels[..n][..i] == p.labels[..i];
      assert Link(p.states[i], p.labels[i], p.states[i + 1]);
    }
  }

  lemma DocLenStays(s: State, l: Label)
    requires Enabled(s, l)
    ensures Apply(s, l).docLen == s.docLen
  {
    if OfLeader(l) { LeaderLeaves(s, l); } else { WorkerLeaves(s, l); }
  }

  /** What a run has to offer at its start holds at every point of it. */
  lemma {:induction false} AlongPath(p: Path, i: nat)
    requires p.Valid() && Inv(p.Start()) && Known(p.Start()) && i < |p.states|
    ensures Inv(p.states[i]) && Known(p.states[i]) && p.states[i].docLen == p.Start().docLen
    ensures KeysBounded(p.Start()) ==> KeysBounded(p.states[i])
  {
    if i > 0 {
      var k := i - 1;
      AlongPath(p, k);
      assert Link(p.states[k], p.labels[k], p.states[k + 1]);
      StepKeeps(p.states[k], p.labels[k]);
      StepKeepsKnown(p.states[k], p.labels[k]);
      DocLenStays(p.states[k], p.labels[k]);
      if KeysBounded(p.states[k]) { StepKeepsBounds(p.states[k], p.labels[k]); }
    }
  }

  // -------------------------------------------------------- an undisturbed sync

  /** The names that one more sync is going to use. */
  datatype Names = Names(sid: SyncId, n: Nonce, wn: Nonce, k: BoxKey, h: HandlerId)

  predicate Unused(s: State, x: Names) {
    && x.sid !in s.syncs && Fresh(s, x.n) && Fresh(s, x.wn) && x.n != x.wn
    && x.k !in s.boxKeys && x.h !in s.finishes
  }

  /** A number above all of a set. */
  lemma {:induction false} Above(xs: set<nat>) returns (n: nat)
    ensures n > 0 && forall x :: x in xs ==> x < n
    decreases |xs|
  {
    if xs == {} {
      n := 1;
    } else {
      var x :| x in xs;
      var m := Above(xs - {x});
      n := if x < m then m else x + 1;
      assert forall y :: y in xs ==> y == x || y in xs - {x};
    }
  }

  lemma UnusedNames(s: State) returns (x: Names)
    ensures Unused(s, x)
  {
    var sid := Above(s.syncs.Keys);
    var n := Above(s.seen);
    var k := Above(s.boxKeys.Keys);
    var h := Above(s.finishes.Keys);
    x := Names(sid, n, n + 1, k, h);
    assert sid !in s.syncs.Keys && k !in s.boxKeys.Keys && h !in s.finishes.Keys;
  }

  /** The leader runs and the worker is not in the middle of a sync. */
  predicate Ready(s: State, w: WorkerId) {
    !s.leader.crashed && w in s.workers && s.workers[w].nonceCh.None? && s.workers[w].keyCh.None?
  }

  function Current(s: State): Snapshot {
    Snapshot(s.leader.version, s.leader.keys)
  }

  /** After the worker put its nonce in the channel. */
  predicate NonceSent(s: State, t: State, w: WorkerId, x: Names) {
    && w in s.workers
    && t.workers == s.workers[w := s.workers[w].(nonceCh := Some(x.wn))]
    && x.wn in t.sessions && t.sessions[x.wn].worker == w && t.sessions[x.wn].leadersNonce == x.n
    && t.sessions[x.wn].pc == NoncePushed
    && t.syncs == s.syncs[x.sid := Sync(w, FromHeartbeat, x.n, AwaitingDoc, None, None)]
    && t.finishes == s.finishes && t.leader == s.leader && t.boxKeys == s.boxKeys
    && t.seen == s.seen + {x.n, x.wn} && t.docLen == s.docLen
  }

  lemma NoncePhase(p: Path, w: WorkerId, x: Names) returns (q: Path)
    requires p.Valid() && Ready(p.End(), w) && Unused(p.End(), x)
    ensures q.Valid() && q.Start() == p.Start() && NonceSent(p.End(), q.End(), w, x)
  {
    q := Go(p, Heartbeat(w, None, x.sid, x.n));
    q := Go(q, GetArrives(w, x.n));
    q := Go(q, PushNonce(Get(w, x.n), x.wn));
  }

  /** After the worker answered the GET. */
  predicate GetAnswered(s: State, t: State, w: WorkerId, x: Names) {
    && w in s.workers
    && t.workers == s.workers[w := s.workers[w].(keyCh := Some(x.k))]
    && x.wn in t.sessions
    && WorkerDoc(x.wn, x.n, x.k) in t.docs
    && t.syncs == s.syncs && t.finishes == s.finishes && t.leader == s.leader
    && t.boxKeys == s.boxKeys[x.k := x.wn] && t.seen == s.seen && t.docLen == s.docLen
  }

  lemma KeyPhase(p: Path, w: WorkerId, x: Names) returns (q: Path)
    requires p.Valid()
    requires var s := p.End();
      && w in s.workers && s.workers[w].keyCh.None? && x.k !in s.boxKeys
      && x.wn in s.sessions && s.sessions[x.wn].worker == w && s.sessions[x.wn].leadersNonce == x.n
      && s.sessions[x.wn].pc == NoncePushed
    ensures q.Valid() && q.Start() == p.Start() && GetAnswered(p.End(), q.End(), w, x)
  {
    q := Go(p, PushKey(x.wn, x.k));
    q := Go(q, AnswerGet(x.wn));
  }

  function PostOf(w: WorkerId, x: Names, snap: Snapshot): Post {
    var blob := Sealed(x.k, x.sid, KeysJson(snap));
    Post(w, Body(false, Some(LeaderDoc(x.wn, Sha256(blob))), Some(blob)))
  }

  /** A call that was answered and has its snapshot. */
  predicate HasSnapshot(y: Sync, w: WorkerId, x: Names, snap: Snapshot, pc: SyncPc) {
    && y.worker == w && y.origin.FromHeartbeat? && y.pc == pc && y.heard == Some(Heard(x.wn, x.k))
    && y.taken.Some? && y.taken.value.snap == snap
  }

  /** Only the call and the documents changed. */
  predicate CallMoved(s: State, t: State, x: Names) {
    && t.workers == s.workers && t.sessions == s.sessions && t.finishes == s.finishes
    && t.leader == s.leader && t.boxKeys == s.boxKeys && t.seen == s.seen && t.docLen == s.docLen
    && t.syncs.Keys == s.syncs.Keys && x.sid in t.syncs
  }

  lemma HearPhase(p: Path, w: WorkerId, x: Names) returns (q: Path)
    requires p.Valid()
    requires var s := p.End();
      && !s.leader.crashed && WorkerDoc(x.wn, x.n, x.k) in s.docs
      && x.sid in s.syncs && s.syncs[x.sid] == Sync(w, FromHeartbeat, x.n, AwaitingDoc, None, None)
    ensures q.Valid() && q.Start() == p.Start() && CallMoved(p.End(), q.End(), x)
    ensures q.End().syncs[x.sid] == Sync(w, FromHeartbeat, x.n, Verified, Some(Heard(x.wn, x.k)), None)
  {
    q := Go(p, HearDoc(x.sid, Some(WorkerDoc(x.wn, x.n, x.k))));
  }

  lemma PostPhase(p: Path, w: WorkerId, x: Names) returns (q: Path)
    requires p.Valid()
    requires var s := p.End();
      && !s.leader.crashed && x.sid in s.syncs
      && s.syncs[x.sid] == Sync(w, FromHeartbeat, x.n, Verified, Some(Heard(x.wn, x.k)), None)
    ensures q.Valid() && q.Start() == p.Start() && CallMoved(p.End(), q.End(), x)
    ensures HasSnapshot(q.End().syncs[x.sid], w, x, Current(p.End()), Posted)
    ensures PostOf(w, x, Current(p.End())).body.doc.value in q.End().docs
  {
    q := Go(p, TakeSnapshot(x.sid));
    q := Go(q, PostKeys(x.sid));
  }

  /** After the leader posted its keys, with nonce and key of the session in the channels. */
  predicate Offered(s: State, t: State, w: WorkerId, x: Names) {
    && w in s.workers && x.sid in t.syncs && x.wn in t.sessions
    && t.workers == s.workers[w := s.workers[w].(nonceCh := Some(x.wn), keyCh := Some(x.k))]
    && t.finishes == s.finishes && t.leader == s.leader && t.boxKeys == s.boxKeys[x.k := x.wn]
    && t.seen == s.seen + {x.n, x.wn} && t.syncs.Keys == s.syncs.Keys + {x.sid} && t.docLen == s.docLen
    && HasSnapshot(t.syncs[x.sid], w, x, Current(s), Posted)
    && PostOf(w, x, Current(s)).body.doc.value in t.docs
  }

  lemma OfferPhase(p: Path, w: WorkerId, x: Names) returns (q: Path)
    requires p.Valid() && Ready(p.End(), w) && Unused(p.End(), x)
    ensures q.Valid() && q.Start() == p.Start() && Offered(p.End(), q.End(), w, x)
  {
    q := NoncePhase(p, w, x);
    q := KeyPhase(q, w, x);
    q := HearPhase(q, w, x);
    q := PostPhase(q, w, x);
  }

  /** After a handler of the worker took the nonce, and got to pc. */
  predicate NonceTaken(s: State, t: State, w: WorkerId, x: Names, snap: Snapshot, pc: FinishPc) {
    && w in s.workers
    && t.workers == s.workers[w := s.workers[w].(nonceCh := None)]
    && t.finishes == s.finishes[x.h := Finish(w, PostOf(w, x, snap).body, x.wn, pc)]
    && t.leader == s.leader && t.boxKeys == s.boxKeys && t.seen == s.seen && t.syncs == s.syncs
    && t.docs == s.docs && x.wn in t.sessions && t.docLen == s.docLen
  }

  lemma TakePhase(p: Path, w: WorkerId, x: Names, snap: Snapshot) returns (q: Path)
    requires p.Valid()
    requires var s := p.End();
      && w in s.workers && x.h !in s.finishes
      && s.workers[w].nonceCh == Some(x.wn) && x.wn in s.sessions
      && PostOf(w, x, snap).body.doc.value in s.docs && Fits(s.docLen, Raw(snap))
    ensures q.Valid() && q.Start() == p.Start() && NonceTaken(p.End(), q.End(), w, x, snap, TookNonce)
  {
    q := Go(p, PostArrives(PostOf(w, x, snap)));
    q := Go(q, TakeNonce(PostOf(w, x, snap), x.h));
  }

  lemma CheckPhase(p: Path, w: WorkerId, x: Names, snap: Snapshot) returns (q: Path)
    requires p.Valid()
    requires var s := p.End();
      && w in s.workers && x.h !in s.finishes
      && s.workers[w].nonceCh == Some(x.wn) && x.wn in s.sessions
      && PostOf(w, x, snap).body.doc.value in s.docs && Fits(s.docLen, Raw(snap))
    ensures q.Valid() && q.Start() == p.Start() && NonceTaken(p.End(), q.End(), w, x, snap, Passed)
  {
    q := TakePhase(p, w, x, snap);
    GenuinePostPasses(q.End().docs, w, x, snap);
    q := Go(q, VerifyPost(x.h, false));
  }

  lemma GenuinePostPasses(docs: set<Doc>, w: WorkerId, x: Names, snap: Snapshot)
    requires PostOf(w, x, snap).body.doc.value in docs
    ensures PassesChecks(docs, Finish(w, PostOf(w, x, snap).body, x.wn, TookNonce))
  {
  }

  /** After the worker decrypted the keys: both channels are empty again. */
  predicate KeysOpened(s: State, t: State, w: WorkerId, x: Names, snap: Snapshot) {
    && w in s.workers && w in t.workers && x.h in s.finishes
    && t.workers[w] == s.workers[w].(keyCh := None, log := t.workers[w].log)
    && |t.workers[w].log| == |s.workers[w].log| + 1 && s.workers[w].log <= t.workers[w].log
    && t.workers[w].log[|s.workers[w].log|].plain == KeysJson(snap)
    && t.finishes == s.finishes[x.h := s.finishes[x.h].(pc := Opened(|s.workers[w].log|))]
    && t.leader == s.leader && t.boxKeys == s.boxKeys && t.seen == s.seen && t.syncs == s.syncs
    && t.docLen == s.docLen
  }

  lemma OpenPhase(p: Path, w: WorkerId, x: Names, snap: Snapshot) returns (q: Path)
    requires p.Valid()
    requires var s := p.End();
      && w in s.workers && x.h in s.finishes
      && s.finishes[x.h] == Finish(w, PostOf(w, x, snap).body, x.wn, Passed)
      && s.workers[w].keyCh == Some(x.k)
      && x.wn in s.sessions && x.k in s.boxKeys && s.boxKeys[x.k] == x.wn
    ensures q.Valid() && q.Start() == p.Start() && KeysOpened(p.End(), q.End(), w, x, snap)
  {
    q := Go(p, PopKey(x.h));
  }

  /** The result of one undisturbed sync, up to the decryption. */
  predicate Decrypted(s: State, t: State, w: WorkerId, x: Names) {
    && w in s.workers && w in t.workers && x.h in t.finishes && x.sid in t.syncs
    && t.workers[w] == s.workers[w].(log := t.workers[w].log)
    && |t.workers[w].log| == |s.workers[w].log| + 1 && s.workers[w].log <= t.workers[w].log
    && t.workers[w].log[|s.workers[w].log|].plain == KeysJson(Current(s))
    && t.finishes == s.finishes[x.h := t.finishes[x.h]]
    && t.finishes[x.h] == Finish(w, PostOf(w, x, Current(s)).body, x.wn, Opened(|s.workers[w].log|))
    && t.leader == s.leader && t.boxKeys.Keys == s.boxKeys.Keys + {x.k} && t.docLen == s.docLen
    && t.seen == s.seen + {x.n, x.wn} && t.syncs.Keys == s.syncs.Keys + {x.sid}
    && HasSnapshot(t.syncs[x.sid], w, x, Current(s), Posted)
  }

  /** Whatever happened before: when the leader runs with keys that fit and the worker's
      channels are empty, a registration that nobody interferes with makes the worker
      decrypt the leader's current keys, and frees both channels again. */
  lemma SyncUpToDecryption(p: Path, w: WorkerId, x: Names) returns (q: Path)
    requires p.Valid() && Ready(p.End(), w) && Unused(p.End(), x)
    requires Fits(p.End().docLen, Raw(Current(p.End())))
    ensures q.Valid() && q.Start() == p.Start() && Decrypted(p.End(), q.End(), w, x)
  {
    q := OfferPhase(p, w, x);
    q := CheckPhase(q, w, x, Current(p.End()));
    q := OpenPhase(q, w, x, Current(p.End()));
  }

  /** In the end the worker agrees with the leader and is registered, as are those who were
      before, and both channels are empty. */
  predicate SyncedAndRegistered(s: State, t: State, w: WorkerId) {
    && Agrees(t, w) && t.workers[w].version.Some? && Current(t) == Current(s)
    && t.leader.registry == s.leader.registry + {w}
    && t.workers[w].nonceCh.None? && t.workers[w].keyCh.None?
  }

  lemma UndisturbedSyncGoesThrough(p: Path, w: WorkerId, x: Names) returns (q: Path)
    requires p.Valid() && Ready(p.End(), w) && Unused(p.End(), x) && p.End().leader.loop.Select?
    requires Fits(p.End().docLen, Raw(Current(p.End())))
    ensures q.Valid() && q.Start() == p.Start() && SyncedAndRegistered(p.End(), q.End(), w)
  {
    q := SyncUpToDecryption(p, w, x);
    q := InstallPhase(q, w, x, Current(p.End()));
    q := RegisterPhase(q, w, x, Current(p.End()));
  }

  /** The event loop gets through with its fan-out. */
  lemma {:induction false} FanOutPhase(p: Path) returns (q: Path)
    requires p.Valid() && !p.End().leader.crashed
    ensures q.Valid() && q.Start() == p.Start() && SameButLoop(p.End(), q.End()) && q.End().leader.loop.Select?
    decreases if p.End().leader.loop.FanningOut? then |p.End().leader.loop.todo| else 0
  {
    var loop := p.End().leader.loop;
    if loop.Select? {
      q := p;
    } else if loop.todo == {} {
      q := Go(p, DispatchDone);
    } else {
      var w :| w in loop.todo;
      q := SpawnPhase(p, w);
      q := FanOutPhase(q);
    }
  }

  predicate SameButLoop(s: State, t: State) {
    && t.workers == s.workers && t.leader == s.leader.(loop := t.leader.loop)
    && t.docLen == s.docLen
  }

  lemma SpawnPhase(p: Path, w: WorkerId) returns (q: Path)
    requires p.Valid() && !p.End().leader.crashed && p.End().leader.loop.FanningOut? && w in p.End().leader.loop.todo
    ensures q.Valid() && q.Start() == p.Start() && SameButLoop(p.End(), q.End())
    ensures q.End().leader.loop == FanningOut(p.End().leader.loop.version, p.End().leader.loop.todo - {w})
  {
    var x := UnusedNames(p.End());
    q := Go(p, SpawnSync(w, x.sid, x.n));
  }

  lemma InstallPhase(p: Path, w: WorkerId, x: Names, snap: Snapshot) returns (q: Path)
    requires p.Valid() && x.h in p.End().finishes && w in p.End().workers
    requires var s := p.End(); var i := |s.workers[w].log| - 1;
      && i >= 0 && s.workers[w].log[i].plain == KeysJson(snap)
      && s.finishes[x.h] == Finish(w, PostOf(w, x, snap).body, x.wn, Opened(i))
    ensures q.Valid() && q.Start() == p.Start() && w in q.End().workers
    ensures var s, t := p.End(), q.End();
      && t.workers[w].keys == snap.keys && t.workers[w].version == Some(snap.version)
      && t.workers[w].nonceCh == s.workers[w].nonceCh && t.workers[w].keyCh == s.workers[w].keyCh
      && t.workers[w].log == s.workers[w].log
      && t.workers[w].installs == s.workers[w].installs + [|s.workers[w].log| - 1]
      && t.finishes == s.finishes[x.h := s.finishes[x.h].(pc := Installed(|s.workers[w].log| - 1))]
      && t.leader == s.leader && t.syncs == s.syncs && t.docLen == s.docLen
  {
    q := Go(p, Install(x.h));
  }

  lemma RegisterPhase(p: Path, w: WorkerId, x: Names, snap: Snapshot) returns (q: Path)
    requires p.Valid() && x.h in p.End().finishes && x.sid in p.End().syncs && w in p.End().workers
    requires var s := p.End();
      && !s.leader.crashed && s.leader.loop.Select? && HasSnapshot(s.syncs[x.sid], w, x, snap, Posted)
      && s.finishes[x.h].worker == w && s.finishes[x.h].body == PostOf(w, x, snap).body
      && s.finishes[x.h].pc.Installed?
    ensures q.Valid() && q.Start() == p.Start()
    ensures q.End().workers == p.End().workers && q.End().leader.registry == p.End().leader.registry + {w}
    ensures Current(q.End()) == Current(p.End())
  {
    q := Go(p, HearOk(x.sid, x.h));
    q := Go(q, RegisterAfter(x.sid));
  }

  /** Some continuation without a PUT brings the worker into agreement and into
      the registry. */
  ghost predicate CanSync(s: State, w: WorkerId) {
    exists p: Path :: p.Valid() && p.Start() == s && SyncedAndRegistered(s, p.End(), w)
  }

  /** With the leader running and the worker's channels empty, the worker can be brought to
      agree with what the leader has now iff that fits into one request. */
  lemma SyncPossibleIff(s0: State, trace: seq<Label>, s: State, w: WorkerId)
    requires Reaches(s0, trace, s) && Ready(s, w)
    ensures CanSync(s, w) <==> Fits(s.docLen, Raw(Current(s)))
  {
    ReachableInv(s0, trace, s);
    ReachableKnown(s0, trace, s);
    if Fits(s.docLen, Raw(Current(s))) {
      var p := FanOutPhase(Path([s], []));
      var x := UnusedNames(p.End());
      p := UndisturbedSyncGoesThrough(p, w, x);
    }
    if CanSync(s, w) {
      var p: Path :| p.Valid() && p.Start() == s && SyncedAndRegistered(s, p.End(), w);
      ReachableBounds(s0, trace, s);
      AlongPath(p, |p.states| - 1);
      AgreeingFits(p.End(), w);
    }
  }

  // ------------------------------------------------- installations that break agreement

  /** What the leader has after a PUT of the given keys. */
  function Next(s: State, appKeys: Bytes): Snapshot {
    Current(DoPut(s, appKeys))
  }

  /** Handler h of worker w, which agrees with the leader, is about to install the keys of the
      given snapshot, which are not the leader's. */
  predicate AboutToBreak(t: State, w: WorkerId, h: HandlerId, snap: Snapshot) {
    && Agrees(t, w) && CanInstall(t, h) && t.finishes[h].worker == w
    && t.workers[w].log[t.finishes[h].pc.index].plain == KeysJson(snap)
    && InstallsOther(t, Install(h), w)
  }

  /** The PUT changes the keys, and what was there before and after it can be sent. */
  predicate ChangesAndFits(s: State, appKeys: Bytes) {
    && appKeys != s.leader.keys.appKeys
    && Fits(s.docLen, Raw(Current(s))) && Fits(s.docLen, Raw(Next(s, appKeys)))
  }

  /** A PUT, and a sync up to the decryption. */
  lemma PutAndDecrypt(p: Path, w: WorkerId, appKeys: Bytes) returns (q: Path, x: Names)
    requires p.Valid() && Ready(p.End(), w) && Fits(p.End().docLen, Raw(Next(p.End(), appKeys)))
    ensures q.Valid() && q.Start() == p.Start() && x.h !in p.End().finishes
    ensures Decrypted(DoPut(p.End(), appKeys), q.End(), w, x)
  {
    q := PutPhase(p, appKeys);
    x := UnusedNames(q.End());
    q := SyncUpToDecryption(q, w, x);
  }

  /** After one PUT the worker has the new keys and is about to go back to the old ones. */
  predicate RollsBack(s: State, w: WorkerId, appKeys: Bytes, p: Path, h: HandlerId) {
    && p.Valid() && p.Start() == s && Current(p.End()) == Next(s, appKeys)
    && InSync(p.End(), w) && AboutToBreak(p.End(), w, h, Current(s))
  }

  /** Installation can roll back: from every state with a running leader and empty channels
      there is a continuation with just one PUT in which the worker agrees with the leader
      and then goes back to the older keys, because the handler that decrypted them first
      installs them last.  There is one iff the PUT changes the keys and both key sets fit
      into a request. */
  lemma InstallCanRollBackIff(s0: State, trace: seq<Label>, s: State, w: WorkerId, appKeys: Bytes)
    requires Reaches(s0, trace, s) && Ready(s, w)
    ensures (exists p, h :: RollsBack(s, w, appKeys, p, h)) <==> ChangesAndFits(s, appKeys)
  {
    ReachableInv(s0, trace, s);
    ReachableKnown(s0, trace, s);
    if ChangesAndFits(s, appKeys) {
      var p, h := RollBack(s, w, appKeys);
    }
    if p, h :| RollsBack(s, w, appKeys, p, h) {
      RollBackNeeds(s, w, appKeys, p, h);
    }
  }

  lemma RollBackNeeds(s: State, w: WorkerId, appKeys: Bytes, p: Path, h: HandlerId)
    requires Inv(s) && Known(s) && RollsBack(s, w, appKeys, p, h)
    ensures ChangesAndFits(s, appKeys)
  {
    AlongPath(p, |p.states| - 1);
    OpenedFits(p.End(), w, p.End().finishes[h].pc.index);
    InstalledFits(p.End(), w);
  }

  lemma RollBack(s: State, w: WorkerId, appKeys: Bytes) returns (p: Path, h: HandlerId)
    requires Ready(s, w) && ChangesAndFits(s, appKeys)
    ensures RollsBack(s, w, appKeys, p, h)
  {
    var x := UnusedNames(s);
    h := x.h;
    p := SyncUpToDecryption(Path([s], []), w, x);
    p := Overtake(p, w, appKeys);
  }

  /** A PUT, and a sync that is installed before what was decrypted earlier. */
  lemma Overtake(p: Path, w: WorkerId, appKeys: Bytes) returns (q: Path)
    requires p.Valid() && Ready(p.End(), w) && Fits(p.End().docLen, Raw(Next(p.End(), appKeys)))
    ensures q.Valid() && q.Start() == p.Start() && w in q.End().workers && InSync(q.End(), w)
    ensures Current(q.End()) == Next(p.End(), appKeys) && p.End().workers[w].log <= q.End().workers[w].log
    ensures forall g :: g in p.End().finishes ==> g in q.End().finishes && q.End().finishes[g] == p.End().finishes[g]
  {
    var y;
    q, y := PutAndDecrypt(p, w, appKeys);
    q := InstallPhase(q, w, y, Next(p.End(), appKeys));
  }

  /** After two PUTs that lead away from the keys and back, the worker has the keys from
      before them, and is about to install those from in between, in decryption order. */
  predicate BreaksInOrder(s: State, w: WorkerId, appKeys: Bytes, p: Path, h: HandlerId) {
    && p.Valid() && p.Start() == s
    && Current(p.End()) == Snapshot(s.leader.version + 2, s.leader.keys)
    && w in p.End().workers && p.End().workers[w].version == Some(s.leader.version)
    && AboutToBreak(p.End(), w, h, Next(s, appKeys)) && InOrder(p.End(), h, w)
  }

  /** Not even installing in decryption order saves agreement: when the leader is given other
      keys and then the earlier ones again, a worker that still has the earlier ones, and
      whose heartbeat says so, goes over to the others with no further PUT. */
  lemma InOrderInstallCanBreakIff(s0: State, trace: seq<Label>, s: State, w: WorkerId, appKeys: Bytes)
    requires Reaches(s0, trace, s) && Ready(s, w)
    ensures (exists p, h :: BreaksInOrder(s, w, appKeys, p, h)) <==> ChangesAndFits(s, appKeys)
  {
    ReachableInv(s0, trace, s);
    ReachableKnown(s0, trace, s);
    ReachableBounds(s0, trace, s);
    if ChangesAndFits(s, appKeys) {
      var p, h := BreakInOrder(s, w, appKeys);
    }
    if p, h :| BreaksInOrder(s, w, appKeys, p, h) {
      BreakInOrderNeeds(s, w, appKeys, p, h);
    }
  }

  lemma BreakInOrderNeeds(s: State, w: WorkerId, appKeys: Bytes, p: Path, h: HandlerId)
    requires Inv(s) && Known(s) && BreaksInOrder(s, w, appKeys, p, h)
    ensures ChangesAndFits(s, appKeys)
  {
    AlongPath(p, |p.states| - 1);
    OpenedFits(p.End(), w, p.End().finishes[h].pc.index);
    InstalledFits(p.End(), w);
  }

  lemma InstalledFits(s: State, w: WorkerId)
    requires Inv(s) && BodiesOk(s) && w in s.workers && s.workers[w].version.Some?
    ensures Fits(s.docLen, Raw(Snapshot(s.workers[w].version.value, s.workers[w].keys)))
  {
    LastInstalled(s, w);
    var i := s.workers[w].installs[|s.workers[w].installs| - 1];
    assert OpeningOk(s, w, i);
    OpenedFits(s, w, i);
  }

  lemma BreakInOrder(s: State, w: WorkerId, appKeys: Bytes) returns (p: Path, h: HandlerId)
    requires Ready(s, w) && KeysBounded(s) && ChangesAndFits(s, appKeys)
    ensures BreaksInOrder(s, w, appKeys, p, h)
  {
    p := SyncAndInstall(s, w);
    var y;
    p, y := PutAndDecrypt(p, w, appKeys);
    h := y.h;
    p := Go(p, Put(s.leader.keys.appKeys));
  }

  lemma SyncAndInstall(s: State, w: WorkerId) returns (p: Path)
    requires Ready(s, w) && Fits(s.docLen, Raw(Current(s)))
    ensures p.Valid() && p.Start() == s && Ready(p.End(), w) && InSync(p.End(), w)
    ensures p.End().leader == s.leader && p.End().docLen == s.docLen
    ensures var x := p.End().workers[w]; x.installs != [] && x.installs[|x.installs| - 1] < |x.log|
  {
    var x := UnusedNames(s);
    p := SyncUpToDecryption(Path([s], []), w, x);
    p := InstallPhase(p, w, x, Current(s));
  }

  lemma PutPhase(p: Path, appKeys: Bytes) returns (q: Path)
    requires p.Valid() && !p.End().leader.crashed
    requires Fits(p.End().docLen, Raw(Current(DoPut(p.End(), appKeys))))
    ensures q.Valid() && q.Start() == p.Start() && q.End() == Ticked(p.End(), DoPut(p.End(), appKeys))
  {
    if |appKeys| > MAX_KEY_MATERIAL_LEN {
      LargeAppKeysCannotSync(p.End().docLen, Raw(Current(DoPut(p.End(), appKeys))));
    }
    q := Go(p, Put(appKeys));
  }

  // ------------------------------------------------------ a registration too late

  /** Between the comparison of hashes and the registration of a worker there is room for a
      PUT and its fan-out: the worker is then registered with other keys than the leader's,
      and the fan-out has passed it by. */
  lemma RegistrationCanMissFanOut(s0: State, trace: seq<Label>, s: State, w: WorkerId, appKeys: Bytes)
    returns (p: Path)
    requires Reaches(s0, trace, s) && !s.leader.crashed && s.leader.loop.Select?
    requires Agrees(s, w) && w !in s.leader.registry && appKeys != s.leader.keys.appKeys
    requires |appKeys| <= MAX_KEY_MATERIAL_LEN
    ensures p.Valid() && p.Start() == s && w in p.End().leader.registry && !Agrees(p.End(), w)
    ensures var v := p.End().leader.version;
      v == s.leader.version + 1 && v in p.End().leader.targets && w !in p.End().leader.targets[v]
  {
    ReachableInv(s0, trace, s);
    p := MissFanOut(Path([s], []), w, appKeys);
  }

  lemma MissFanOut(p: Path, w: WorkerId, appKeys: Bytes) returns (q: Path)
    requires p.Valid() && !p.End().leader.crashed && p.End().leader.loop.Select?
    requires Agrees(p.End(), w) && w !in p.End().leader.registry && appKeys != p.End().leader.keys.appKeys
    requires |appKeys| <= MAX_KEY_MATERIAL_LEN && p.End().leader.version + 1 !in p.End().leader.targets
    ensures q.Valid() && q.Start() == p.Start() && w in q.End().leader.registry && !Agrees(q.End(), w)
    ensures var v := q.End().leader.version;
      v == p.End().leader.version + 1 && v in q.End().leader.targets && w !in q.End().leader.targets[v]
  {
    q := ComparePhase(p, w);
    q := DispatchPhase(q, w, appKeys);
    q := FanOutPhase(q);
    q := Go(q, Register(w));
  }

  lemma ComparePhase(p: Path, w: WorkerId) returns (q: Path)
    requires p.Valid() && !p.End().leader.crashed && Agrees(p.End(), w)
    ensures q.Valid() && q.Start() == p.Start() && w in q.End().leader.registering
    ensures var s, t := p.End(), q.End();
      t.workers == s.workers && t.leader == s.leader.(registering := t.leader.registering)
  {
    q := Go(p, Heartbeat(w, Some(HashedBytes(p.End().workers[w].keys)), 0, 0));
  }

  lemma DispatchPhase(p: Path, w: WorkerId, appKeys: Bytes) returns (q: Path)
    requires p.Valid() && !p.End().leader.crashed && p.End().leader.loop.Select?
    requires |appKeys| <= MAX_KEY_MATERIAL_LEN && p.End().leader.version + 1 !in p.End().leader.targets
    ensures q.Valid() && q.Start() == p.Start() && q.End().workers == p.End().workers
    ensures var s, t := p.End(), q.End(); var v := s.leader.version + 1;
      && t.leader == DoPut(s, appKeys).leader.(loop := FanningOut(v, s.leader.registry),
                                               targets := s.leader.targets[v := s.leader.registry])
  {
    q := Go(p, Put(appKeys));
    q := Go(q, Dispatch(q.End().leader.version));
  }

  // ------------------------------------------------------------------- crashes

  /** Whoever sees the nonce of a call can bring the leader down: one request for attestation
      with that nonce, and one answer. */
  lemma ClientDocCrashesLeader(p: Path, sid: SyncId, hashes: nat) returns (q: Path)
    requires p.Valid() && !p.End().leader.crashed && At(p.End(), sid, AwaitingDoc)
    ensures q.Valid() && q.Start() == p.Start() && q.End().leader.crashed && |q.labels| == |p.labels| + 2
  {
    var n := p.End().syncs[sid].nonce;
    q := Go(p, ClientAttstn(n, hashes));
    q := Go(q, HearDoc(sid, Some(ClientDoc(n, hashes))));
  }
}
