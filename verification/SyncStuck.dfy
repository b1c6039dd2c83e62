/** When a worker can still be synced.  The in-progress check turns every GET down while a
    key is in the channel, and the key leaves the channel only with a decryption.  So a
    session that nobody can finish any more ends all syncing of its worker.  Here is the
    condition under which a worker can recover, and the proof that nothing restores it. */
module SyncStuck {
  import opened Common
  import opened SyncBudget
  import opened SyncProtocol
  import opened SyncInvariant
  import opened SyncFrames
  import opened SyncKnowledge
  import opened SyncSteps
  import opened SyncProgress

  // ------------------------------------------------------------- the condition

  /** After a suitable PUT the leader's keys fit into a request. */
  predicate HasRoom(s: State) {
    Fits(s.docLen, Raw(Snapshot(1, s.leader.keys.(appKeys := []))))
  }

  predicate HeardFrom(y: Sync, n: Nonce) {
    y.heard.Some? && y.heard.value.workersNonce == n
  }

  predicate HasFitting(s: State, y: Sync) {
    y.taken.Some? && Fits(s.docLen, Raw(y.taken.value.snap))
  }

  /** The call has a signed document and a ciphertext for the session; whether it still runs
      does not matter. */
  predicate Issued(s: State, n: Nonce, sid: SyncId) {
    && sid in s.syncs && HeardFrom(s.syncs[sid], n) && HasFitting(s, s.syncs[sid])
    && DocOf(sid, s.syncs[sid]) in s.docs
  }

  /** The worker answered the GET of the session, or is about to. */
  predicate Answerable(s: State, n: Nonce)
    requires n in s.sessions
  {
    var z := s.sessions[n];
    z.key.Some? && (z.pc == KeyPushed || WorkerDoc(n, z.leadersNonce, z.key.value) in s.docs)
  }

  /** A running leader can still get to a document for the session with this call. */
  predicate CanIssue(s: State, n: Nonce, y: Sync)
    requires n in s.sessions
  {
    && !s.leader.crashed
    && match y.pc
       case AwaitingDoc => y.nonce == s.sessions[n].leadersNonce && Answerable(s, n) && HasRoom(s)
       case Verified => HeardFrom(y, n) && HasRoom(s)
       case Snapped => HeardFrom(y, n) && HasFitting(s, y)
       case _ => false
  }

  predicate Serves(s: State, n: Nonce, sid: SyncId)
    requires n in s.sessions
  {
    sid in s.syncs && (Issued(s, n, sid) || CanIssue(s, n, s.syncs[sid]))
  }

  /** The handler got through the checks, or will. */
  predicate WillPass(s: State, h: HandlerId) {
    && h in s.finishes
    && (s.finishes[h].pc == Passed || (s.finishes[h].pc == TookNonce && PassesChecks(s.docs, s.finishes[h])))
  }

  /** The session can still be finished: by whoever took its nonce, or, if it is untaken, with
      the help of some call. */
  predicate Finishable(s: State, n: Nonce)
    requires n in s.sessions
  {
    match s.sessions[n].takenBy
    case Some(h) => WillPass(s, h)
    case None => exists sid :: sid in s.syncs && Serves(s, n, sid)
  }

  /** Either no session is in the way and the leader runs and can send, or the session whose
      key is in the channel can still be finished. */
  predicate Recoverable(s: State, w: WorkerId)
    requires w in s.workers
  {
    match s.workers[w].keyCh
    case None => !s.leader.crashed && HasRoom(s)
    case Some(k) => k in s.boxKeys && s.boxKeys[k] in s.sessions && Finishable(s, s.boxKeys[k])
  }

  /** A session that cannot be finished is in the way. */
  predicate Stuck(s: State, w: WorkerId) {
    w in s.workers && s.workers[w].keyCh.Some? && !Recoverable(s, w)
  }

  /** The worker is not recoverable: it decrypted nothing in between, and a key that was in
      the channel still is. */
  predicate StillStuck(s: State, t: State, w: WorkerId) {
    && w in s.workers && w in t.workers && !Recoverable(t, w)
    && t.workers[w].log == s.workers[w].log
    && (s.workers[w].keyCh.Some? ==> t.workers[w].keyCh == s.workers[w].keyCh)
  }

  /** A worker that has an unfinishable session never syncs again, in no interleaving
      whatsoever: every later GET is turned down and nothing more is decrypted. */
  lemma StuckForGood(s0: State, trace: seq<Label>, p: Path, w: WorkerId, i: nat)
    requires p.Valid() && Reaches(s0, trace, p.Start()) && i < |p.states|
    requires Stuck(p.Start(), w)
    ensures StillStuck(p.Start(), p.states[i], w) && !CanGetArrives(p.states[i], w)
  {
    ReachableInv(s0, trace, p.Start());
    ReachableKnown(s0, trace, p.Start());
    StuckAlongPath(p, w, i);
  }

  lemma {:induction false} StuckAlongPath(p: Path, w: WorkerId, i: nat)
    requires p.Valid() && Inv(p.Start()) && Known(p.Start()) && i < |p.states|
    requires w in p.Start().workers && !Recoverable(p.Start(), w)
    ensures StillStuck(p.Start(), p.states[i], w)
  {
    if i > 0 {
      var k := i - 1;
      StuckAlongPath(p, w, k);
      AlongPath(p, k);
      assert Link(p.states[k], p.labels[k], p.states[k + 1]);
      StaysStuck(p.states[k], p.labels[k], w);
    }
  }

  lemma StaysStuck(s: State, l: Label, w: WorkerId)
    requires Inv(s) && Known(s) && Enabled(s, l) && w in s.workers && !Recoverable(s, w)
    ensures StillStuck(s, Apply(s, l), w)
  {
    if OfLeader(l) {
      LeaderCannotHelp(s, l, w);
      TickIsNothing(s, LeaderEffect(s, l), w);
    } else {
      WorkerCannotHelp(s, l, w);
      TickIsNothing(s, WorkerEffect(s, l), w);
    }
  }

  /** Recovery is no matter of time. */
  lemma TickIsNothing(s: State, t: State, w: WorkerId)
    requires w in t.workers
    ensures Recoverable(Ticked(s, t), w) == Recoverable(t, w)
  {
    forall n, sid | n in t.sessions ensures Serves(Ticked(s, t), n, sid) == Serves(t, n, sid) {
      TickServesNobody(s, t, n, sid);
    }
  }

  lemma TickServesNobody(s: State, t: State, n: Nonce, sid: SyncId)
    requires n in t.sessions
    ensures Serves(Ticked(s, t), n, sid) == Serves(t, n, sid)
  {
  }

  // ------------------------------------------------------ steps of the leader

  /** Fitting does not depend on the application keys that the leader has now. */
  lemma RoomForSnapshot(s: State)
    requires Fits(s.docLen, Raw(Current(s)))
    ensures HasRoom(s)
  {
    EmptyAppKeysFitBest(s.docLen, Raw(Current(s)));
  }

  lemma LeaderCannotHelp(s: State, l: Label, w: WorkerId)
    requires Inv(s) && Known(s) && OfLeader(l) && LeaderEnabled(s, l) && w in s.workers && !Recoverable(s, w)
    ensures StillStuck(s, LeaderEffect(s, l), w)
  {
    var t := LeaderEffect(s, l);
    LeaderLeaves(s, l);
    RoomStays(s, l);
    if s.workers[w].keyCh.Some? {
      assert KeyChOk(s.sessions, s.boxKeys, w, s.workers[w]);
      var n := s.boxKeys[s.workers[w].keyCh.value];
      UnfinishableStays(s, l, n);
    }
  }

  lemma RoomStays(s: State, l: Label)
    requires OfLeader(l) && LeaderEnabled(s, l)
    ensures HasRoom(LeaderEffect(s, l)) == HasRoom(s)
  {
    LeaderLeaves(s, l);
  }

  lemma UnfinishableStays(s: State, l: Label, n: Nonce)
    requires Inv(s) && Known(s) && OfLeader(l) && LeaderEnabled(s, l) && n in s.sessions && !Finishable(s, n)
    ensures n in LeaderEffect(s, l).sessions && !Finishable(LeaderEffect(s, l), n)
  {
    var t := LeaderEffect(s, l);
    LeaderLeaves(s, l);
    match s.sessions[n].takenBy {
      case Some(h) =>
        if h in s.finishes { ChecksAreSettled(s, t, h); }
      case None =>
        NobodyNewServes(s, l, t);
    }
  }

  /** Whether a handler passes does not depend on what is signed later. */
  lemma ChecksAreSettled(s: State, t: State, h: HandlerId)
    requires BodiesOk(s) && s.docs <= t.docs && h in s.finishes
    ensures PassesChecks(t.docs, s.finishes[h]) == PassesChecks(s.docs, s.finishes[h])
  {
    assert BodyOk(s, s.finishes[h].body);
  }

  /** Whatever call serves a session after a step of the leader did so before. */
  ghost predicate NoNewcomer(s: State, t: State) {
    forall n, sid {:trigger Serves(t, n, sid)} ::
      n in s.sessions && n in t.sessions && Serves(t, n, sid) ==> Serves(s, n, sid)
  }

  lemma NobodyNewServes(s: State, l: Label, t: State)
    requires Inv(s) && Known(s) && OfLeader(l) && LeaderEnabled(s, l) && t == LeaderEffect(s, l)
    ensures NoNewcomer(s, t)
  {
    RoomStays(s, l);
    if OfLoop(l) { LoopServesNoNewcomer(s, l, t); } else { CallServesNoNewcomer(s, l, t); }
  }

  lemma LoopServesNoNewcomer(s: State, l: Label, t: State)
    requires GetsKnown(s) && OfLoop(l) && LeaderEnabled(s, l) && t == LeaderEffect(s, l) && HasRoom(t) == HasRoom(s)
    ensures NoNewcomer(s, t)
  {
    if Starts(s, l) {
      LeaderLeaves(s, l);
      StartServesNobody(s, t, l.sid, l.n);
    } else {
      LoopIsNoCall(s, l);
      EndedServesNobody(s, t);
    }
  }

  lemma LoopIsNoCall(s: State, l: Label)
    requires OfLoop(l) && LeaderEnabled(s, l) && !Starts(s, l)
    ensures var t := LeaderEffect(s, l); t == s.(leader := t.leader) && t.leader.crashed == s.leader.crashed
  {
  }

  lemma CallServesNoNewcomer(s: State, l: Label, t: State)
    requires Inv(s) && OfLeader(l) && !OfLoop(l) && LeaderEnabled(s, l)
    requires t == LeaderEffect(s, l) && HasRoom(t) == HasRoom(s)
    ensures NoNewcomer(s, t)
  {
    match l {
      case HearDoc(c, doc) => HearingServesNoNewcomer(s, t, c, doc);
      case TakeSnapshot(c) => SnapshotServesNoNewcomer(s, t, c);
      case PostKeys(c) => PostServesNoNewcomer(s, t, c);
      case _ => EndedCall(s, l, t); EndedServesNobody(s, t);
    }
  }

  lemma EndedCall(s: State, l: Label, t: State)
    requires (l.HearOk? || l.SyncFails? || l.RegisterAfter? || l.UnregisterAfter?) && LeaderEnabled(s, l)
    requires t == LeaderEffect(s, l)
    ensures SameOrEnded(s, t)
  {
    match l {
      case HearOk(_, _) =>
      case SyncFails(_) =>
      case RegisterAfter(_) =>
      case UnregisterAfter(_) =>
    }
  }

  /** Every call is where it was, or over. */
  predicate SameOrEnded(s: State, t: State) {
    && t == s.(leader := t.leader, syncs := t.syncs) && t.leader.crashed == s.leader.crashed
    && t.syncs.Keys == s.syncs.Keys
    && forall sid :: sid in s.syncs ==>
         t.syncs[sid] == s.syncs[sid]
         || (t.syncs[sid] == s.syncs[sid].(pc := t.syncs[sid].pc) && !Running(t.syncs[sid]))
  }

  lemma EndedServesNobody(s: State, t: State)
    requires SameOrEnded(s, t) && HasRoom(t) == HasRoom(s)
    ensures NoNewcomer(s, t)
  {
  }

  /** A new call has a new nonce, which no session waits for. */
  lemma StartServesNobody(s: State, t: State, c: SyncId, m: Nonce)
    requires GetsKnown(s) && WorkersUntouched(s, t) && Started(s, t, c, m) && HasRoom(t) == HasRoom(s)
    ensures NoNewcomer(s, t)
  {
  }

  lemma HearingServesNoNewcomer(s: State, t: State, c: SyncId, doc: Option<Doc>)
    requires Inv(s) && At(s, c, AwaitingDoc) && !s.leader.crashed && t == DoHearDoc(s, c, doc)
    requires HasRoom(t) == HasRoom(s)
    ensures NoNewcomer(s, t)
  {
    var aux := VerifyAttstn(s.docs, doc, s.syncs[c].nonce);
    assert SyncOk(s, c);
    if aux.Rejected? {
      assert t == MoveSync(s, c, Failed);
      EndedServesNobody(s, t);
    } else if aux.WorkerAux? {
      assert DocOk(s, doc.value);
      HeardServesNoNewcomer(s, t, c, aux.workersNonce, aux.publicKey);
    } else {
      CrashServesNobody(s, t);
    }
  }

  lemma CrashServesNobody(s: State, t: State)
    requires t == s.(leader := s.leader.(crashed := true))
    ensures NoNewcomer(s, t)
  {
  }

  lemma HeardServesNoNewcomer(s: State, t: State, c: SyncId, wn: Nonce, pk: BoxKey)
    requires At(s, c, AwaitingDoc) && !s.leader.crashed && s.syncs[c].taken.None?
    requires var d := WorkerDoc(wn, s.syncs[c].nonce, pk); d in s.docs && DocOk(s, d)
    requires t == WithSync(s, c, s.syncs[c].(pc := Verified, heard := Some(Heard(wn, pk))))
    requires HasRoom(t) == HasRoom(s)
    ensures NoNewcomer(s, t)
  {
  }

  lemma SnapshotServesNoNewcomer(s: State, t: State, c: SyncId)
    requires Inv(s) && At(s, c, Verified) && !s.leader.crashed && t == DoTakeSnapshot(s, c)
    requires HasRoom(t) == HasRoom(s)
    ensures NoNewcomer(s, t)
  {
    assert SyncOk(s, c);
    forall n, sid | n in s.sessions && Serves(t, n, sid) ensures Serves(s, n, sid) {
      if sid == c {
        assert Issued(t, n, c) ==> DocOk(s, DocOf(c, t.syncs[c]));
        if CanIssue(t, n, t.syncs[c]) { RoomForSnapshot(s); }
      }
    }
  }

  lemma PostServesNoNewcomer(s: State, t: State, c: SyncId)
    requires CanPostKeys(s, c) && !s.leader.crashed && t == DoPostKeys(s, c) && HasRoom(t) == HasRoom(s)
    ensures NoNewcomer(s, t)
  {
  }

  // ------------------------------------------------------- steps of the workers

  lemma WorkerCannotHelp(s: State, l: Label, w: WorkerId)
    requires Inv(s) && Known(s) && !OfLeader(l) && WorkerEnabled(s, l) && w in s.workers && !Recoverable(s, w)
    ensures StillStuck(s, WorkerEffect(s, l), w)
  {
    WorkerLeaves(s, l);
    if s.workers[w].keyCh.None? {
      IdleStays(s, l, w);
    } else {
      assert KeyChOk(s.sessions, s.boxKeys, w, s.workers[w]);
      PendingStays(s, l, w, s.boxKeys[s.workers[w].keyCh.value]);
    }
  }

  // The channel is empty, and either the leader is down or its keys never fit.

  lemma IdleStays(s: State, l: Label, w: WorkerId)
    requires Inv(s) && Known(s) && !OfLeader(l) && WorkerEnabled(s, l) && w in s.workers && !Recoverable(s, w)
    requires s.workers[w].keyCh.None? && LeaderUntouched(s, WorkerEffect(s, l))
    ensures StillStuck(s, WorkerEffect(s, l), w)
  {
    if l.PushKey? {
      PushCannotHelp(s, WorkerEffect(s, l), l.n, l.k, w);
    } else {
      if l.PopKey? {
        PassedHasKey(s, l.h);
        OtherWorkerPops(s, l.h, w);
      } else {
        KeyChannelUntouched(s, l, w);
      }
      IdleIsStuck(s, WorkerEffect(s, l), w);
    }
  }

  lemma IdleIsStuck(s: State, t: State, w: WorkerId)
    requires w in s.workers && s.workers[w].keyCh.None? && !Recoverable(s, w)
    requires KeyChannelSame(s, t, w) && LeaderUntouched(s, t)
    ensures StillStuck(s, t, w)
  {
  }

  lemma PushCannotHelp(s: State, t: State, n: Nonce, k: BoxKey, w: WorkerId)
    requires Inv(s) && CanPushKey(s, n, k) && t == DoPushKey(s, n, k)
    requires w in s.workers && s.workers[w].keyCh.None? && !Recoverable(s, w)
    ensures StillStuck(s, t, w)
  {
    if s.sessions[n].worker == w { NewSessionIsUnfinishable(s, n, k); }
  }

  lemma OtherWorkerPops(s: State, h: HandlerId, w: WorkerId)
    requires CanPopKey(s, h) && w in s.workers && s.finishes[h].worker != w
    ensures KeyChannelSame(s, DoPopKey(s, h), w)
  {
  }

  lemma KeyChannelUntouched(s: State, l: Label, w: WorkerId)
    requires !OfLeader(l) && WorkerEnabled(s, l) && w in s.workers && !l.PopKey? && !l.PushKey?
    ensures KeyChannelSame(s, WorkerEffect(s, l), w)
  {
    match l {
      case Install(h) => InstallKeepsChannels(s, h, w);
      case TakeNonce(_, _) =>
      case PushNonce(_, _) =>
      case _ =>
    }
  }

  predicate KeyChannelSame(s: State, t: State, w: WorkerId) {
    && w in s.workers && w in t.workers && t.workers[w].keyCh == s.workers[w].keyCh
    && t.workers[w].log == s.workers[w].log && t.boxKeys == s.boxKeys
  }

  lemma InstallKeepsChannels(s: State, h: HandlerId, w: WorkerId)
    requires CanInstall(s, h) && w in s.workers
    ensures KeyChannelSame(s, DoInstall(s, h), w)
  {
    match s.workers[s.finishes[h].worker].log[s.finishes[h].pc.index].plain {
      case Garbage =>
      case KeysJson(snap) =>
    }
  }

  /** Nobody has heard of a session before its document is issued. */
  lemma UnheardOf(s: State, n: Nonce, sid: SyncId)
    requires Inv(s) && n in s.sessions && s.sessions[n].issuedAt.None? && sid in s.syncs
    ensures !HeardFrom(s.syncs[sid], n)
  {
    assert SyncOk(s, sid);
  }

  lemma NoOnePassesEarly(s: State, h: HandlerId)
    requires Inv(s) && h in s.finishes && s.finishes[h].nonce in s.sessions
    requires s.sessions[s.finishes[h].nonce].issuedAt.None?
    ensures s.finishes[h].pc != Passed && !HasOpened(s.finishes[h]) && !PassesChecks(s.docs, s.finishes[h])
  {
    var f := s.finishes[h];
    assert FinishOk(s, h);
    if Certified(s, f) {
      assert DocOk(s, f.body.doc.value);
      UnheardOf(s, f.nonce, f.body.blob.value.sender);
    }
  }

  lemma NewSessionIsUnfinishable(s: State, n: Nonce, k: BoxKey)
    requires Inv(s) && CanPushKey(s, n, k) && (s.leader.crashed || !HasRoom(s))
    ensures !Finishable(DoPushKey(s, n, k), n)
  {
    var t := DoPushKey(s, n, k);
    assert SessionOk(s, n);
    match s.sessions[n].takenBy {
      case Some(h) => NoOnePassesEarly(s, h);
      case None =>
        forall sid | sid in s.syncs ensures !Serves(t, n, sid) {
          UnheardOf(s, n, sid);
          assert SyncOk(s, sid);
        }
    }
  }

  // A key is in the channel, and its session cannot be finished.

  predicate Pending(s: State, w: WorkerId, n: Nonce) {
    && w in s.workers && s.workers[w].keyCh.Some? && s.workers[w].keyCh.value in s.boxKeys
    && s.boxKeys[s.workers[w].keyCh.value] == n && n in s.sessions
    && KeyWaits(s.sessions[n], w) && s.sessions[n].key == s.workers[w].keyCh
  }

  /** Channel and session are what they were. */
  predicate SamePending(s: State, t: State, w: WorkerId, n: Nonce) {
    && Pending(s, w, n) && w in t.workers && n in t.sessions
    && t.workers[w].keyCh == s.workers[w].keyCh && t.workers[w].log == s.workers[w].log
    && s.workers[w].keyCh.value in t.boxKeys && t.boxKeys[s.workers[w].keyCh.value] == n
    && t.sessions[n].key == s.sessions[n].key && t.sessions[n].leadersNonce == s.sessions[n].leadersNonce
  }

  lemma PendingStays(s: State, l: Label, w: WorkerId, n: Nonce)
    requires Inv(s) && Known(s) && !OfLeader(l) && WorkerEnabled(s, l) && Pending(s, w, n) && !Finishable(s, n)
    requires LeaderUntouched(s, WorkerEffect(s, l))
    ensures SamePending(s, WorkerEffect(s, l), w, n) && !Finishable(WorkerEffect(s, l), n)
  {
    assert SessionOk(s, n);
    var t := WorkerEffect(s, l);
    if OfRequest(l) {
      RequestCannotFinish(s, l, t, w, n);
    } else if OfInit(l) {
      InitCannotFinish(s, l, t, w, n);
    } else if l.TakeNonce? || l.VerifyPost? {
      CheckerCannotFinish(s, l, t, w, n);
    } else {
      OpenerCannotFinish(s, l, t, w, n);
    }
  }

  lemma CheckerCannotFinish(s: State, l: Label, t: State, w: WorkerId, n: Nonce)
    requires Inv(s) && Known(s) && (l.TakeNonce? || l.VerifyPost?) && WorkerEnabled(s, l) && t == WorkerEffect(s, l)
    requires Pending(s, w, n) && !Finishable(s, n) && LeaderUntouched(s, t) && SessionOk(s, n)
    ensures SamePending(s, t, w, n) && !Finishable(t, n)
  {
    match l {
      case TakeNonce(post, h) => TakerCannotFinish(s, t, post, h, w, n);
      case VerifyPost(h, fails) => CheckCannotFinish(s, t, h, fails, w, n);
    }
  }

  lemma OpenerCannotFinish(s: State, l: Label, t: State, w: WorkerId, n: Nonce)
    requires Inv(s) && Known(s) && (l.PopKey? || l.Install?) && WorkerEnabled(s, l) && t == WorkerEffect(s, l)
    requires Pending(s, w, n) && !Finishable(s, n) && LeaderUntouched(s, t) && SessionOk(s, n)
    ensures SamePending(s, t, w, n) && !Finishable(t, n)
  {
    match l {
      case PopKey(h) => OtherPopCannotFinish(s, t, h, w, n);
      case Install(h) => InstallCannotFinish(s, t, h, w, n);
    }
  }

  lemma StillUnfinishable(s: State, t: State, w: WorkerId, n: Nonce)
    requires SamePending(s, t, w, n) && LeaderUntouched(s, t) && !Finishable(s, n)
    requires t.sessions[n].takenBy == s.sessions[n].takenBy && (Answerable(t, n) ==> Answerable(s, n))
    requires s.sessions[n].takenBy.Some? ==>
               (WillPass(t, s.sessions[n].takenBy.value) ==> WillPass(s, s.sessions[n].takenBy.value))
    ensures !Finishable(t, n)
  {
    if s.sessions[n].takenBy.None? {
      forall sid ensures !Serves(t, n, sid) {
        assert !Serves(s, n, sid);
        assert HasRoom(t) == HasRoom(s);
      }
    }
  }

  lemma WillPassBefore(s: State, t: State, h: HandlerId)
    requires BodiesOk(s) && s.docs <= t.docs && h in s.finishes && h in t.finishes
    requires t.finishes[h] == s.finishes[h]
    ensures WillPass(t, h) <==> WillPass(s, h)
  {
    ChecksAreSettled(s, t, h);
  }

  lemma RequestCannotFinish(s: State, l: Label, t: State, w: WorkerId, n: Nonce)
    requires Known(s) && OfRequest(l) && WorkerEnabled(s, l) && t == WorkerEffect(s, l)
    requires Pending(s, w, n) && !Finishable(s, n) && LeaderUntouched(s, t) && SessionOk(s, n)
    ensures SamePending(s, t, w, n) && !Finishable(t, n)
  {
    RequestLeavesPending(s, l, t, w, n);
    TakerStillFails(s, t, w, n);
  }

  lemma RequestLeavesPending(s: State, l: Label, t: State, w: WorkerId, n: Nonce)
    requires OfRequest(l) && WorkerEnabled(s, l) && t == WorkerEffect(s, l) && Pending(s, w, n)
    ensures SamePending(s, t, w, n) && t.finishes == s.finishes
    ensures t.sessions[n].takenBy == s.sessions[n].takenBy && (Answerable(t, n) <==> Answerable(s, n))
  {
  }

  /** No handler of finishSync moved. */
  lemma TakerStillFails(s: State, t: State, w: WorkerId, n: Nonce)
    requires BodiesOk(s) && SamePending(s, t, w, n) && !Finishable(s, n) && LeaderUntouched(s, t) && SessionOk(s, n)
    requires t.finishes == s.finishes
    requires t.sessions[n].takenBy == s.sessions[n].takenBy && (Answerable(t, n) ==> Answerable(s, n))
    ensures !Finishable(t, n)
  {
    if s.sessions[n].takenBy.Some? { WillPassBefore(s, t, s.sessions[n].takenBy.value); }
    StillUnfinishable(s, t, w, n);
  }

  lemma InitLeavesPending(s: State, l: Label, t: State, w: WorkerId, n: Nonce)
    requires OfInit(l) && WorkerEnabled(s, l) && t == WorkerEffect(s, l) && Pending(s, w, n) && SessionOk(s, n)
    ensures SamePending(s, t, w, n) && t.finishes == s.finishes
    ensures t.sessions[n].takenBy == s.sessions[n].takenBy && (Answerable(t, n) ==> Answerable(s, n))
    ensures l != AttstnFails(n) && Answerable(s, n) ==> Answerable(t, n)
  {
    match l {
      case PushNonce(get, m) => assert m != n;
      case BoxKeyFails(m) => assert m != n;
      case PushKey(m, k) => assert m != n && s.sessions[m].worker != w;
      case AnswerGet(m) =>
      case AttstnFails(m) =>
    }
  }

  lemma InitCannotFinish(s: State, l: Label, t: State, w: WorkerId, n: Nonce)
    requires Known(s) && OfInit(l) && WorkerEnabled(s, l) && t == WorkerEffect(s, l)
    requires Pending(s, w, n) && !Finishable(s, n) && LeaderUntouched(s, t) && SessionOk(s, n)
    ensures SamePending(s, t, w, n) && !Finishable(t, n)
  {
    InitLeavesPending(s, l, t, w, n);
    TakerStillFails(s, t, w, n);
  }

  /** A body that passes comes from a call that serves the session. */
  lemma PassingBodyIsIssued(s: State, f: Finish)
    requires Inv(s) && BodyOk(s, f.body) && f.nonce in s.sessions && PassesChecks(s.docs, f)
    ensures f.body.blob.value.Sealed? && Serves(s, f.nonce, f.body.blob.value.sender)
  {
    assert DocOk(s, f.body.doc.value);
  }

  lemma TakerCannotFinish(s: State, t: State, post: Post, h: HandlerId, w: WorkerId, n: Nonce)
    requires Inv(s) && Known(s) && CanTakeNonce(s, post, h) && Pending(s, w, n) && !Finishable(s, n) && SessionOk(s, n)
    requires t == DoTakeNonce(s, post, h) && LeaderUntouched(s, t)
    ensures SamePending(s, t, w, n) && !Finishable(t, n)
  {
    var m := s.workers[post.worker].nonceCh.value;
    assert NonceChOk(s.sessions, post.worker, s.workers[post.worker]);
    if m == n {
      assert BodyOk(s, post.body);
      if PassesChecks(s.docs, t.finishes[h]) { PassingBodyIsIssued(s, t.finishes[h]); }
    } else {
      if s.sessions[n].takenBy.Some? { WillPassBefore(s, t, s.sessions[n].takenBy.value); }
      StillUnfinishable(s, t, w, n);
    }
  }

  lemma CheckCannotFinish(s: State, t: State, h: HandlerId, fails: bool, w: WorkerId, n: Nonce)
    requires Known(s) && CanVerifyPost(s, h) && Pending(s, w, n) && !Finishable(s, n) && SessionOk(s, n)
    requires t == DoVerifyPost(s, h, fails) && LeaderUntouched(s, t)
    ensures SamePending(s, t, w, n) && !Finishable(t, n)
  {
    if s.sessions[n].takenBy.Some? && s.sessions[n].takenBy.value != h {
      WillPassBefore(s, t, s.sessions[n].takenBy.value);
    }
    StillUnfinishable(s, t, w, n);
  }

  /** Whoever pops a key pops the one of the session whose nonce it holds. */
  lemma OtherPopCannotFinish(s: State, t: State, h: HandlerId, w: WorkerId, n: Nonce)
    requires Inv(s) && Known(s) && CanPopKey(s, h) && Pending(s, w, n) && !Finishable(s, n) && SessionOk(s, n)
    requires t == DoPopKey(s, h) && LeaderUntouched(s, t)
    ensures SamePending(s, t, w, n) && !Finishable(t, n)
  {
    PassedHasKey(s, h);
    assert FinishOk(s, h);
    if s.sessions[n].takenBy.Some? { WillPassBefore(s, t, s.sessions[n].takenBy.value); }
    StillUnfinishable(s, t, w, n);
  }

  lemma InstallCannotFinish(s: State, t: State, h: HandlerId, w: WorkerId, n: Nonce)
    requires Known(s) && CanInstall(s, h) && Pending(s, w, n) && !Finishable(s, n) && SessionOk(s, n)
    requires t == DoInstall(s, h) && LeaderUntouched(s, t)
    ensures SamePending(s, t, w, n) && !Finishable(t, n)
  {
    InstallLeavesPending(s, h, w, n);
    if s.sessions[n].takenBy.Some? && s.sessions[n].takenBy.value != h {
      WillPassBefore(s, t, s.sessions[n].takenBy.value);
    }
    StillUnfinishable(s, t, w, n);
  }

  lemma InstallLeavesPending(s: State, h: HandlerId, w: WorkerId, n: Nonce)
    requires CanInstall(s, h) && Pending(s, w, n)
    ensures var t := DoInstall(s, h);
      && SamePending(s, t, w, n) && t.sessions == s.sessions && t.docs == s.docs
      && h in t.finishes && t.finishes == s.finishes[h := t.finishes[h]] && !WillPass(t, h)
  {
    match s.workers[s.finishes[h].worker].log[s.finishes[h].pc.index].plain {
      case Garbage =>
      case KeysJson(snap) =>
    }
  }
}
