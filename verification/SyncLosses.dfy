/** Which steps cost a worker its way back: from a state in which it can recover, exactly
    these lead to one in which it cannot. */
module SyncLosses {
  import opened Common
  import opened SyncBudget
  import opened SyncProtocol
  import opened SyncInvariant
  import opened SyncFrames
  import opened SyncKnowledge
  import opened SyncSteps
  import opened SyncTheorems
  import opened SyncProgress
  import opened SyncStuck
  import opened SyncRecovery

  /** The session whose key is in the worker's channel. */
  function Held(s: State, w: WorkerId): Option<Nonce>
    requires w in s.workers
  {
    match s.workers[w].keyCh
    case None => None
    case Some(k) => if k in s.boxKeys then Some(s.boxKeys[k]) else None
  }

  /** Steps of a worker: a key that nobody asked for or that comes after its nonce was taken;
      a document that is not to be had; a POST that takes the nonce and will not pass, or
      that fails although it would pass; and the last decryption that a leader which is
      down has left behind. */
  predicate WorkerLoses(s: State, l: Label, w: WorkerId)
    requires w in s.workers && !OfLeader(l) && WorkerEnabled(s, l)
  {
    match l
    case PushKey(n, _) =>
      s.sessions[n].worker == w && (s.sessions[n].takenBy.Some? || NoCallAwaits(s, s.sessions[n].leadersNonce))
    case AttstnFails(n) => s.sessions[n].worker == w
    case TakeNonce(post, _) =>
      var n := s.workers[post.worker].nonceCh.value;
      post.worker == w && Held(s, w) == Some(n) && !PassesChecks(s.docs, Finish(w, post.body, n, TookNonce))
    case VerifyPost(h, fails) =>
      fails && s.finishes[h].worker == w && Held(s, w) == Some(s.finishes[h].nonce)
    case PopKey(h) => s.finishes[h].worker == w && s.leader.crashed
    case _ => false
  }

  /** The answer is the document of the session. */
  predicate IsAnswer(s: State, n: Nonce, doc: Option<Doc>)
    requires n in s.sessions
  {
    && s.sessions[n].key.Some?
    && doc == Some(WorkerDoc(n, s.sessions[n].leadersNonce, s.sessions[n].key.value)) && doc.value in s.docs
  }

  /** Steps of the leader that leave an untaken session without its call: a crash, an answer
      that is not the session's, a snapshot that does not fit, and giving up. */
  predicate Abandons(s: State, l: Label, n: Nonce)
    requires n in s.sessions && OfLeader(l) && LeaderEnabled(s, l)
  {
    match l
    case HearDoc(c, doc) => HearingAbandons(s, c, doc, n)
    case TakeSnapshot(c) => HeardFrom(s.syncs[c], n) && !Fits(s.docLen, Raw(Current(s)))
    case SyncFails(c) => CanIssue(s, n, s.syncs[c]) && !Issued(s, n, c)
    case _ => false
  }

  predicate HearingAbandons(s: State, c: SyncId, doc: Option<Doc>, n: Nonce)
    requires n in s.sessions && c in s.syncs
  {
    if IsClientsAnswer(s, c, doc) then forall sid :: sid in s.syncs ==> !Issued(s, n, sid)
    else CanIssue(s, n, s.syncs[c]) && !IsAnswer(s, n, doc)
  }

  predicate LeaderLoses(s: State, l: Label, w: WorkerId)
    requires w in s.workers && OfLeader(l) && LeaderEnabled(s, l)
  {
    match Held(s, w)
    case None => l.HearDoc? && IsClientsAnswer(s, l.sid, l.doc)
    case Some(n) => n in s.sessions && s.sessions[n].takenBy.None? && Abandons(s, l, n)
  }

  predicate Loses(s: State, l: Label, w: WorkerId)
    requires w in s.workers && Enabled(s, l)
  {
    if OfLeader(l) then LeaderLoses(s, l, w) else WorkerLoses(s, l, w)
  }

  /** The theorem: of all steps of anybody, exactly those that Loses lists take a worker that
      could recover to a state in which it cannot, for good. */
  lemma LosingStepIff(s0: State, trace: seq<Label>, s: State, l: Label, w: WorkerId)
    requires Reaches(s0, trace, s) && Enabled(s, l) && w in s.workers && Recoverable(s, w)
    ensures w in Apply(s, l).workers
    ensures !Recoverable(Apply(s, l), w) <==> Loses(s, l, w)
  {
    ReachableInv(s0, trace, s);
    ReachableKnown(s0, trace, s);
    StepLosesIff(s, l, w);
  }

  lemma StepLosesIff(s: State, l: Label, w: WorkerId)
    requires Inv(s) && Known(s) && Enabled(s, l) && w in s.workers && Recoverable(s, w)
    ensures w in Apply(s, l).workers
    ensures !Recoverable(Apply(s, l), w) <==> Loses(s, l, w)
  {
    if OfLeader(l) {
      LeaderLosesIff(s, l, LeaderEffect(s, l), w);
      TickIsNothing(s, LeaderEffect(s, l), w);
    } else {
      WorkerLosesIff(s, l, WorkerEffect(s, l), w);
      TickIsNothing(s, WorkerEffect(s, l), w);
    }
  }

  // ------------------------------------------------------- steps of the workers

  lemma WorkerLosesIff(s: State, l: Label, t: State, w: WorkerId)
    requires Inv(s) && Known(s) && !OfLeader(l) && WorkerEnabled(s, l) && t == WorkerEffect(s, l)
    requires w in s.workers && Recoverable(s, w)
    ensures w in t.workers && (!Recoverable(t, w) <==> WorkerLoses(s, l, w))
  {
    WorkerLeaves(s, l);
    if s.workers[w].keyCh.None? {
      IdleLosesIff(s, l, t, w);
    } else {
      assert KeyChOk(s.sessions, s.boxKeys, w, s.workers[w]);
      PendingLosesIff(s, l, t, w, s.boxKeys[s.workers[w].keyCh.value]);
    }
  }

  lemma IdleLosesIff(s: State, l: Label, t: State, w: WorkerId)
    requires Inv(s) && !OfLeader(l) && WorkerEnabled(s, l) && t == WorkerEffect(s, l) && LeaderUntouched(s, t)
    requires w in s.workers && Recoverable(s, w) && s.workers[w].keyCh.None?
    ensures w in t.workers && (!Recoverable(t, w) <==> WorkerLoses(s, l, w))
  {
    if l.PushKey? {
      PushLosesIff(s, t, l.n, l.k, w);
    } else {
      if l.PopKey? {
        PassedHasKey(s, l.h);
        OtherWorkerPops(s, l.h, w);
      } else {
        KeyChannelUntouched(s, l, w);
      }
      if l.AttstnFails? { UnansweredIsPending(s, l.n); }
      assert HasRoom(t) == HasRoom(s);
    }
  }

  /** A session that is yet to be answered has its key in the channel, and nobody passes for
      it. */
  lemma UnansweredIsPending(s: State, n: Nonce)
    requires Inv(s) && n in s.sessions && s.sessions[n].pc == KeyPushed
    ensures Pending(s, s.sessions[n].worker, n) && s.sessions[n].issuedAt.None?
    ensures s.sessions[n].takenBy.Some? ==> !WillPass(s, s.sessions[n].takenBy.value)
  {
    assert SessionOk(s, n);
    if s.sessions[n].takenBy.Some? { NoOnePassesEarly(s, s.sessions[n].takenBy.value); }
  }

  lemma PushLosesIff(s: State, t: State, n: Nonce, k: BoxKey, w: WorkerId)
    requires Inv(s) && CanPushKey(s, n, k) && t == DoPushKey(s, n, k)
    requires w in s.workers && s.workers[w].keyCh.None? && Recoverable(s, w)
    ensures w in t.workers
    ensures !Recoverable(t, w) <==>
      s.sessions[n].worker == w && (s.sessions[n].takenBy.Some? || NoCallAwaits(s, s.sessions[n].leadersNonce))
  {
    assert HasRoom(t) == HasRoom(s);
    if s.sessions[n].worker == w {
      NewSessionFinishableIff(s, t, n, k);
    }
  }

  lemma NewSessionFinishableIff(s: State, t: State, n: Nonce, k: BoxKey)
    requires Inv(s) && CanPushKey(s, n, k) && t == DoPushKey(s, n, k) && !s.leader.crashed && HasRoom(s)
    ensures Finishable(t, n) <==> s.sessions[n].takenBy.None? && !NoCallAwaits(s, s.sessions[n].leadersNonce)
  {
    assert SessionOk(s, n);
    assert HasRoom(t) == HasRoom(s);
    match s.sessions[n].takenBy {
      case Some(h) => NoOnePassesEarly(s, h);
      case None =>
        forall sid | sid in s.syncs
          ensures Serves(t, n, sid) <==> At(s, sid, AwaitingDoc) && s.syncs[sid].nonce == s.sessions[n].leadersNonce
        {
          UnheardOf(s, n, sid);
          assert SyncOk(s, sid);
        }
    }
  }

  /** Nothing changed for the session. */
  lemma StillFinishable(s: State, t: State, w: WorkerId, n: Nonce)
    requires SamePending(s, t, w, n) && LeaderUntouched(s, t) && Finishable(s, n)
    requires t.sessions[n].takenBy == s.sessions[n].takenBy && (Answerable(s, n) ==> Answerable(t, n))
    requires s.sessions[n].takenBy.Some? ==>
               (WillPass(s, s.sessions[n].takenBy.value) ==> WillPass(t, s.sessions[n].takenBy.value))
    ensures Finishable(t, n)
  {
    if s.sessions[n].takenBy.None? {
      var sid :| sid in s.syncs && Serves(s, n, sid);
      StillServes(s, t, w, n, sid);
    }
  }

  lemma StillServes(s: State, t: State, w: WorkerId, n: Nonce, sid: SyncId)
    requires SamePending(s, t, w, n) && LeaderUntouched(s, t) && sid in s.syncs && Serves(s, n, sid)
    requires Answerable(s, n) ==> Answerable(t, n)
    ensures Serves(t, n, sid)
  {
    assert HasRoom(t) == HasRoom(s);
    assert Issued(s, n, sid) ==> Issued(t, n, sid);
  }

  lemma PendingLosesIff(s: State, l: Label, t: State, w: WorkerId, n: Nonce)
    requires Inv(s) && Known(s) && !OfLeader(l) && WorkerEnabled(s, l) && t == WorkerEffect(s, l)
    requires Pending(s, w, n) && Finishable(s, n) && LeaderUntouched(s, t)
    ensures w in t.workers && (!Recoverable(t, w) <==> WorkerLoses(s, l, w))
  {
    assert SessionOk(s, n);
    if OfRequest(l) {
      RequestLosesNothing(s, l, t, w, n);
    } else if OfInit(l) {
      InitLosesIff(s, l, t, w, n);
    } else if l.TakeNonce? || l.VerifyPost? {
      CheckerLosesIff(s, l, t, w, n);
    } else {
      OpenerLosesIff(s, l, t, w, n);
    }
  }

  lemma CheckerLosesIff(s: State, l: Label, t: State, w: WorkerId, n: Nonce)
    requires Inv(s) && Known(s) && (l.TakeNonce? || l.VerifyPost?) && WorkerEnabled(s, l) && t == WorkerEffect(s, l)
    requires Pending(s, w, n) && Finishable(s, n) && LeaderUntouched(s, t) && SessionOk(s, n)
    ensures w in t.workers && (!Recoverable(t, w) <==> WorkerLoses(s, l, w))
  {
    match l {
      case TakeNonce(post, h) => TakerLosesIff(s, t, post, h, w, n);
      case VerifyPost(h, fails) => CheckLosesIff(s, t, h, fails, w, n);
    }
  }

  lemma OpenerLosesIff(s: State, l: Label, t: State, w: WorkerId, n: Nonce)
    requires Inv(s) && Known(s) && (l.PopKey? || l.Install?) && WorkerEnabled(s, l) && t == WorkerEffect(s, l)
    requires Pending(s, w, n) && Finishable(s, n) && LeaderUntouched(s, t) && SessionOk(s, n)
    ensures w in t.workers && (!Recoverable(t, w) <==> WorkerLoses(s, l, w))
  {
    match l {
      case PopKey(h) => PopLosesIff(s, t, h, w, n);
      case Install(h) => InstallLosesNothing(s, t, h, w, n);
    }
  }

  lemma RequestLosesNothing(s: State, l: Label, t: State, w: WorkerId, n: Nonce)
    requires BodiesOk(s) && OfRequest(l) && WorkerEnabled(s, l) && t == WorkerEffect(s, l)
    requires Pending(s, w, n) && Finishable(s, n) && LeaderUntouched(s, t) && SessionOk(s, n)
    ensures w in t.workers && Recoverable(t, w) && !WorkerLoses(s, l, w)
  {
    RequestLeavesPending(s, l, t, w, n);
    if s.sessions[n].takenBy.Some? { WillPassBefore(s, t, s.sessions[n].takenBy.value); }
    StillFinishable(s, t, w, n);
  }

  lemma InitLosesIff(s: State, l: Label, t: State, w: WorkerId, n: Nonce)
    requires Inv(s) && Known(s) && OfInit(l) && WorkerEnabled(s, l) && t == WorkerEffect(s, l)
    requires Pending(s, w, n) && Finishable(s, n) && LeaderUntouched(s, t) && SessionOk(s, n)
    ensures w in t.workers && (!Recoverable(t, w) <==> WorkerLoses(s, l, w))
  {
    InitLeavesPending(s, l, t, w, n);
    if l.AttstnFails? { UnansweredIsPending(s, l.n); }
    if l == AttstnFails(n) {
      NoDocumentNoCall(s, t, n);
    } else {
      if s.sessions[n].takenBy.Some? { WillPassBefore(s, t, s.sessions[n].takenBy.value); }
      StillFinishable(s, t, w, n);
    }
  }

  /** Without a document nobody serves the session. */
  lemma NoDocumentNoCall(s: State, t: State, n: Nonce)
    requires Inv(s) && CanAbort(s, n, KeyPushed) && t == DoAbort(s, n)
    requires s.sessions[n].takenBy.None? && s.sessions[n].issuedAt.None?
    ensures !Finishable(t, n)
  {
    var z := s.sessions[n];
    assert z.key.Some? ==> (WorkerDoc(n, z.leadersNonce, z.key.value) in s.docs ==>
           DocOk(s, WorkerDoc(n, z.leadersNonce, z.key.value)));
    forall sid | sid in s.syncs ensures !Serves(t, n, sid) {
      UnheardOf(s, n, sid);
      assert SyncOk(s, sid);
    }
  }

  lemma TakerLosesIff(s: State, t: State, post: Post, h: HandlerId, w: WorkerId, n: Nonce)
    requires Inv(s) && Known(s) && CanTakeNonce(s, post, h) && Pending(s, w, n) && Finishable(s, n)
    requires t == DoTakeNonce(s, post, h) && LeaderUntouched(s, t) && SessionOk(s, n)
    ensures w in t.workers
    ensures var m := s.workers[post.worker].nonceCh.value;
      !Recoverable(t, w) <==>
        post.worker == w && m == n && !PassesChecks(s.docs, Finish(w, post.body, n, TookNonce))
  {
    var m := s.workers[post.worker].nonceCh.value;
    assert NonceChOk(s.sessions, post.worker, s.workers[post.worker]);
    if m != n {
      OtherTakerLosesNothing(s, t, post, h, w, n);
    } else {
      assert Recoverable(t, w) <==> WillPass(t, h);
    }
  }

  lemma OtherTakerLosesNothing(s: State, t: State, post: Post, h: HandlerId, w: WorkerId, n: Nonce)
    requires Known(s) && CanTakeNonce(s, post, h) && Pending(s, w, n) && Finishable(s, n)
    requires t == DoTakeNonce(s, post, h) && LeaderUntouched(s, t) && SessionOk(s, n)
    requires s.workers[post.worker].nonceCh.value != n
    ensures w in t.workers && Recoverable(t, w)
  {
    if s.sessions[n].takenBy.Some? { WillPassBefore(s, t, s.sessions[n].takenBy.value); }
    StillFinishable(s, t, w, n);
  }

  lemma CheckLosesIff(s: State, t: State, h: HandlerId, fails: bool, w: WorkerId, n: Nonce)
    requires Inv(s) && Known(s) && CanVerifyPost(s, h) && Pending(s, w, n) && Finishable(s, n)
    requires t == DoVerifyPost(s, h, fails) && LeaderUntouched(s, t) && SessionOk(s, n)
    ensures w in t.workers
    ensures !Recoverable(t, w) <==> fails && s.finishes[h].worker == w && s.finishes[h].nonce == n
  {
    assert FinishOk(s, h);
    if s.sessions[n].takenBy != Some(h) {
      if s.sessions[n].takenBy.Some? { WillPassBefore(s, t, s.sessions[n].takenBy.value); }
      StillFinishable(s, t, w, n);
    }
  }

  lemma PopLosesIff(s: State, t: State, h: HandlerId, w: WorkerId, n: Nonce)
    requires Inv(s) && Known(s) && CanPopKey(s, h) && Pending(s, w, n) && Finishable(s, n)
    requires t == DoPopKey(s, h) && LeaderUntouched(s, t) && SessionOk(s, n)
    ensures w in t.workers
    ensures !Recoverable(t, w) <==> s.finishes[h].worker == w && s.leader.crashed
  {
    PassedHasKey(s, h);
    assert FinishOk(s, h);
    if s.finishes[h].worker == w {
      PassedMeansRoom(s, h);
      assert HasRoom(t) == HasRoom(s);
    } else {
      if s.sessions[n].takenBy.Some? { WillPassBefore(s, t, s.sessions[n].takenBy.value); }
      StillFinishable(s, t, w, n);
    }
  }

  /** What a handler is about to decrypt fitted, so empty application keys would, too. */
  lemma PassedMeansRoom(s: State, h: HandlerId)
    requires Inv(s) && BodiesOk(s) && h in s.finishes && s.finishes[h].pc == Passed
    ensures HasRoom(s)
  {
    assert FinishOk(s, h);
    CertifiedMeans(s, h);
    assert BodyOk(s, s.finishes[h].body);
    var y := s.syncs[s.finishes[h].body.blob.value.sender];
    assert SyncOk(s, s.finishes[h].body.blob.value.sender);
    assert s.history[y.taken.value.at].keys == y.taken.value.snap.keys;
    EmptyAppKeysFitBest(s.docLen, Raw(y.taken.value.snap));
  }

  lemma InstallLosesNothing(s: State, t: State, h: HandlerId, w: WorkerId, n: Nonce)
    requires Inv(s) && Known(s) && CanInstall(s, h) && Pending(s, w, n) && Finishable(s, n)
    requires t == DoInstall(s, h) && LeaderUntouched(s, t) && SessionOk(s, n)
    ensures w in t.workers && Recoverable(t, w)
  {
    InstallLeavesPending(s, h, w, n);
    if s.sessions[n].takenBy.Some? { WillPassBefore(s, t, s.sessions[n].takenBy.value); }
    StillFinishable(s, t, w, n);
  }

  // ------------------------------------------------------ steps of the leader

  lemma LeaderLosesIff(s: State, l: Label, t: State, w: WorkerId)
    requires Inv(s) && Known(s) && OfLeader(l) && LeaderEnabled(s, l) && t == LeaderEffect(s, l)
    requires w in s.workers && Recoverable(s, w)
    ensures w in t.workers && (!Recoverable(t, w) <==> LeaderLoses(s, l, w))
  {
    LeaderLeaves(s, l);
    RoomStays(s, l);
    if s.workers[w].keyCh.None? {
      CrashIff(s, l, t);
    } else {
      assert KeyChOk(s.sessions, s.boxKeys, w, s.workers[w]);
      HeldLostIff(s, l, t, s.boxKeys[s.workers[w].keyCh.value]);
    }
    LosesByHeld(s, l, w);
  }

  /** LeaderLoses, by the key channel. */
  lemma LosesByHeld(s: State, l: Label, w: WorkerId)
    requires w in s.workers && OfLeader(l) && LeaderEnabled(s, l)
    requires KeyChOk(s.sessions, s.boxKeys, w, s.workers[w])
    ensures s.workers[w].keyCh.None? ==>
      (LeaderLoses(s, l, w) <==> l.HearDoc? && IsClientsAnswer(s, l.sid, l.doc))
    ensures s.workers[w].keyCh.Some? ==> var n := s.boxKeys[s.workers[w].keyCh.value];
      (LeaderLoses(s, l, w) <==> s.sessions[n].takenBy.None? && Abandons(s, l, n))
  {
  }

  lemma HeldLostIff(s: State, l: Label, t: State, n: Nonce)
    requires Inv(s) && Known(s) && OfLeader(l) && LeaderEnabled(s, l) && t == LeaderEffect(s, l)
    requires WorkersUntouched(s, t) && HasRoom(t) == HasRoom(s) && s.docs <= t.docs
    requires n in s.sessions && Finishable(s, n)
    ensures !Finishable(t, n) <==> s.sessions[n].takenBy.None? && Abandons(s, l, n)
  {
    match s.sessions[n].takenBy {
      case Some(h) => WillPassBefore(s, t, h);
      case None => UntakenLostIff(s, l, t, n);
    }
  }

  lemma CrashIff(s: State, l: Label, t: State)
    requires Inv(s) && NoncesApart(s) && OfLeader(l) && LeaderEnabled(s, l) && t == LeaderEffect(s, l)
    ensures t.leader.crashed <==> l.HearDoc? && IsClientsAnswer(s, l.sid, l.doc)
  {
    if l.HearDoc? {
      HearingCrashesIff(s, t, l.sid, l.doc);
    } else {
      NoCrash(s, l, t);
    }
  }

  lemma NoCrash(s: State, l: Label, t: State)
    requires OfLeader(l) && !l.HearDoc? && LeaderEnabled(s, l) && t == LeaderEffect(s, l)
    ensures !t.leader.crashed
  {
    if OfLoop(l) {
      if Starts(s, l) { LeaderLeaves(s, l); } else { LoopIsNoCall(s, l); }
    } else if EndsCall(l) {
      EndedCall(s, l, t);
    }
  }

  /** Only the call with the nonce that the session is for can serve it. */
  lemma OneCallServes(s: State, n: Nonce, a: SyncId)
    requires Inv(s) && n in s.sessions && a in s.syncs
    ensures Serves(s, n, a) || HeardFrom(s.syncs[a], n) ==>
      && s.sessions[n].leadersNonce == s.syncs[a].nonce
      && s.syncs[a].nonce in s.syncOf && s.syncOf[s.syncs[a].nonce] == a
  {
    assert SyncOk(s, a);
    assert HeardFrom(s.syncs[a], n) ==>
           DocOk(s, WorkerDoc(n, s.syncs[a].nonce, s.syncs[a].heard.value.publicKey));
  }

  lemma UntakenLostIff(s: State, l: Label, t: State, n: Nonce)
    requires Inv(s) && Known(s) && OfLeader(l) && LeaderEnabled(s, l) && t == LeaderEffect(s, l)
    requires WorkersUntouched(s, t) && HasRoom(t) == HasRoom(s)
    requires n in s.sessions && s.sessions[n].takenBy.None? && Finishable(s, n)
    ensures !Finishable(t, n) <==> Abandons(s, l, n)
  {
    var sid := Server(s, n);
    NobodyNewServes(s, l, t);
    FinishableIffServed(s, t, n, sid);
    LostCallIff(s, l, t, n, sid);
  }

  lemma Server(s: State, n: Nonce) returns (sid: SyncId)
    requires Inv(s) && n in s.sessions && s.sessions[n].takenBy.None? && Finishable(s, n)
    ensures sid in s.syncs && OnlyServer(s, n, sid)
  {
    sid :| sid in s.syncs && Serves(s, n, sid);
    OneCallServes(s, n, sid);
    forall c | c in s.syncs && (Serves(s, n, c) || HeardFrom(s.syncs[c], n)) ensures c == sid {
      OneCallServes(s, n, c);
    }
  }

  lemma FinishableIffServed(s: State, t: State, n: Nonce, sid: SyncId)
    requires n in s.sessions && n in t.sessions && t.sessions[n].takenBy.None?
    requires OnlyServer(s, n, sid) && NoNewcomer(s, t)
    ensures Finishable(t, n) <==> Serves(t, n, sid)
  {
    if c :| c in t.syncs && Serves(t, n, c) {
      assert Serves(s, n, c);
    }
  }

  /** Only call sid serves the session or has heard of it. */
  ghost predicate OnlyServer(s: State, n: Nonce, sid: SyncId)
    requires n in s.sessions
  {
    && Serves(s, n, sid)
    && forall c {:trigger HeardFrom(s.syncs[c], n)} {:trigger Serves(s, n, c)} ::
         c in s.syncs && (Serves(s, n, c) || HeardFrom(s.syncs[c], n)) ==> c == sid
  }

  lemma LostCallIff(s: State, l: Label, t: State, n: Nonce, sid: SyncId)
    requires Inv(s) && Known(s) && OfLeader(l) && LeaderEnabled(s, l) && t == LeaderEffect(s, l)
    requires WorkersUntouched(s, t) && HasRoom(t) == HasRoom(s) && n in s.sessions && OnlyServer(s, n, sid)
    ensures !Serves(t, n, sid) <==> Abandons(s, l, n)
  {
    if l.HearDoc? {
      LostByHearing(s, l, t, n, sid);
    } else if l.TakeSnapshot? {
      LostBySnapshot(s, l, t, n, sid);
    } else if l.SyncFails? {
      LostByFailure(s, l, t, n, sid);
    } else {
      OthersLoseNothing(s, l, t, n, sid);
    }
  }

  lemma LostByHearing(s: State, l: Label, t: State, n: Nonce, sid: SyncId)
    requires Inv(s) && NoncesApart(s) && l.HearDoc? && LeaderEnabled(s, l) && t == LeaderEffect(s, l)
    requires n in s.sessions && n in t.sessions && HasRoom(t) == HasRoom(s) && OnlyServer(s, n, sid)
    ensures !Serves(t, n, sid) <==> Abandons(s, l, n)
  {
    HearingLosesIff(s, t, l.sid, l.doc, n, sid);
  }

  lemma LostBySnapshot(s: State, l: Label, t: State, n: Nonce, sid: SyncId)
    requires Inv(s) && l.TakeSnapshot? && LeaderEnabled(s, l) && t == LeaderEffect(s, l)
    requires n in s.sessions && n in t.sessions && HasRoom(t) == HasRoom(s) && OnlyServer(s, n, sid)
    ensures !Serves(t, n, sid) <==> Abandons(s, l, n)
  {
    SnapshotLosesIff(s, t, l.sid, n, sid);
  }

  lemma LostByFailure(s: State, l: Label, t: State, n: Nonce, sid: SyncId)
    requires l.SyncFails? && LeaderEnabled(s, l) && t == LeaderEffect(s, l)
    requires n in s.sessions && n in t.sessions && HasRoom(t) == HasRoom(s) && OnlyServer(s, n, sid)
    ensures !Serves(t, n, sid) <==> Abandons(s, l, n)
  {
    FailureLosesIff(s, t, l.sid, n, sid);
  }

  lemma OthersLoseNothing(s: State, l: Label, t: State, n: Nonce, sid: SyncId)
    requires OfLeader(l) && LeaderEnabled(s, l) && t == LeaderEffect(s, l)
    requires !l.HearDoc? && !l.TakeSnapshot? && !l.SyncFails?
    requires n in s.sessions && n in t.sessions && HasRoom(t) == HasRoom(s) && Serves(s, n, sid)
    ensures Serves(t, n, sid)
  {
    if OfLoop(l) {
      if Starts(s, l) { LeaderLeaves(s, l); } else { LoopIsNoCall(s, l); }
    } else if l.PostKeys? {
      PostLosesNothing(s, t, l.sid, n, sid);
    } else {
      EndedCall(s, l, t);
      LateEnd(s, l, t, sid);
    }
  }

  /** A call that ends after its POST has a document already, if it serves anybody. */
  lemma LateEnd(s: State, l: Label, t: State, sid: SyncId)
    requires (l.HearOk? || l.RegisterAfter? || l.UnregisterAfter?) && LeaderEnabled(s, l)
    requires t == LeaderEffect(s, l) && sid in s.syncs && sid in t.syncs
    ensures t.syncs[sid] == s.syncs[sid]
            || (t.syncs[sid] == s.syncs[sid].(pc := t.syncs[sid].pc)
                && s.syncs[sid].pc !in {AwaitingDoc, Verified, Snapped})
  {
    match l {
      case HearOk(_, _) =>
      case RegisterAfter(_) =>
      case UnregisterAfter(_) =>
    }
  }

  lemma FailureLosesIff(s: State, t: State, c: SyncId, n: Nonce, sid: SyncId)
    requires c in s.syncs && Running(s.syncs[c]) && t == MoveSync(s, c, Failed)
    requires n in s.sessions && HasRoom(t) == HasRoom(s) && OnlyServer(s, n, sid)
    ensures !Serves(t, n, sid) <==> CanIssue(s, n, s.syncs[c]) && !Issued(s, n, c)
  {
    assert CanIssue(s, n, s.syncs[c]) ==> Serves(s, n, c);
  }

  lemma SnapshotLosesIff(s: State, t: State, c: SyncId, n: Nonce, sid: SyncId)
    requires Inv(s) && At(s, c, Verified) && !s.leader.crashed && t == DoTakeSnapshot(s, c)
    requires n in s.sessions && HasRoom(t) == HasRoom(s) && OnlyServer(s, n, sid)
    ensures !Serves(t, n, sid) <==> HeardFrom(s.syncs[c], n) && !Fits(s.docLen, Raw(Current(s)))
  {
    assert SyncOk(s, c);
    assert Issued(t, n, c) ==> DocOk(s, DocOf(c, t.syncs[c]));
  }

  lemma PostLosesNothing(s: State, t: State, c: SyncId, n: Nonce, sid: SyncId)
    requires CanPostKeys(s, c) && t == DoPostKeys(s, c)
    requires n in s.sessions && HasRoom(t) == HasRoom(s) && Serves(s, n, sid)
    ensures Serves(t, n, sid)
  {
  }

  lemma HearingLosesIff(s: State, t: State, c: SyncId, doc: Option<Doc>, n: Nonce, sid: SyncId)
    requires Inv(s) && NoncesApart(s) && At(s, c, AwaitingDoc) && !s.leader.crashed && t == DoHearDoc(s, c, doc)
    requires n in s.sessions && n in t.sessions && HasRoom(t) == HasRoom(s) && OnlyServer(s, n, sid)
    ensures !Serves(t, n, sid) <==> HearingAbandons(s, c, doc, n)
  {
    var aux := VerifyAttstn(s.docs, doc, s.syncs[c].nonce);
    OtherRoleIsClients(s, c, doc);
    if aux.LeaderAux? {
      CrashLosesIff(s, t, n, sid);
    } else if aux.WorkerAux? {
      assert SyncOk(s, c) && DocOk(s, doc.value);
      HeardLosesIff(s, t, c, aux.workersNonce, aux.publicKey, doc, n, sid);
    } else {
      RejectionLosesIff(s, t, c, doc, n, sid);
    }
  }

  lemma RejectionLosesIff(s: State, t: State, c: SyncId, doc: Option<Doc>, n: Nonce, sid: SyncId)
    requires Inv(s) && At(s, c, AwaitingDoc) && VerifyAttstn(s.docs, doc, s.syncs[c].nonce).Rejected?
    requires t == MoveSync(s, c, Failed)
    requires n in s.sessions && HasRoom(t) == HasRoom(s) && OnlyServer(s, n, sid)
    ensures !Serves(t, n, sid) <==> CanIssue(s, n, s.syncs[c]) && !IsAnswer(s, n, doc)
  {
    assert SyncOk(s, c);
    FailureLosesIff(s, t, c, n, sid);
  }

  lemma CrashLosesIff(s: State, t: State, n: Nonce, sid: SyncId)
    requires t == s.(leader := s.leader.(crashed := true)) && n in s.sessions && OnlyServer(s, n, sid)
    ensures !Serves(t, n, sid) <==> forall x :: x in s.syncs ==> !Issued(s, n, x)
  {
    forall x | x in s.syncs && Issued(s, n, x) ensures x == sid { assert Serves(s, n, x); }
  }

  lemma HeardLosesIff(s: State, t: State, c: SyncId, wn: Nonce, pk: BoxKey, doc: Option<Doc>, n: Nonce, sid: SyncId)
    requires At(s, c, AwaitingDoc) && !s.leader.crashed && s.syncs[c].taken.None? && s.syncs[c].heard.None?
    requires doc == Some(WorkerDoc(wn, s.syncs[c].nonce, pk)) && doc.value in s.docs && DocOk(s, doc.value)
    requires t == WithSync(s, c, s.syncs[c].(pc := Verified, heard := Some(Heard(wn, pk))))
    requires n in s.sessions && HasRoom(t) == HasRoom(s) && OnlyServer(s, n, sid)
    ensures !Serves(t, n, sid) <==> CanIssue(s, n, s.syncs[c]) && !IsAnswer(s, n, doc)
  {
    assert CanIssue(s, n, s.syncs[c]) ==> Serves(s, n, c);
  }
}
