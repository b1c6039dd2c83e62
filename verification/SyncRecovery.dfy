/** A worker that can recover does so in some continuation, so that the condition is exact;
    and the ways in which it comes to fail. */
module SyncRecovery {
  import opened Common
  import opened SyncProtocol
  import opened SyncInvariant
  import opened SyncKnowledge
  import opened SyncSteps
  import opened SyncTheorems
  import opened SyncProgress
  import opened SyncStuck

  /** The worker decrypts in some continuation. */
  ghost predicate DecryptsAgain(s: State, w: WorkerId)
    requires w in s.workers
  {
    exists p: Path :: p.Valid() && p.Start() == s && Grown(s, p.End(), w)
  }

  predicate Grown(s: State, t: State, w: WorkerId) {
    w in s.workers && w in t.workers && |s.workers[w].log| < |t.workers[w].log|
  }

  /** The theorem: whatever happened before, the worker decrypts keys again in some
      continuation of the run iff it is recoverable. */
  lemma DecryptsAgainIff(s0: State, trace: seq<Label>, s: State, w: WorkerId)
    requires Reaches(s0, trace, s) && w in s.workers
    ensures DecryptsAgain(s, w) <==> Recoverable(s, w)
  {
    ReachableInv(s0, trace, s);
    ReachableKnown(s0, trace, s);
    if Recoverable(s, w) {
      var p := Recovers(s, w);
    } else {
      forall p: Path | p.Valid() && p.Start() == s ensures !Grown(s, p.End(), w) {
        StuckAlongPath(p, w, |p.states| - 1);
      }
    }
  }

  lemma Recovers(s: State, w: WorkerId) returns (p: Path)
    requires Inv(s) && Known(s) && w in s.workers && Recoverable(s, w)
    ensures p.Valid() && p.Start() == s && Grown(s, p.End(), w)
  {
    p := Path([s], []);
    if s.workers[w].keyCh.None? {
      p := StartOver(p, w);
    } else {
      var n := s.boxKeys[s.workers[w].keyCh.value];
      assert KeyChOk(s.sessions, s.boxKeys, w, s.workers[w]);
      assert SessionOk(s, n);
      match s.sessions[n].takenBy {
        case Some(h) => p := FinishTaken(p, w, n, h);
        case None =>
          var sid :| Serves(s, n, sid);
          p := FinishUntaken(p, w, n, sid);
      }
    }
  }

  /** A nonce in the channel, whose key will never come, is cleared away by a stray POST. */
  lemma ClearNonce(p: Path, w: WorkerId) returns (q: Path)
    requires p.Valid() && Inv(p.End()) && w in p.End().workers && p.End().workers[w].keyCh.None?
    ensures q.Valid() && q.Start() == p.Start() && w in q.End().workers
    ensures var s, t := p.End(), q.End();
      && t.workers[w] == s.workers[w].(nonceCh := None) && t.leader == s.leader && t.docLen == s.docLen
  {
    q := p;
    var s := p.End();
    if s.workers[w].nonceCh.Some? {
      assert NonceChOk(s.sessions, w, s.workers[w]);
      var h := Above(s.finishes.Keys);
      assert h !in s.finishes.Keys;
      q := StrayPhase(q, w, h);
    }
  }

  lemma StartOver(p: Path, w: WorkerId) returns (q: Path)
    requires p.Valid() && Inv(p.End()) && w in p.End().workers
    requires p.End().workers[w].keyCh.None? && !p.End().leader.crashed && HasRoom(p.End())
    ensures q.Valid() && q.Start() == p.Start() && Grown(p.End(), q.End(), w)
  {
    q := ClearNonce(p, w);
    q := PutPhase(q, []);
    var x := UnusedNames(q.End());
    q := SyncUpToDecryption(q, w, x);
  }

  lemma FinishTaken(p: Path, w: WorkerId, n: Nonce, h: HandlerId) returns (q: Path)
    requires p.Valid() && Inv(p.End()) && Pending(p.End(), w, n)
    requires p.End().sessions[n].takenBy == Some(h) && WillPass(p.End(), h)
    ensures q.Valid() && q.Start() == p.Start() && Grown(p.End(), q.End(), w)
  {
    var s := p.End();
    assert SessionOk(s, n);
    q := p;
    if s.finishes[h].pc == TookNonce {
      StepKeeps(s, VerifyPost(h, false));
      q := Go(q, VerifyPost(h, false));
    }
    q := PopPassed(q, w, h);
  }

  lemma PopPassed(p: Path, w: WorkerId, h: HandlerId) returns (q: Path)
    requires p.Valid() && Inv(p.End()) && h in p.End().finishes
    requires p.End().finishes[h].pc == Passed && p.End().finishes[h].worker == w
    ensures q.Valid() && q.Start() == p.Start() && Grown(p.End(), q.End(), w)
  {
    PassedFinds(p.End(), h);
    PassedHasKey(p.End(), h);
    q := Go(p, PopKey(h));
  }

  lemma FinishUntaken(p: Path, w: WorkerId, n: Nonce, sid: SyncId) returns (q: Path)
    requires p.Valid() && Inv(p.End()) && NoncesWait(p.End()) && Pending(p.End(), w, n)
    requires p.End().sessions[n].takenBy.None? && Serves(p.End(), n, sid)
    ensures q.Valid() && q.Start() == p.Start() && Grown(p.End(), q.End(), w)
  {
    var s := p.End();
    var k := s.workers[w].keyCh.value;
    assert Waiting(s, w, n, k);
    assert SyncOk(s, sid);
    if HeardFrom(s.syncs[sid], n) {
      assert DocOk(s, WorkerDoc(n, s.syncs[sid].nonce, s.syncs[sid].heard.value.publicKey));
      if Issued(s, n, sid) {
        q := FromIssued(p, w, n, k, sid);
      } else if s.syncs[sid].pc == Snapped {
        q := FromSnapped(p, w, n, k, sid);
      } else {
        q := FromVerified(p, w, n, k, sid);
      }
    } else {
      q := FromAwaiting(p, w, n, k, sid);
    }
  }

  /** Nonce and key of the session are in the channels. */
  predicate Waiting(s: State, w: WorkerId, n: Nonce, k: BoxKey) {
    && w in s.workers && s.workers[w].nonceCh == Some(n) && s.workers[w].keyCh == Some(k)
    && n in s.sessions && s.sessions[n].key == Some(k) && k in s.boxKeys && s.boxKeys[k] == n
  }

  lemma FromAwaiting(p: Path, w: WorkerId, n: Nonce, k: BoxKey, sid: SyncId) returns (q: Path)
    requires p.Valid() && Waiting(p.End(), w, n, k) && At(p.End(), sid, AwaitingDoc)
    requires CanIssue(p.End(), n, p.End().syncs[sid])
    ensures q.Valid() && q.Start() == p.Start() && Grown(p.End(), q.End(), w)
  {
    q := AnswerPhase(p, n);
    var doc := WorkerDoc(n, q.End().sessions[n].leadersNonce, k);
    assert VerifyAttstn(q.End().docs, Some(doc), q.End().syncs[sid].nonce).WorkerAux?;
    q := Go(q, HearDoc(sid, Some(doc)));
    q := FromVerified(q, w, n, k, sid);
  }

  lemma AnswerPhase(p: Path, n: Nonce) returns (q: Path)
    requires p.Valid() && n in p.End().sessions && Answerable(p.End(), n)
    ensures q.Valid() && q.Start() == p.Start() && n in q.End().sessions
    ensures var s, t := p.End(), q.End();
      && t.workers == s.workers && t.syncs == s.syncs && t.leader == s.leader && t.boxKeys == s.boxKeys
      && t.sessions[n].key == s.sessions[n].key && t.sessions[n].leadersNonce == s.sessions[n].leadersNonce
      && t.docLen == s.docLen && WorkerDoc(n, s.sessions[n].leadersNonce, s.sessions[n].key.value) in t.docs
  {
    q := p;
    if p.End().sessions[n].pc == KeyPushed {
      q := Go(q, AnswerGet(n));
    }
  }

  lemma FromVerified(p: Path, w: WorkerId, n: Nonce, k: BoxKey, sid: SyncId) returns (q: Path)
    requires p.Valid() && Waiting(p.End(), w, n, k) && At(p.End(), sid, Verified)
    requires !p.End().leader.crashed && HasRoom(p.End()) && p.End().syncs[sid].heard == Some(Heard(n, k))
    ensures q.Valid() && q.Start() == p.Start() && Grown(p.End(), q.End(), w)
  {
    q := PutPhase(p, []);
    q := Go(q, TakeSnapshot(sid));
    q := FromSnapped(q, w, n, k, sid);
  }

  lemma FromSnapped(p: Path, w: WorkerId, n: Nonce, k: BoxKey, sid: SyncId) returns (q: Path)
    requires p.Valid() && Waiting(p.End(), w, n, k) && At(p.End(), sid, Snapped) && !p.End().leader.crashed
    requires p.End().syncs[sid].heard == Some(Heard(n, k)) && HasFitting(p.End(), p.End().syncs[sid])
    ensures q.Valid() && q.Start() == p.Start() && Grown(p.End(), q.End(), w)
  {
    q := Go(p, PostKeys(sid));
    q := FromIssued(q, w, n, k, sid);
  }

  lemma FromIssued(p: Path, w: WorkerId, n: Nonce, k: BoxKey, sid: SyncId) returns (q: Path)
    requires p.Valid() && Waiting(p.End(), w, n, k) && Issued(p.End(), n, sid)
    requires p.End().syncs[sid].heard == Some(Heard(n, k))
    ensures q.Valid() && q.Start() == p.Start() && Grown(p.End(), q.End(), w)
  {
    var y := p.End().syncs[sid];
    var h := Above(p.End().finishes.Keys);
    assert h !in p.End().finishes.Keys;
    var x := Names(sid, y.nonce, n, k, h);
    q := CheckPhase(p, w, x, y.taken.value.snap);
    q := OpenPhase(q, w, x, y.taken.value.snap);
  }

  // -------------------------------------------------- what loses a session

  /** A POST that fails a check after it took the nonce of a complete session ends all
      syncing of the worker. */
  lemma FailedPostEndsSyncing(s0: State, trace: seq<Label>, s: State, h: HandlerId, fails: bool)
    requires Reaches(s0, trace, s) && CanVerifyPost(s, h)
    requires fails || !PassesChecks(s.docs, s.finishes[h])
    requires s.finishes[h].nonce in s.sessions && s.sessions[s.finishes[h].nonce].key.Some?
    ensures Stuck(Apply(s, VerifyPost(h, fails)), s.finishes[h].worker)
  {
    ReachableInv(s0, trace, s);
    FailureLosesSession(s, Apply(s, VerifyPost(h, fails)), h, fails);
  }

  lemma FailureLosesSession(s: State, t: State, h: HandlerId, fails: bool)
    requires Inv(s) && CanVerifyPost(s, h) && (fails || !PassesChecks(s.docs, s.finishes[h]))
    requires s.finishes[h].nonce in s.sessions && s.sessions[s.finishes[h].nonce].key.Some?
    requires t == Ticked(s, DoVerifyPost(s, h, fails))
    ensures Stuck(t, s.finishes[h].worker)
  {
    assert FinishOk(s, h);
    assert SessionOk(s, s.finishes[h].nonce);
  }

  /** So does a call that gives up while its worker waits for it, be it only because the
      answer to its GET got lost: no other call has the nonce that the session is for. */
  lemma FailedCallEndsSyncing(s0: State, trace: seq<Label>, s: State, sid: SyncId, w: WorkerId, n: Nonce)
    requires Reaches(s0, trace, s) && !s.leader.crashed && At(s, sid, AwaitingDoc)
    requires Pending(s, w, n) && s.sessions[n].takenBy.None? && s.sessions[n].leadersNonce == s.syncs[sid].nonce
    ensures Enabled(s, SyncFails(sid))
    ensures Stuck(Apply(s, SyncFails(sid)), w)
  {
    ReachableInv(s0, trace, s);
    var t := Apply(s, SyncFails(sid));
    forall c ensures !Serves(t, n, c) {
      if c in s.syncs { OnlyItsCallServes(s, n, c, sid); }
    }
  }

  lemma OnlyItsCallServes(s: State, n: Nonce, c: SyncId, sid: SyncId)
    requires Inv(s) && n in s.sessions && c in s.syncs && At(s, sid, AwaitingDoc)
    requires s.sessions[n].leadersNonce == s.syncs[sid].nonce
    ensures !HeardFrom(s.syncs[c], n) && (s.syncs[c].nonce == s.sessions[n].leadersNonce ==> c == sid)
  {
    assert SyncOk(s, c) && SyncOk(s, sid);
    assert HeardFrom(s.syncs[c], n) ==>
           DocOk(s, WorkerDoc(n, s.syncs[c].nonce, s.syncs[c].heard.value.publicKey));
  }

  /** And so does a GET with a nonce that no call is waiting for an answer to, such as the zero
      nonce of a GET that names none: three steps from every state in which the worker's
      channels are empty. */
  lemma StrayGetEndsSyncing(s0: State, trace: seq<Label>, s: State, get: Get, n: Nonce, k: BoxKey) returns (p: Path)
    requires Reaches(s0, trace, s) && get.worker in s.workers
    requires s.workers[get.worker].nonceCh.None? && s.workers[get.worker].keyCh.None?
    requires Fresh(s, n) && n != get.leadersNonce && k !in s.boxKeys && NoCallAwaits(s, get.leadersNonce)
    ensures p.Valid() && p.Start() == s && |p.labels| == 3 && p.End().docs == s.docs
    ensures Stuck(p.End(), get.worker)
  {
    ReachableInv(s0, trace, s);
    ReachableKnown(s0, trace, s);
    p := StraySession(s, get, n, k);
    forall sid ensures !Serves(p.End(), n, sid) {
      if sid in s.syncs {
        assert SyncOk(s, sid);
        assert HeardFrom(s.syncs[sid], n) ==> n in s.sessions;
      }
    }
  }

  predicate NoCallAwaits(s: State, n: Nonce) {
    forall sid :: sid in s.syncs && s.syncs[sid].pc == AwaitingDoc ==> s.syncs[sid].nonce != n
  }

  /** No call ever awaits an answer to the zero nonce. */
  lemma ZeroNonceIsStray(s0: State, trace: seq<Label>, s: State)
    requires Reaches(s0, trace, s)
    ensures NoCallAwaits(s, ZERO_NONCE)
  {
    ReachableInv(s0, trace, s);
    ReachableKnown(s0, trace, s);
    forall sid | sid in s.syncs && s.syncs[sid].pc == AwaitingDoc ensures s.syncs[sid].nonce != ZERO_NONCE {
      assert SyncOk(s, sid);
    }
  }

  lemma StraySession(s: State, get: Get, n: Nonce, k: BoxKey) returns (p: Path)
    requires get.worker in s.workers && s.workers[get.worker].nonceCh.None? && s.workers[get.worker].keyCh.None?
    requires Fresh(s, n) && n != get.leadersNonce && k !in s.boxKeys
    ensures p.Valid() && p.Start() == s && |p.labels| == 3
    ensures var t, w := p.End(), get.worker;
      && w in t.workers && t.workers[w].keyCh == Some(k) && k in t.boxKeys && t.boxKeys[k] == n
      && n in t.sessions && t.sessions[n].takenBy.None? && t.sessions[n].leadersNonce == get.leadersNonce
      && t.syncs == s.syncs && t.docs == s.docs && t.leader == s.leader
  {
    p := StrayNonce(s, get, n);
    p := Go(p, PushKey(n, k));
  }

  lemma StrayNonce(s: State, get: Get, n: Nonce) returns (p: Path)
    requires get.worker in s.workers && s.workers[get.worker].nonceCh.None? && s.workers[get.worker].keyCh.None?
    requires Fresh(s, n) && n != get.leadersNonce
    ensures p.Valid() && p.Start() == s && |p.labels| == 2
    ensures var t, w := p.End(), get.worker;
      && t.workers == s.workers[w := s.workers[w].(nonceCh := Some(n))] && t.boxKeys == s.boxKeys
      && n in t.sessions && t.sessions[n].worker == w && t.sessions[n].pc == NoncePushed
      && t.sessions[n].takenBy.None? && t.sessions[n].leadersNonce == get.leadersNonce
      && t.syncs == s.syncs && t.docs == s.docs && t.leader == s.leader
  {
    p := Go(Path([s], []), GetArrives(get.worker, get.leadersNonce));
    p := Go(p, PushNonce(get, n));
  }

  /** Finally, a POST without any document loses a pending session that could have been
      finished. */
  lemma StrayPostEndsSyncing(s0: State, trace: seq<Label>, s: State, w: WorkerId, n: Nonce, h: HandlerId)
    returns (p: Path)
    requires Reaches(s0, trace, s) && Pending(s, w, n) && s.sessions[n].takenBy.None? && h !in s.finishes
    ensures p.Valid() && p.Start() == s && |p.labels| == 3 && p.End().docs == s.docs
    ensures Stuck(p.End(), w)
  {
    ReachableInv(s0, trace, s);
    ReachableKnown(s0, trace, s);
    p := StrayPhase(Path([s], []), w, h);
    p := StrayCheck(p, w, n, h);
  }

  lemma StrayCheck(p: Path, w: WorkerId, n: Nonce, h: HandlerId) returns (q: Path)
    requires p.Valid() && Pending(p.End(), w, n) && h in p.End().finishes
    requires p.End().sessions[n].takenBy == Some(h) && CanVerifyPost(p.End(), h)
    requires p.End().finishes[h].body.doc.None?
    ensures q.Valid() && q.Start() == p.Start() && |q.labels| == |p.labels| + 1
    ensures q.End().docs == p.End().docs && Stuck(q.End(), w)
  {
    q := Go(p, VerifyPost(h, false));
  }

  /** Handler h took nonce n, for a POST without a document. */
  predicate TookFor(s: State, t: State, w: WorkerId, n: Nonce, h: HandlerId) {
    && w in s.workers && n in s.sessions
    && t.workers == s.workers[w := s.workers[w].(nonceCh := None)]
    && t.sessions == s.sessions[n := s.sessions[n].(takenBy := Some(h))]
    && t.finishes == s.finishes[h := Finish(w, Body(false, None, None), n, TookNonce)]
    && t.leader == s.leader && t.docs == s.docs && t.docLen == s.docLen && t.boxKeys == s.boxKeys
  }

  lemma StrayPhase(p: Path, w: WorkerId, h: HandlerId) returns (q: Path)
    requires p.Valid() && w in p.End().workers && h !in p.End().finishes
    requires p.End().workers[w].nonceCh.Some? && p.End().workers[w].nonceCh.value in p.End().sessions
    ensures q.Valid() && q.Start() == p.Start() && |q.labels| == |p.labels| + 2
    ensures TookFor(p.End(), q.End(), w, p.End().workers[w].nonceCh.value, h)
  {
    var stray := Post(w, Body(false, None, None));
    q := Go(p, PostArrives(stray));
    q := Go(q, TakeNonce(stray, h));
  }
}
