/** What the key-synchronization protocol guarantees in every run. */
module SyncTheorems {
  import opened Common
  import opened SyncProtocol
  import opened SyncInvariant
  import opened SyncBudget
  import opened SyncFrames
  import opened SyncKnowledge
  import opened SyncSteps

  // ------------------------------------------------------ one-slot channels

  /** A finishSync handler that got past verification and the hash check never waits
      for a key: the channel holds exactly the key of the session whose nonce it
      took.  Opening the ciphertext with it works and yields a key set, and no other
      handler of the worker is at that point. */
  lemma PassedHandlerFindsItsKey(s0: State, trace: seq<Label>, s: State, h: HandlerId)
    requires Reaches(s0, trace, s) && h in s.finishes && s.finishes[h].pc == Passed
    ensures Enabled(s, PopKey(h)) && FindsItsKey(s, h)
    ensures OpensItsKeys(s, Apply(s, PopKey(h)), h) && Enabled(Apply(s, PopKey(h)), Install(h))
    ensures forall g :: g in s.finishes && s.finishes[g].pc == Passed ==>
              s.finishes[g].worker == s.finishes[h].worker ==> g == h
  {
    ReachableInv(s0, trace, s);
    PassedFinds(s, h);
    forall g | g in s.finishes && s.finishes[g].pc == Passed && s.finishes[g].worker == s.finishes[h].worker
      ensures g == h
    {
      PassedIsAlone(s, g, h);
    }
  }

  /** The key channel of the worker holds the key of the session whose nonce h took. */
  predicate FindsItsKey(s: State, h: HandlerId) {
    && h in s.finishes && s.finishes[h].nonce in s.sessions && s.finishes[h].worker in s.workers
    && s.workers[s.finishes[h].worker].keyCh.Some?
    && s.workers[s.finishes[h].worker].keyCh == s.sessions[s.finishes[h].nonce].key
  }

  /** In t, h has just opened its ciphertext and found key material in it. */
  predicate OpensItsKeys(s: State, t: State, h: HandlerId) {
    && h in s.finishes && h in t.finishes && s.finishes[h].worker in t.workers
    && var x := t.workers[s.finishes[h].worker];
       x.log != [] && t.finishes[h].pc == Opened(|x.log| - 1) && x.log[|x.log| - 1].plain.KeysJson?
       && x.log[|x.log| - 1].handler == h
  }

  lemma PassedFinds(s: State, h: HandlerId)
    requires Inv(s) && h in s.finishes && s.finishes[h].pc == Passed
    ensures CanPopKey(s, h) && FindsItsKey(s, h)
    ensures var t := DoPopKey(s, h); OpensItsKeys(s, t, h) && CanInstall(t, h)
  {
    PassedHasKey(s, h);
    assert FinishOk(s, h);
    CertifiedMeans(s, h);
  }

  lemma PassedIsAlone(s: State, g: HandlerId, h: HandlerId)
    requires Inv(s) && g in s.finishes && h in s.finishes && s.finishes[g].worker == s.finishes[h].worker
    requires s.finishes[g].pc == Passed && s.finishes[h].pc == Passed
    ensures g == h
  {
    PassedHasKey(s, g);
    PassedHasKey(s, h);
    assert FinishOk(s, g) && FinishOk(s, h);
  }

  /** A handler can go on exactly when the statement it is at can: the bookkeeping
      that steps mention never stands in the way. */
  predicate OnlyChannelBlocks(s: State, l: Label) {
    match l
    case TakeNonce(post, h) =>
      post in s.posts && post.worker in s.workers && h !in s.finishes ==>
        (CanTakeNonce(s, post, h) <==> s.workers[post.worker].nonceCh.Some?)
    case PushKey(n, k) =>
      n in s.sessions && s.sessions[n].pc == NoncePushed && k !in s.boxKeys ==>
        && s.sessions[n].worker in s.workers
        && (CanPushKey(s, n, k) <==> s.workers[s.sessions[n].worker].keyCh.None?)
    case AnswerGet(n) => n in s.sessions && s.sessions[n].pc == KeyPushed ==> CanAnswerGet(s, n)
    case PopKey(h) => h in s.finishes && s.finishes[h].pc == Passed ==> CanPopKey(s, h)
    case Install(h) => h in s.finishes && s.finishes[h].pc.Opened? ==> CanInstall(s, h)
    case Dispatch(v) =>
      !s.leader.crashed && 1 <= v <= s.leader.version && v !in s.leader.targets
      ==> (Enabled(s, l) <==> s.leader.loop.Select?)
    case Put(appKeys) => !s.leader.crashed ==> (Enabled(s, l) <==> |appKeys| <= 1048576)
    case HearDoc(sid, _) => !s.leader.crashed && At(s, sid, AwaitingDoc) ==> Enabled(s, l)
    case TakeSnapshot(sid) => !s.leader.crashed && At(s, sid, Verified) ==> Enabled(s, l)
    case PostKeys(sid) => At(s, sid, Snapped) ==> CanPostKeys(s, sid)
    case SyncFails(sid) =>
      !s.leader.crashed && sid in s.syncs && s.syncs[sid].pc in {AwaitingDoc, Verified, Snapped, Posted}
      ==> Enabled(s, l)
    case Register(w) =>
      !s.leader.crashed && w in s.leader.registering ==> (Enabled(s, l) <==> s.leader.loop.Select?)
    case RegisterAfter(sid) =>
      !s.leader.crashed && sid in s.syncs && s.syncs[sid].pc.Succeeded? && s.syncs[sid].origin.FromHeartbeat?
      ==> (Enabled(s, l) <==> s.leader.loop.Select?)
    case UnregisterAfter(sid) =>
      !s.leader.crashed && sid in s.syncs && s.syncs[sid].pc.Failed? && s.syncs[sid].origin.FromPut?
      ==> (Enabled(s, l) <==> s.leader.loop.Select?)
    case _ => true
  }

  lemma OnlyChannelsBlock(s0: State, trace: seq<Label>, s: State, l: Label)
    requires Reaches(s0, trace, s)
    ensures OnlyChannelBlocks(s, l)
  {
    ReachableInv(s0, trace, s);
    NothingElseBlocks(s, l);
  }

  lemma NothingElseBlocks(s: State, l: Label)
    requires Inv(s)
    ensures OnlyChannelBlocks(s, l)
  {
    if !OfLeader(l) { NothingElseBlocksWorkers(s, l); } else { NothingElseBlocksLeader(s, l); }
  }

  lemma NothingElseBlocksLeader(s: State, l: Label)
    requires Inv(s) && OfLeader(l)
    ensures OnlyChannelBlocks(s, l)
  {
    if l.PostKeys? { assert l.sid in s.syncs ==> SyncOk(s, l.sid); }
  }

  lemma NothingElseBlocksWorkers(s: State, l: Label)
    requires Inv(s) && !OfLeader(l)
    ensures OnlyChannelBlocks(s, l)
  {
    match l {
      case TakeNonce(post, h) => NoTakerBlocks(s, post, h);
      case PushKey(n, k) => assert n in s.sessions ==> SessionOk(s, n);
      case AnswerGet(n) => assert n in s.sessions ==> SessionOk(s, n);
      case PopKey(h) => NoPassedBlocks(s, h);
      case Install(h) => assert h in s.finishes ==> FinishOk(s, h);
      case _ =>
    }
  }

  lemma NoTakerBlocks(s: State, post: Post, h: HandlerId)
    requires Inv(s)
    ensures OnlyChannelBlocks(s, TakeNonce(post, h))
  {
    assert post.worker in s.workers ==> NonceChOk(s.sessions, post.worker, s.workers[post.worker]);
  }

  lemma NoPassedBlocks(s: State, h: HandlerId)
    requires Inv(s)
    ensures OnlyChannelBlocks(s, PopKey(h))
  {
    if h in s.finishes && s.finishes[h].pc == Passed { PassedFinds(s, h); }
  }

  // --------------------------------------------------------------- agreement

  function TakenFor(s: State, o: Opening): Taken
    requires o.sync in s.syncs && s.syncs[o.sync].taken.Some?
  {
    s.syncs[o.sync].taken.value
  }

  predicate HasOrigin(s: State, o: Opening) {
    o.sync in s.syncs && s.syncs[o.sync].taken.Some? && o.nonce in s.sessions
  }

  /** Agreement: whatever a worker decrypts is the leader's key material as it was at
      one instant between the issuing of that session's attestation document and the
      decryption. */
  lemma Agreement(s0: State, trace: seq<Label>, s: State, w: WorkerId, i: nat)
    requires Reaches(s0, trace, s) && w in s.workers && i < |s.workers[w].log|
    ensures var o := s.workers[w].log[i];
      && HasOrigin(s, o)
      && o.plain == KeysJson(TakenFor(s, o).snap)
      && TakenFor(s, o).at < |s.history| && s.history[TakenFor(s, o).at] == TakenFor(s, o).snap
      && s.sessions[o.nonce].worker == w && s.sessions[o.nonce].issuedAt.Some?
      && s.sessions[o.nonce].pushedAt < s.sessions[o.nonce].issuedAt.value < TakenFor(s, o).at < o.at
  {
    ReachableInv(s0, trace, s);
    assert OpeningOk(s, w, i);
    var o := s.workers[w].log[i];
    assert SyncOk(s, o.sync);
    assert SessionOk(s, o.nonce);
  }

  /** A syncWith call that reports success matches exactly one decryption, by the
      worker that it addressed, of exactly the snapshot that it took; that decryption
      was installed, once. */
  lemma SuccessMeansOneInstall(s0: State, trace: seq<Label>, s: State, sid: SyncId)
    requires Reaches(s0, trace, s) && sid in s.syncs
    requires s.syncs[sid].pc.Succeeded? || s.syncs[sid].pc.Registered?
    ensures InstalledItsSnapshot(s, sid, s.syncs[sid].pc.handler)
    ensures forall w, i :: w in s.workers && 0 <= i < |s.workers[w].log| && s.workers[w].log[i].sync == sid
              ==> w == s.syncs[sid].worker && i == s.finishes[s.syncs[sid].pc.handler].pc.index
  {
    ReachableInv(s0, trace, s);
    SuccessInstalls(s, sid);
    forall w, i | w in s.workers && 0 <= i < |s.workers[w].log| && s.workers[w].log[i].sync == sid
      ensures w == s.syncs[sid].worker && i == s.finishes[s.syncs[sid].pc.handler].pc.index
    {
      OneOpeningPerCall(s, s.syncs[sid].worker, s.finishes[s.syncs[sid].pc.handler].pc.index, w, i);
    }
  }

  /** Handler h, of the worker that call sid addressed, opened and installed exactly the
      snapshot that the call took. */
  predicate InstalledItsSnapshot(s: State, sid: SyncId, h: HandlerId) {
    && sid in s.syncs && h in s.finishes && s.finishes[h].pc.Installed?
    && s.syncs[sid].taken.Some? && s.finishes[h].worker == s.syncs[sid].worker
    && s.syncs[sid].worker in s.workers
    && var log := s.workers[s.syncs[sid].worker].log;
       && s.finishes[h].pc.index < |log|
       && log[s.finishes[h].pc.index].handler == h && log[s.finishes[h].pc.index].sync == sid
       && log[s.finishes[h].pc.index].plain == KeysJson(s.syncs[sid].taken.value.snap)
  }

  lemma SuccessInstalls(s: State, sid: SyncId)
    requires Inv(s) && sid in s.syncs && (s.syncs[sid].pc.Succeeded? || s.syncs[sid].pc.Registered?)
    ensures InstalledItsSnapshot(s, sid, s.syncs[sid].pc.handler)
  {
    var h := s.syncs[sid].pc.handler;
    assert SyncOk(s, sid);
    assert FinishOk(s, h);
    assert OpeningOk(s, s.syncs[sid].worker, s.finishes[h].pc.index);
  }

  lemma OneOpeningPerCall(s: State, v: WorkerId, j: nat, w: WorkerId, i: nat)
    requires Inv(s) && v in s.workers && j < |s.workers[v].log| && w in s.workers && i < |s.workers[w].log|
    requires s.workers[v].log[j].sync == s.workers[w].log[i].sync
    ensures v == w && i == j
  {
    assert OpeningOk(s, v, j) && OpeningOk(s, w, i);
    assert FinishOk(s, s.workers[v].log[j].handler) && FinishOk(s, s.workers[w].log[i].handler);
  }

  /** Two calls never build on the same session of a worker. */
  lemma SessionsServeOneCall(s0: State, trace: seq<Label>, s: State, a: SyncId, b: SyncId)
    requires Reaches(s0, trace, s) && a in s.syncs && b in s.syncs
    requires s.syncs[a].heard.Some? && s.syncs[b].heard.Some?
    requires s.syncs[a].heard.value.workersNonce == s.syncs[b].heard.value.workersNonce
    ensures a == b
  {
    ReachableInv(s0, trace, s);
    assert SyncOk(s, a) && SyncOk(s, b);
    assert DocOk(s, WorkerDoc(s.syncs[a].heard.value.workersNonce, s.syncs[a].nonce, s.syncs[a].heard.value.publicKey));
    assert DocOk(s, WorkerDoc(s.syncs[b].heard.value.workersNonce, s.syncs[b].nonce, s.syncs[b].heard.value.publicKey));
  }

  // -------------------------------------------------------------- no rollback

  /** The snapshot behind a is older than the one behind b, and so is its version. */
  predicate Precedes(s: State, a: Opening, b: Opening) {
    && HasOrigin(s, a) && HasOrigin(s, b)
    && TakenFor(s, a).at < TakenFor(s, b).at
    && TakenFor(s, a).snap.version <= TakenFor(s, b).snap.version
  }

  lemma Later(s: State, w: WorkerId, i: nat, j: nat)
    requires Inv(s) && w in s.workers && i < j < |s.workers[w].log|
    ensures Precedes(s, s.workers[w].log[i], s.workers[w].log[j])
  {
    var log := s.workers[w].log;
    var earlier, later := log[i], log[j];
    assert LogOrdered(s.sessions, log);
    assert OpeningOk(s, w, i) && OpeningOk(s, w, j);
    assert SyncOk(s, earlier.sync) && SyncOk(s, later.sync);
    assert SessionOk(s, later.nonce);
    var a, b := TakenFor(s, earlier).at, TakenFor(s, later).at;
    assert a < b;
    assert s.history[a].version <= s.history[b].version;
  }

  /** No rollback: in the order in which a worker takes keys from its channel, the
      snapshots that it decrypts were taken strictly one after the other, and their
      versions never go back, whatever is replayed or reordered. */
  lemma DecryptionsNeverRollBack(s0: State, trace: seq<Label>, s: State, w: WorkerId)
    requires Reaches(s0, trace, s) && w in s.workers
    ensures forall i, j :: 0 <= i < j < |s.workers[w].log| ==>
              Precedes(s, s.workers[w].log[i], s.workers[w].log[j])
  {
    ReachableInv(s0, trace, s);
    forall i, j | 0 <= i < j < |s.workers[w].log|
      ensures Precedes(s, s.workers[w].log[i], s.workers[w].log[j])
    {
      Later(s, w, i, j);
    }
  }

  /** Installation is a separate statement, and the lock is free between the two: of
      two installations in a row the second brings a newer snapshot iff it was also
      decrypted second. */
  lemma InstallsAdvanceIffInOrder(s0: State, trace: seq<Label>, s: State, w: WorkerId, k: nat)
    requires Reaches(s0, trace, s) && w in s.workers && k + 1 < |s.workers[w].installs|
    ensures var x := s.workers[w];
      && x.installs[k] < |x.log| && x.installs[k + 1] < |x.log|
      && HasOrigin(s, x.log[x.installs[k]]) && HasOrigin(s, x.log[x.installs[k + 1]])
      && (TakenFor(s, x.log[x.installs[k]]).at < TakenFor(s, x.log[x.installs[k + 1]]).at
          <==> x.installs[k] < x.installs[k + 1])
  {
    ReachableInv(s0, trace, s);
    var x := s.workers[w];
    assert InstallsOk(x, s.finishes);
    var i, j := x.installs[k], x.installs[k + 1];
    assert IsInstalled(x, i, s.finishes) && IsInstalled(x, j, s.finishes);
    if i < j { Later(s, w, i, j); } else { Later(s, w, j, i); }
  }

  // ----------------------------------------------------------------- fan-out

  /** After a PUT that stored version v was dispatched, each worker that was registered
      at that moment has exactly one syncWith call from it; the call's snapshot is at
      least v; and when the call is over, the worker installed that snapshot or an
      unregister was sent for it. */
  lemma FanOut(s0: State, trace: seq<Label>, s: State, v: nat, w: WorkerId)
    requires Reaches(s0, trace, s) && v in s.leader.targets && w in s.leader.targets[v]
    requires s.leader.loop.FanningOut? ==> s.leader.loop.version != v
    ensures FansOutTo(s, v, w)
  {
    ReachableInv(s0, trace, s);
    HasFannedOut(s, v, w);
  }

  /** The PUT of version v has made exactly one call to w; it has a snapshot of v or later,
      and it is running, or ended with the worker having installed that or with an
      unregister, sent or about to be sent. */
  ghost predicate FansOutTo(s: State, v: nat, w: WorkerId) {
    && (v, w) in s.calls && s.calls[(v, w)] in s.syncs
    && (forall sid :: sid in s.syncs ==>
          (s.syncs[sid].origin == FromPut(v) && s.syncs[sid].worker == w <==> sid == s.calls[(v, w)]))
    && var y := s.syncs[s.calls[(v, w)]];
       && (y.taken.Some? ==> v <= y.taken.value.snap.version)
       && (Running(y) || y.pc.Failed? || y.pc.Unregistered?
           || (y.pc.Succeeded? && InstalledAtLeast(s, w, y.pc.handler, v)))
       && (y.pc.Failed? && s.leader.loop.Select? && !s.leader.crashed ==>
             Enabled(s, UnregisterAfter(s.calls[(v, w)]))
             && w !in Apply(s, UnregisterAfter(s.calls[(v, w)])).leader.registry)
  }

  lemma HasFannedOut(s: State, v: nat, w: WorkerId)
    requires Inv(s) && v in s.leader.targets && w in s.leader.targets[v]
    requires s.leader.loop.FanningOut? ==> s.leader.loop.version != v
    ensures FansOutTo(s, v, w)
  {
    var c := s.calls[(v, w)];
    assert SyncOk(s, c);
    forall sid | sid in s.syncs
      ensures s.syncs[sid].origin == FromPut(v) && s.syncs[sid].worker == w <==> sid == c
    {
      assert SyncOk(s, sid);
    }
    if s.syncs[c].pc.Succeeded? {
      SuccessInstalls(s, c);
    }
  }

  /** Handler h of worker w decrypted and installed version v or later. */
  predicate InstalledAtLeast(s: State, w: WorkerId, h: HandlerId, v: nat) {
    && w in s.workers && h in s.finishes && s.finishes[h].worker == w && s.finishes[h].pc.Installed?
    && s.finishes[h].pc.index < |s.workers[w].log|
    && var p := s.workers[w].log[s.finishes[h].pc.index].plain; p.KeysJson? && v <= p.snap.version
  }

  // ------------------------------------------------------------- convergence

  /** The worker agrees with the leader: it has the same keys.  This is all that a heartbeat
      can find out. */
  predicate Agrees(s: State, w: WorkerId) {
    w in s.workers && s.workers[w].keys == s.leader.keys
  }

  /** More than that: the worker got these keys since the last PUT.  The version is not in
      the code; a worker can agree with the leader and have an older one, after PUTs that
      led back to earlier keys. */
  predicate InSync(s: State, w: WorkerId) {
    Agrees(s, w) && s.workers[w].version == Some(s.leader.version)
  }

  /** The step installs, at w, other keys than the leader's. */
  predicate InstallsOther(s: State, l: Label, w: WorkerId) {
    && l.Install? && CanInstall(s, l.h) && s.finishes[l.h].worker == w
    && KeysAfter(s, l.h) != Some(s.leader.keys)
  }

  /** The step puts other application keys than the leader has. */
  predicate PutsOther(s: State, l: Label) {
    l.Put? && l.appKeys != s.leader.keys.appKeys
  }

  /** The step installs, at w, a snapshot from before the last PUT. */
  predicate InstallsStale(s: State, l: Label, w: WorkerId) {
    && l.Install? && l.h in s.finishes && s.finishes[l.h].worker == w && w in s.workers
    && s.finishes[l.h].pc.Opened? && s.finishes[l.h].pc.index < |s.workers[w].log|
    && var o := s.workers[w].log[s.finishes[l.h].pc.index];
       HasOrigin(s, o) && TakenFor(s, o).snap.version < s.leader.version
  }

  lemma SnapshotOfVersion(s: State, i: nat)
    requires HistoryOk(s) && i < |s.history| && s.history[i].version == s.leader.version
    ensures s.history[i].keys == s.leader.keys
  {
    assert s.history[i] == s.history[|s.history| - 1];
  }

  /** What Install does, given the invariant. */
  lemma InstallEffect(s: State, h: HandlerId)
    requires Inv(s) && Enabled(s, Install(h))
    ensures var f := s.finishes[h]; var o := s.workers[f.worker].log[f.pc.index];
      var t := Apply(s, Install(h));
      && HasOrigin(s, o) && TakenFor(s, o).at < |s.history|
      && s.history[TakenFor(s, o).at] == TakenFor(s, o).snap
      && TakenFor(s, o).snap.version <= s.leader.version
      && t.leader == s.leader && t.workers.Keys == s.workers.Keys
      && t.workers[f.worker].version == Some(TakenFor(s, o).snap.version)
      && t.workers[f.worker].keys == TakenFor(s, o).snap.keys
      && (forall w :: w in s.workers && w != f.worker ==> t.workers[w] == s.workers[w])
  {
    var f := s.finishes[h];
    assert FinishOk(s, h);
    assert OpeningOk(s, f.worker, f.pc.index);
    assert SyncOk(s, s.workers[f.worker].log[f.pc.index].sync);
    var at := TakenFor(s, s.workers[f.worker].log[f.pc.index]).at;
    assert s.history[at].version <= s.leader.version by {
      if at < |s.history| - 1 {
        assert s.history[at].version <= s.history[|s.history| - 1].version;
      }
    }
  }

  /** A worker that agrees with the leader goes on agreeing through every step of anybody,
      except precisely when it installs other keys or the leader is given other ones. */
  lemma AgreementLastsIff(s0: State, trace: seq<Label>, s: State, l: Label, w: WorkerId)
    requires Reaches(s0, trace, s) && Enabled(s, l) && Agrees(s, w)
    ensures Agrees(Apply(s, l), w) <==> !InstallsOther(s, l, w) && !PutsOther(s, l)
  {
    ReachableInv(s0, trace, s);
    AgreementStays(s, l, Effect(s, l), w);
  }

  lemma AgreementStays(s: State, l: Label, t: State, w: WorkerId)
    requires Inv(s) && Enabled(s, l) && Agrees(s, w) && t == Effect(s, l)
    ensures Agrees(t, w) <==> !InstallsOther(s, l, w) && !PutsOther(s, l)
  {
    if l.Install? {
      InstallAgreement(s, l.h, w);
    } else if l.Put? {
      assert t == DoPut(s, l.appKeys);
    } else {
      QuietStep(s, l, w);
    }
  }

  lemma InstallAgreement(s: State, h: HandlerId, w: WorkerId)
    requires Inv(s) && CanInstall(s, h) && Agrees(s, w)
    ensures Agrees(DoInstall(s, h), w) <==> !InstallsOther(s, Install(h), w)
  {
    InstallMeans(s, h);
  }

  /** The keys after an installation are those of the snapshot behind it. */
  lemma InstallMeans(s: State, h: HandlerId)
    requires Inv(s) && CanInstall(s, h)
    ensures var o := s.workers[s.finishes[h].worker].log[s.finishes[h].pc.index];
      HasOrigin(s, o) && KeysAfter(s, h) == Some(TakenFor(s, o).snap.keys)
  {
    assert OpeningOk(s, s.finishes[h].worker, s.finishes[h].pc.index);
  }

  /** In terms of versions: between PUTs, a worker that got the leader's keys since the last
      one keeps that state except precisely when it installs a snapshot from before it. */
  lemma InSyncLastsIff(s0: State, trace: seq<Label>, s: State, l: Label, w: WorkerId)
    requires Reaches(s0, trace, s) && Enabled(s, l) && InSync(s, w)
    requires !l.Put?
    ensures InSync(Apply(s, l), w) <==> !InstallsStale(s, l, w)
  {
    ReachableInv(s0, trace, s);
    if l.Install? {
      InstallEffect(s, l.h);
      var f := s.finishes[l.h];
      var o := s.workers[f.worker].log[f.pc.index];
      if TakenFor(s, o).snap.version == s.leader.version {
        SnapshotOfVersion(s, TakenFor(s, o).at);
      }
    } else {
      QuietStep(s, l, w);
    }
  }

  /** Only Install writes a worker's keys, and only PUT the leader's. */
  predicate NoKeysChange(s: State, t: State, w: WorkerId) {
    && w in s.workers && w in t.workers && KeysUntouched(s, t)
    && t.workers[w].keys == s.workers[w].keys && t.workers[w].version == s.workers[w].version
  }

  lemma QuietStep(s: State, l: Label, w: WorkerId)
    requires Enabled(s, l) && w in s.workers && !l.Install? && !l.Put?
    ensures NoKeysChange(s, Effect(s, l), w)
  {
    if OfLeader(l) {
      LeaderLeaves(s, l);
    } else {
      QuietWorkerStep(s, l, w);
    }
  }

  lemma QuietWorkerStep(s: State, l: Label, w: WorkerId)
    requires !OfLeader(l) && WorkerEnabled(s, l) && w in s.workers && !l.Install?
    ensures NoKeysChange(s, WorkerEffect(s, l), w)
  {
  }

  lemma LastInstalled(s: State, w: WorkerId)
    requires Inv(s) && w in s.workers && s.workers[w].version.Some?
    ensures var x := s.workers[w];
      && x.installs != [] && x.installs[|x.installs| - 1] < |x.log|
      && HasOrigin(s, x.log[x.installs[|x.installs| - 1]])
      && TakenFor(s, x.log[x.installs[|x.installs| - 1]]).snap == Snapshot(x.version.value, x.keys)
  {
    var x := s.workers[w];
    assert InstallsOk(x, s.finishes);
    assert IsInstalled(x, x.installs[|x.installs| - 1], s.finishes);
    assert OpeningOk(s, w, x.installs[|x.installs| - 1]);
  }

  /** The handler is about to install what its worker decrypted after what it installed
      last. */
  predicate InOrder(s: State, h: HandlerId, w: WorkerId) {
    && CanInstall(s, h) && s.finishes[h].worker == w
    && var last := s.workers[w].installs; last != [] && last[|last| - 1] < s.finishes[h].pc.index
  }

  /** An installation in decryption order breaks agreement iff its keys are others, and for
      that its snapshot has to lie strictly between the worker's version and the leader's:
      the leader was given other keys and then the earlier ones again. */
  lemma InOrderInstallBreaksIff(s0: State, trace: seq<Label>, s: State, h: HandlerId, w: WorkerId)
    requires Reaches(s0, trace, s) && Agrees(s, w) && InOrder(s, h, w)
    ensures s.workers[w].version.Some? && s.workers[w].log[s.finishes[h].pc.index].plain.KeysJson?
    ensures var snap := s.workers[w].log[s.finishes[h].pc.index].plain.snap;
      !Agrees(Apply(s, Install(h)), w) <==>
        s.workers[w].version.value < snap.version < s.leader.version && snap.keys != s.leader.keys
  {
    ReachableInv(s0, trace, s);
    AgreementStays(s, Install(h), Effect(s, Install(h)), w);
    InOrderSnapshot(s, h, w);
  }

  lemma InOrderSnapshot(s: State, h: HandlerId, w: WorkerId)
    requires Inv(s) && Agrees(s, w) && InOrder(s, h, w)
    ensures s.workers[w].version.Some? && s.workers[w].log[s.finishes[h].pc.index].plain.KeysJson?
    ensures var snap := s.workers[w].log[s.finishes[h].pc.index].plain.snap;
      && KeysAfter(s, h) == Some(snap.keys)
      && (snap.keys != s.leader.keys ==> s.workers[w].version.value < snap.version < s.leader.version)
  {
    var x, i := s.workers[w], s.finishes[h].pc.index;
    assert InstallsOk(x, s.finishes);
    LastInstalled(s, w);
    assert OpeningOk(s, w, i);
    Later(s, w, x.installs[|x.installs| - 1], i);
    var a, b := x.log[x.installs[|x.installs| - 1]], x.log[i];
    assert SyncOk(s, a.sync) && SyncOk(s, b.sync);
    SameVersionSameKeys(s, TakenFor(s, a).at, TakenFor(s, b).at);
    SameVersionSameKeys(s, TakenFor(s, b).at, |s.history| - 1);
  }

  lemma SameVersionSameKeys(s: State, i: nat, j: nat)
    requires HistoryOk(s) && i <= j < |s.history|
    ensures s.history[i].version <= s.history[j].version
    ensures s.history[i].version == s.history[j].version ==> s.history[i] == s.history[j]
  {
  }

  /** So it never breaks the agreement of a worker that got the leader's keys since the last
      PUT. */
  lemma InOrderInstallsAreFresh(s0: State, trace: seq<Label>, s: State, h: HandlerId, w: WorkerId)
    requires Reaches(s0, trace, s) && InSync(s, w) && InOrder(s, h, w)
    ensures !InstallsOther(s, Install(h), w) && !InstallsStale(s, Install(h), w)
  {
    ReachableInv(s0, trace, s);
    InOrderSnapshot(s, h, w);
    InOrderIsFresh(s, h, w);
  }

  lemma InOrderIsFresh(s: State, h: HandlerId, w: WorkerId)
    requires Inv(s) && InSync(s, w) && InOrder(s, h, w)
    ensures !InstallsStale(s, Install(h), w)
  {
    LastInstalled(s, w);
    var x := s.workers[w];
    Later(s, w, x.installs[|x.installs| - 1], s.finishes[h].pc.index);
  }

  /** A call that succeeded has brought its worker into agreement, if the worker installed
      nothing after it, iff the leader's keys are still those of its snapshot. */
  lemma SuccessEstablishesAgreement(s0: State, trace: seq<Label>, s: State, sid: SyncId)
    requires Reaches(s0, trace, s) && LatestInstall(s, sid)
    ensures Agrees(s, s.syncs[sid].worker) <==> s.syncs[sid].taken.value.snap.keys == s.leader.keys
    ensures s.syncs[sid].taken.value.snap.version == s.leader.version ==> InSync(s, s.syncs[sid].worker)
  {
    ReachableInv(s0, trace, s);
    SuccessAgrees(s, sid);
  }

  /** The call succeeded, and its worker's latest installation is the one it brought. */
  predicate LatestInstall(s: State, sid: SyncId) {
    && sid in s.syncs && (s.syncs[sid].pc.Succeeded? || s.syncs[sid].pc.Registered?)
    && s.syncs[sid].taken.Some? && s.syncs[sid].pc.handler in s.finishes && s.syncs[sid].worker in s.workers
    && var x := s.workers[s.syncs[sid].worker];
       x.installs != [] && s.finishes[s.syncs[sid].pc.handler].pc == Installed(x.installs[|x.installs| - 1])
  }

  lemma SuccessAgrees(s: State, sid: SyncId)
    requires Inv(s) && LatestInstall(s, sid)
    ensures Agrees(s, s.syncs[sid].worker) <==> s.syncs[sid].taken.value.snap.keys == s.leader.keys
    ensures s.syncs[sid].taken.value.snap.version == s.leader.version ==> InSync(s, s.syncs[sid].worker)
  {
    SuccessInstalls(s, sid);
    assert SyncOk(s, sid);
    assert InstallsOk(s.workers[s.syncs[sid].worker], s.finishes);
    if s.syncs[sid].taken.value.snap.version == s.leader.version {
      SnapshotOfVersion(s, s.syncs[sid].taken.value.at);
    }
  }

  /** The hash runs over the plain concatenation, so that equal hashes mean equal keys iff
      certificate and key also have the same lengths. */
  lemma SameHashSameKeysIff(a: KeySet, b: KeySet)
    requires HashedBytes(a) == HashedBytes(b)
    ensures a == b <==> |a.nitridingCert| == |b.nitridingCert| && |a.nitridingKey| == |b.nitridingKey|
  {
    if |a.nitridingCert| == |b.nitridingCert| && |a.nitridingKey| == |b.nitridingKey| {
      var c, k := |a.nitridingCert|, |a.nitridingCert| + |a.nitridingKey|;
      assert HashedBytes(a)[..c] == a.nitridingCert && HashedBytes(b)[..c] == b.nitridingCert;
      assert HashedBytes(a)[c..k] == a.nitridingKey && HashedBytes(b)[c..k] == b.nitridingKey;
      assert HashedBytes(a)[k..] == a.appKeys && HashedBytes(b)[k..] == b.appKeys;
    }
  }

  /** What is hashed: the certificate, then the key, then the application keys. */
  lemma HashedLayout(k: KeySet)
    ensures var c, n := |k.nitridingCert|, |k.nitridingCert| + |k.nitridingKey|;
      && |HashedBytes(k)| == n + |k.appKeys|
      && HashedBytes(k)[..c] == k.nitridingCert && HashedBytes(k)[c..n] == k.nitridingKey
      && HashedBytes(k)[n..] == k.appKeys
  {
  }

  lemma DifferentKeysSameHash()
    ensures HashedBytes(KeySet([1], [], [])) == HashedBytes(KeySet([], [1], []))
    ensures KeySet([1], [], []) != KeySet([], [1], [])
  {
  }

  /** Keys are set in two critical sections, the application keys first.  Whoever looks
      between the two sees the new keys already iff the worker has the leader's nitriding
      keys, which it has from its first sync on. */
  lemma TornInstallIsInvisibleIff(s0: State, trace: seq<Label>, s: State, h: HandlerId)
    requires Reaches(s0, trace, s) && CanInstall(s, h)
    ensures KeysAfter(s, h).Some?
    ensures s.workers[s.finishes[h].worker].keys.(appKeys := KeysAfter(s, h).value.appKeys) == KeysAfter(s, h).value
            <==> HasNitridingKeys(s, s.finishes[h].worker)
    ensures s.workers[s.finishes[h].worker].version.Some? ==> HasNitridingKeys(s, s.finishes[h].worker)
  {
    ReachableInv(s0, trace, s);
    TornIsInvisibleIff(s, h);
    if s.workers[s.finishes[h].worker].version.Some? {
      SyncedHasNitridingKeys(s, s.finishes[h].worker);
    }
  }

  predicate HasNitridingKeys(s: State, w: WorkerId) {
    && w in s.workers && s.workers[w].keys.nitridingKey == s.leader.keys.nitridingKey
    && s.workers[w].keys.nitridingCert == s.leader.keys.nitridingCert
  }

  /** The keys of h's worker after h installed what it opened. */
  function KeysAfter(s: State, h: HandlerId): Option<KeySet>
    requires CanInstall(s, h)
  {
    match s.workers[s.finishes[h].worker].log[s.finishes[h].pc.index].plain
    case Garbage => None
    case KeysJson(snap) => Some(snap.keys)
  }

  lemma TornIsInvisibleIff(s: State, h: HandlerId)
    requires Inv(s) && CanInstall(s, h)
    ensures KeysAfter(s, h).Some?
    ensures s.workers[s.finishes[h].worker].keys.(appKeys := KeysAfter(s, h).value.appKeys) == KeysAfter(s, h).value
            <==> HasNitridingKeys(s, s.finishes[h].worker)
  {
    var w, i := s.finishes[h].worker, s.finishes[h].pc.index;
    assert OpeningOk(s, w, i);
    var next := s.workers[w].log[i];
    assert SyncOk(s, next.sync);
    assert s.history[TakenFor(s, next).at].keys == KeysAfter(s, h).value;
  }

  lemma SyncedHasNitridingKeys(s: State, w: WorkerId)
    requires Inv(s) && w in s.workers && s.workers[w].version.Some?
    ensures HasNitridingKeys(s, w)
  {
    LastInstalled(s, w);
    var x := s.workers[w];
    var last := x.log[x.installs[|x.installs| - 1]];
    assert SyncOk(s, last.sync);
    assert s.history[TakenFor(s, last).at].keys == x.keys;
  }

  /** A heartbeat of a worker that was synced before is answered by a new sync iff its
      keys differ from the leader's; a first registration, which carries no hash,
      always is. */
  lemma HeartbeatSyncsIffDifferent(s0: State, trace: seq<Label>, s: State,
                                   w: WorkerId, hash: Option<Bytes>, sid: SyncId, n: Nonce)
    requires Reaches(s0, trace, s) && w in s.workers && sid !in s.syncs
    requires Enabled(s, Heartbeat(w, hash, sid, n))
    requires hash == None || (s.workers[w].version.Some? && hash == Some(HashedBytes(s.workers[w].keys)))
    ensures var t := Apply(s, Heartbeat(w, hash, sid, n));
      && (sid in t.syncs <==> hash == None || s.workers[w].keys != s.leader.keys)
      && (sid in t.syncs ==> t.syncs[sid].worker == w && t.syncs[sid].pc == AwaitingDoc)
      && (sid !in t.syncs ==> t.leader.registering == s.leader.registering + multiset{w})
  {
    ReachableInv(s0, trace, s);
    ComparisonIff(s, w, hash, sid, n);
  }

  lemma ComparisonIff(s: State, w: WorkerId, hash: Option<Bytes>, sid: SyncId, n: Nonce)
    requires Inv(s) && w in s.workers && sid !in s.syncs
    requires Enabled(s, Heartbeat(w, hash, sid, n))
    requires hash == None || (s.workers[w].version.Some? && hash == Some(HashedBytes(s.workers[w].keys)))
    ensures var t := Apply(s, Heartbeat(w, hash, sid, n));
      && (sid in t.syncs <==> hash == None || s.workers[w].keys != s.leader.keys)
      && (sid in t.syncs ==> t.syncs[sid].worker == w && t.syncs[sid].pc == AwaitingDoc)
      && (sid !in t.syncs ==> t.leader.registering == s.leader.registering + multiset{w})
  {
    if hash.Some? {
      SyncedHashMeansEqual(s, w);
    }
  }

  lemma SyncedHashMeansEqual(s: State, w: WorkerId)
    requires Inv(s) && w in s.workers && s.workers[w].version.Some?
    ensures HashedBytes(s.workers[w].keys) == HashedBytes(s.leader.keys) <==> s.workers[w].keys == s.leader.keys
  {
    SyncedHasNitridingKeys(s, w);
    if HashedBytes(s.workers[w].keys) == HashedBytes(s.leader.keys) {
      SameHashSameKeysIff(s.workers[w].keys, s.leader.keys);
    }
  }

  // ------------------------------------------------------------ length budget

  /** Whatever a worker decrypts fitted into one request. */
  lemma DecryptedFits(s0: State, trace: seq<Label>, s: State, w: WorkerId, i: nat)
    requires Reaches(s0, trace, s) && w in s.workers && i < |s.workers[w].log|
    ensures var plain := s.workers[w].log[i].plain; plain.KeysJson? && Fits(s.docLen, Raw(plain.snap))
  {
    ReachableInv(s0, trace, s);
    ReachableKnown(s0, trace, s);
    OpenedFits(s, w, i);
  }

  lemma OpenedFits(s: State, w: WorkerId, i: nat)
    requires Inv(s) && BodiesOk(s) && w in s.workers && i < |s.workers[w].log|
    ensures var plain := s.workers[w].log[i].plain; plain.KeysJson? && Fits(s.docLen, Raw(plain.snap))
  {
    assert OpeningOk(s, w, i);
    var h := s.workers[w].log[i].handler;
    assert FinishOk(s, h);
    assert BodyOk(s, s.finishes[h].body);
  }

  /** A worker that was ever synced can agree with the leader only while the leader's keys
      fit into one request; so after a PUT of more than 12192 bytes none does. */
  lemma AgreementNeedsRoom(s0: State, trace: seq<Label>, s: State, w: WorkerId)
    requires Reaches(s0, trace, s) && Agrees(s, w) && s.workers[w].version.Some?
    ensures Fits(s.docLen, Raw(Snapshot(s.leader.version, s.leader.keys)))
    ensures |s.leader.keys.appKeys| <= 12192
  {
    ReachableInv(s0, trace, s);
    ReachableKnown(s0, trace, s);
    ReachableBounds(s0, trace, s);
    AgreeingFits(s, w);
    if |s.leader.keys.appKeys| > 12192 {
      LargeAppKeysCannotSync(s.docLen, Raw(Snapshot(s.leader.version, s.leader.keys)));
    }
  }

  lemma AgreeingFits(s: State, w: WorkerId)
    requires Inv(s) && BodiesOk(s) && KeysBounded(s) && Agrees(s, w) && s.workers[w].version.Some?
    ensures Fits(s.docLen, Raw(Snapshot(s.leader.version, s.leader.keys)))
  {
    LastInstalled(s, w);
    var i := s.workers[w].installs[|s.workers[w].installs| - 1];
    assert OpeningOk(s, w, i);
    OpenedFits(s, w, i);
    var at := TakenFor(s, s.workers[w].log[i]).at;
    assert SyncOk(s, s.workers[w].log[i].sync);
    assert EmptyAtFirst(s.history[at]);
    SameVersionSameKeys(s, at, |s.history| - 1);
    if s.history[at].version == 0 {
      EmptyAppKeysFitBest(s.docLen, Raw(s.history[at]));
    }
  }

  // ------------------------------------------------------------------- crashes

  /** The answer is a client's document with the nonce of the call. */
  predicate IsClientsAnswer(s: State, sid: SyncId, doc: Option<Doc>)
    requires sid in s.syncs
  {
    doc.Some? && doc.value in s.docs && doc.value.ClientDoc? && doc.value.clientNonce == s.syncs[sid].nonce
  }

  /** The leader goes down on an answer to its GET iff the answer is a client's document with
      the nonce of the call: a document of another leader cannot have that nonce. */
  lemma HearDocCrashesIff(s0: State, trace: seq<Label>, s: State, sid: SyncId, doc: Option<Doc>)
    requires Reaches(s0, trace, s) && Enabled(s, HearDoc(sid, doc))
    ensures Apply(s, HearDoc(sid, doc)).leader.crashed <==> IsClientsAnswer(s, sid, doc)
  {
    ReachableInv(s0, trace, s);
    ReachableKnown(s0, trace, s);
    HeardCrashesIff(s, sid, doc);
  }

  lemma HeardCrashesIff(s: State, sid: SyncId, doc: Option<Doc>)
    requires Inv(s) && NoncesApart(s) && Enabled(s, HearDoc(sid, doc))
    ensures Apply(s, HearDoc(sid, doc)).leader.crashed <==> IsClientsAnswer(s, sid, doc)
  {
    HearingCrashesIff(s, Effect(s, HearDoc(sid, doc)), sid, doc);
  }

  lemma HearingCrashesIff(s: State, t: State, sid: SyncId, doc: Option<Doc>)
    requires Inv(s) && NoncesApart(s) && sid in s.syncs && !s.leader.crashed && t == DoHearDoc(s, sid, doc)
    ensures t.leader.crashed <==> IsClientsAnswer(s, sid, doc)
  {
    OtherRoleCrashes(s, sid, VerifyAttstn(s.docs, doc, s.syncs[sid].nonce));
    OtherRoleIsClients(s, sid, doc);
  }

  lemma OtherRoleCrashes(s: State, sid: SyncId, aux: Aux)
    requires sid in s.syncs && !s.leader.crashed
    ensures AfterVerifying(s, sid, aux).leader.crashed <==> aux.LeaderAux?
  {
  }

  lemma OtherRoleIsClients(s: State, sid: SyncId, doc: Option<Doc>)
    requires Inv(s) && NoncesApart(s) && sid in s.syncs
    ensures VerifyAttstn(s.docs, doc, s.syncs[sid].nonce).LeaderAux? <==> IsClientsAnswer(s, sid, doc)
  {
    if doc.Some? && doc.value in s.docs && doc.value.LeaderDoc? {
      LeadersAnswerNobody(s, sid, doc.value);
    }
  }

  lemma LeadersAnswerNobody(s: State, sid: SyncId, d: Doc)
    requires Inv(s) && NoncesApart(s) && sid in s.syncs && d in s.docs && d.LeaderDoc?
    ensures d.workersNonce != s.syncs[sid].nonce
  {
    assert SyncOk(s, sid);
    assert DocOk(s, d);
    assert SyncOk(s, d.hashOfEncrypted.blob.sender);
  }
}
