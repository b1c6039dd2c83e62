/** Every step of the protocol keeps the invariant.  In all lemmas, t is the state after
    the step. */
module SyncSteps {
  import opened Common
  import opened SyncProtocol
  import opened SyncInvariant
  import opened SyncGrowth
  import opened SyncFrames

  /** Arrivals change nothing but the waiting handlers; a client's document is no one's
      business here. */
  lemma QuietKeeps(s: State, t: State)
    requires Inv(s) && t == s.(gets := t.gets, posts := t.posts, docs := t.docs, seen := t.seen, history := t.history)
    requires s.seen <= t.seen
    requires t.history == s.history + [Snapshot(s.leader.version, s.leader.keys)]
    requires s.docs <= t.docs && forall d :: d in t.docs && d !in s.docs ==> d.ClientDoc?
    ensures Inv(t)
  {
    assert Grows(s, t);
    WorkerSideStays(s, t);
    LeaderSideStays(s, t);
    DocsStay(s, t);
  }

  // ------------------------------------------------------------- initSync

  lemma PushNonceKeeps(s: State, t: State, get: Get, n: Nonce)
    requires Inv(s) && CanPushNonce(s, get, n) && t == Ticked(s, DoPushNonce(s, get, n))
    ensures Inv(t)
  {
    assert n in s.sessions ==> SessionOk(s, n);
    PushNonceGrows(s, t, get, n);
    LeaderSideStays(s, t);
    DocsStay(s, t);
    LogsStay(s, t);
    PushNonceInstallsNothing(s, t, get, n);
    NoInstall(s, t);
    PushNonceHandlers(s, t, get, n);
    PushNonceChannels(s, t, get, n);
  }

  lemma PushNonceGrows(s: State, t: State, get: Get, n: Nonce)
    requires n !in s.sessions && CanPushNonce(s, get, n) && t == Ticked(s, DoPushNonce(s, get, n))
    ensures Grows(s, t)
  {
  }

  lemma PushNonceInstallsNothing(s: State, t: State, get: Get, n: Nonce)
    requires CanPushNonce(s, get, n) && t == Ticked(s, DoPushNonce(s, get, n))
    ensures SameInstalls(s, t)
  {
  }

  lemma PushNonceHandlers(s: State, t: State, get: Get, n: Nonce)
    requires SessionsInv(s) && FinishesInv(s) && n !in s.sessions && Grows(s, t)
    requires CanPushNonce(s, get, n) && t == Ticked(s, DoPushNonce(s, get, n))
    ensures SessionsInv(t) && FinishesInv(t)
  {
    forall m | m in t.sessions ensures SessionOk(t, m) {
      if m != n { SessionStays(s, t, m); }
    }
    forall h | h in t.finishes ensures FinishOk(t, h) {
      FinishStays(s, t, h);
    }
  }

  lemma PushNonceChannels(s: State, t: State, get: Get, n: Nonce)
    requires ChannelsInv(s) && OrderInv(s) && n !in s.sessions && Grows(s, t)
    requires CanPushNonce(s, get, n) && t == Ticked(s, DoPushNonce(s, get, n))
    ensures ChannelsInv(t) && OrderInv(t)
  {
    forall w | w in t.workers
      ensures NonceChOk(t.sessions, w, t.workers[w]) && KeyChOk(t.sessions, t.boxKeys, w, t.workers[w])
      ensures LogOrdered(t.sessions, t.workers[w].log) && WaitsAfter(t.sessions, w, t.workers[w].log)
    {
      assert NonceChOk(s.sessions, w, s.workers[w]) && KeyChOk(s.sessions, s.boxKeys, w, s.workers[w]);
      OrderStays(s, t, w);
    }
  }

  lemma AbortKeeps(s: State, t: State, n: Nonce, pc: InitPc)
    requires Inv(s) && CanAbort(s, n, pc) && t == Ticked(s, DoAbort(s, n))
    ensures Inv(t)
  {
    assert SessionOk(s, n);
    AbortGrows(s, t, n);
    assert SessionOk(t, n);
    DocChange(s, t, n);
    LeaderSideStays(s, t);
    DocsStay(s, t);
  }

  lemma AbortGrows(s: State, t: State, n: Nonce)
    requires n in s.sessions && t == Ticked(s, DoAbort(s, n))
    ensures Grows(s, t)
  {
  }

  lemma AnswerGetKeeps(s: State, t: State, n: Nonce)
    requires Inv(s) && CanAnswerGet(s, n) && t == Ticked(s, DoAnswerGet(s, n))
    ensures Inv(t)
  {
    assert SessionOk(s, n);
    AnswerGetGrows(s, t, n);
    DocChange(s, t, n);
    LeaderSideStays(s, t);
    DocsStay(s, t);
  }

  lemma AnswerGetGrows(s: State, t: State, n: Nonce)
    requires CanAnswerGet(s, n) && SessionOk(s, n) && t == Ticked(s, DoAnswerGet(s, n))
    ensures Grows(s, t) && SessionOk(t, n)
  {
  }

  lemma PushKeyKeeps(s: State, t: State, n: Nonce, k: BoxKey)
    requires Inv(s) && CanPushKey(s, n, k) && t == Ticked(s, DoPushKey(s, n, k))
    ensures Inv(t)
  {
    assert SessionOk(s, n);
    PushKeyGrows(s, t, n, k);
    LeaderSideStays(s, t);
    DocsStay(s, t);
    LogsStay(s, t);
    PushKeyInstallsNothing(s, t, n, k);
    NoInstall(s, t);
    PushKeyHandlers(s, t, n, k);
    PushKeyChannels(s, t, n, k);
  }

  lemma PushKeyGrows(s: State, t: State, n: Nonce, k: BoxKey)
    requires CanPushKey(s, n, k) && SessionOk(s, n) && t == Ticked(s, DoPushKey(s, n, k))
    ensures Grows(s, t)
  {
  }

  lemma PushKeyInstallsNothing(s: State, t: State, n: Nonce, k: BoxKey)
    requires CanPushKey(s, n, k) && t == Ticked(s, DoPushKey(s, n, k))
    ensures SameInstalls(s, t)
  {
  }

  lemma PushKeyHandlers(s: State, t: State, n: Nonce, k: BoxKey)
    requires SessionsInv(s) && FinishesInv(s) && Grows(s, t)
    requires CanPushKey(s, n, k) && t == Ticked(s, DoPushKey(s, n, k))
    ensures SessionsInv(t) && FinishesInv(t)
  {
    assert SessionOk(s, n);
    forall m | m in t.sessions ensures SessionOk(t, m) {
      assert SessionOk(s, m);
      if m != n { SessionStays(s, t, m); }
    }
    forall h | h in t.finishes ensures FinishOk(t, h) {
      assert FinishOk(s, h);
      FinishStays(s, t, h);
    }
  }

  lemma PushKeyChannels(s: State, t: State, n: Nonce, k: BoxKey)
    requires SessionsInv(s) && ChannelsInv(s) && OrderInv(s) && LogsInv(s) && Grows(s, t)
    requires CanPushKey(s, n, k) && t == Ticked(s, DoPushKey(s, n, k))
    ensures ChannelsInv(t) && OrderInv(t)
  {
    assert SessionOk(s, n);
    forall w | w in t.workers
      ensures NonceChOk(t.sessions, w, t.workers[w]) && KeyChOk(t.sessions, t.boxKeys, w, t.workers[w])
      ensures LogOrdered(t.sessions, t.workers[w].log) && WaitsAfter(t.sessions, w, t.workers[w].log)
    {
      assert NonceChOk(s.sessions, w, s.workers[w]) && KeyChOk(s.sessions, s.boxKeys, w, s.workers[w]);
      if w != s.sessions[n].worker {
        OrderStays(s, t, w);
      } else {
        PushKeyOrder(s, t, n, k);
      }
    }
  }

  /** The channel was empty, so no other key of this worker waits; the new key comes
      after everything that was opened so far. */
  lemma PushKeyOrder(s: State, t: State, n: Nonce, k: BoxKey)
    requires SessionsInv(s) && OrderInv(s) && LogsInv(s) && Grows(s, t)
    requires CanPushKey(s, n, k) && t == Ticked(s, DoPushKey(s, n, k))
    ensures var w := s.sessions[n].worker;
      LogOrdered(t.sessions, t.workers[w].log) && WaitsAfter(t.sessions, w, t.workers[w].log)
  {
    var w := s.sessions[n].worker;
    var log := s.workers[w].log;
    assert LogOrdered(s.sessions, log);
    forall i, j | 0 <= i < j < |log| ensures PushedAfter(t.sessions, log[i], log[j]) {
      assert PushedAfter(s.sessions, log[i], log[j]);
      assert SessionGrows(s.sessions[log[j].nonce], t.sessions[log[j].nonce]);
    }
    forall m, i | m in t.sessions && KeyWaits(t.sessions[m], w) && 0 <= i < |log|
      ensures log[i].at < t.sessions[m].pushedAt
    {
      assert SessionOk(s, m);
      assert OpeningOk(s, w, i);
    }
  }

  // ------------------------------------------------------------ finishSync

  lemma TakeNonceKeeps(s: State, t: State, post: Post, h: HandlerId)
    requires Inv(s) && CanTakeNonce(s, post, h) && t == Ticked(s, DoTakeNonce(s, post, h))
    ensures Inv(t)
  {
    assert NonceChOk(s.sessions, post.worker, s.workers[post.worker]);
    TakeNonceGrows(s, t, post, h);
    LeaderSideStays(s, t);
    DocsStay(s, t);
    LogsStay(s, t);
    TakeNonceInstallsNothing(s, t, post, h);
    NoInstall(s, t);
    TakeNonceHandlers(s, t, post, h);
    TakeNonceChannels(s, t, post, h);
  }

  lemma TakeNonceGrows(s: State, t: State, post: Post, h: HandlerId)
    requires CanTakeNonce(s, post, h) && t == Ticked(s, DoTakeNonce(s, post, h))
    requires NonceChOk(s.sessions, post.worker, s.workers[post.worker])
    ensures Grows(s, t)
  {
  }

  lemma TakeNonceInstallsNothing(s: State, t: State, post: Post, h: HandlerId)
    requires CanTakeNonce(s, post, h) && t == Ticked(s, DoTakeNonce(s, post, h))
    ensures SameInstalls(s, t)
  {
  }

  lemma TakeNonceHandlers(s: State, t: State, post: Post, h: HandlerId)
    requires SessionsInv(s) && FinishesInv(s) && Grows(s, t)
    requires CanTakeNonce(s, post, h) && t == Ticked(s, DoTakeNonce(s, post, h))
    requires NonceChOk(s.sessions, post.worker, s.workers[post.worker])
    ensures SessionsInv(t) && FinishesInv(t)
  {
    var n := s.workers[post.worker].nonceCh.value;
    assert SessionOk(s, n);
    TakeNonceNew(s, t, post, h);
    forall m | m in t.sessions ensures SessionOk(t, m) {
      if m != n { SessionStays(s, t, m); }
    }
    forall g | g in t.finishes ensures FinishOk(t, g) {
      if g != h {
        assert FinishOk(s, g);
        FinishStays(s, t, g);
      }
    }
  }

  lemma TakeNonceNew(s: State, t: State, post: Post, h: HandlerId)
    requires CanTakeNonce(s, post, h) && t == Ticked(s, DoTakeNonce(s, post, h))
    requires NonceChOk(s.sessions, post.worker, s.workers[post.worker])
    requires SessionOk(s, s.workers[post.worker].nonceCh.value)
    ensures var n := s.workers[post.worker].nonceCh.value;
      && n in t.sessions && h in t.finishes && SessionOk(t, n) && FinishOk(t, h)
      && (forall m :: m in t.sessions && m != n ==> m in s.sessions && t.sessions[m] == s.sessions[m])
      && (forall g :: g in t.finishes && g != h ==> g in s.finishes && t.finishes[g] == s.finishes[g])
      && (forall m :: m in s.sessions ==> t.sessions[m].poppedAt == s.sessions[m].poppedAt)
      && (forall w :: w in s.workers ==> w in t.workers && t.workers[w].keyCh == s.workers[w].keyCh)
  {
  }

  lemma TakeNonceChannels(s: State, t: State, post: Post, h: HandlerId)
    requires ChannelsInv(s) && OrderInv(s) && Grows(s, t)
    requires CanTakeNonce(s, post, h) && t == Ticked(s, DoTakeNonce(s, post, h))
    ensures ChannelsInv(t) && OrderInv(t)
  {
    assert NonceChOk(s.sessions, post.worker, s.workers[post.worker]);
    forall w | w in t.workers
      ensures NonceChOk(t.sessions, w, t.workers[w]) && KeyChOk(t.sessions, t.boxKeys, w, t.workers[w])
      ensures LogOrdered(t.sessions, t.workers[w].log) && WaitsAfter(t.sessions, w, t.workers[w].log)
    {
      assert NonceChOk(s.sessions, w, s.workers[w]) && KeyChOk(s.sessions, s.boxKeys, w, s.workers[w]);
      OrderStays(s, t, w);
    }
  }

  lemma VerifyPostKeeps(s: State, t: State, h: HandlerId, fails: bool)
    requires Inv(s) && CanVerifyPost(s, h) && t == Ticked(s, DoVerifyPost(s, h, fails))
    ensures Inv(t)
  {
    assert FinishOk(s, h);
    assert Grows(s, t);
    LeaderSideStays(s, t);
    DocsStay(s, t);
    LogsStay(s, t);
    VerifyPostInstallsNothing(s, t, h, fails);
    NoInstall(s, t);
    VerifyPostHandlers(s, t, h, fails);
    SameChannels(s, t);
  }

  lemma VerifyPostInstallsNothing(s: State, t: State, h: HandlerId, fails: bool)
    requires CanVerifyPost(s, h) && t == Ticked(s, DoVerifyPost(s, h, fails))
    ensures SameInstalls(s, t)
  {
  }

  lemma VerifyPostHandlers(s: State, t: State, h: HandlerId, fails: bool)
    requires SessionsInv(s) && FinishesInv(s) && Grows(s, t)
    requires CanVerifyPost(s, h) && t == Ticked(s, DoVerifyPost(s, h, fails))
    ensures SessionsInv(t) && FinishesInv(t)
  {
    assert FinishOk(s, h);
    forall m | m in t.sessions ensures SessionOk(t, m) {
      SessionStays(s, t, m);
    }
    forall g | g in t.finishes ensures FinishOk(t, g) {
      if g != h {
        FinishStays(s, t, g);
      }
    }
  }

  /** What a passing handler does to the state: it takes its own session's key. */
  predicate PopsOwnKey(s: State, t: State, h: HandlerId, o: Opening) {
    && h in s.finishes && s.finishes[h].nonce in s.sessions && s.finishes[h].worker in s.workers
    && s.finishes[h].pc == Passed
    && var f := s.finishes[h]; var x := s.workers[f.worker];
    && t == Ticked(s, s.(
              sessions := s.sessions[f.nonce := s.sessions[f.nonce].(poppedAt := Some(Now(s)))],
              workers := s.workers[f.worker := x.(keyCh := None, log := x.log + [o])],
              finishes := s.finishes[h := f.(pc := Opened(|x.log|))]))
    && o.handler == h && o.nonce == f.nonce && o.at == Now(s)
    && KeyWaits(s.sessions[f.nonce], f.worker) && x.keyCh == s.sessions[f.nonce].key
  }

  lemma PopKeyShape(s: State, t: State, h: HandlerId) returns (o: Opening)
    requires Inv(s) && CanPopKey(s, h) && t == Ticked(s, DoPopKey(s, h))
    ensures PopsOwnKey(s, t, h, o)
    ensures var b := s.finishes[h].body.blob.value; b.Sealed? && o.sync == b.sender && o.plain == b.plain
  {
    PassedHasKey(s, h);
    assert FinishOk(s, h);
    var b := s.finishes[h].body.blob.value;
    o := Opening(h, s.finishes[h].nonce, b.sender, b.plain, Now(s));
  }

  lemma PopKeyKeeps(s: State, t: State, h: HandlerId)
    requires Inv(s) && CanPopKey(s, h) && t == Ticked(s, DoPopKey(s, h))
    ensures Inv(t)
  {
    var o := PopKeyShape(s, t, h);
    PopKeyGrows(s, t, h, o);
    LeaderSideStays(s, t);
    DocsStay(s, t);
    PopKeyInstallsNothing(s, t, h, o);
    NoInstall(s, t);
    PopKeyHandlers(s, t, h, o);
    PopKeyLogs(s, t, h, o);
    PopKeyChannels(s, t, h, o);
  }

  lemma PopKeyGrows(s: State, t: State, h: HandlerId, o: Opening)
    requires PopsOwnKey(s, t, h, o)
    ensures Grows(s, t)
  {
  }

  lemma PopKeyInstallsNothing(s: State, t: State, h: HandlerId, o: Opening)
    requires PopsOwnKey(s, t, h, o)
    ensures SameInstalls(s, t)
  {
  }

  lemma PopKeyHandlers(s: State, t: State, h: HandlerId, o: Opening)
    requires SessionsInv(s) && FinishesInv(s) && Grows(s, t) && PopsOwnKey(s, t, h, o)
    ensures SessionsInv(t) && FinishesInv(t)
  {
    var n := s.finishes[h].nonce;
    assert FinishOk(s, h);
    assert SessionOk(s, n);
    PopKeyOwn(s, t, h, o);
    forall m | m in t.sessions ensures SessionOk(t, m) {
      assert SessionOk(s, m);
      if m != n { SessionStays(s, t, m); }
    }
    forall g | g in t.finishes ensures FinishOk(t, g) {
      assert FinishOk(s, g);
      if g != h {
        FinishStays(s, t, g);
      }
    }
  }

  lemma PopKeyOwn(s: State, t: State, h: HandlerId, o: Opening)
    requires PopsOwnKey(s, t, h, o) && SessionOk(s, s.finishes[h].nonce) && FinishOk(s, h)
    ensures SessionOk(t, s.finishes[h].nonce) && FinishOk(t, h)
    ensures forall m :: m in t.sessions && m != s.finishes[h].nonce ==> m in s.sessions && t.sessions[m] == s.sessions[m]
    ensures forall g :: g in t.finishes && g != h ==> g in s.finishes && t.finishes[g] == s.finishes[g]
    ensures forall w :: w in s.workers && w != s.finishes[h].worker ==> w in t.workers && t.workers[w] == s.workers[w]
    ensures forall w :: w in s.workers ==>
      && w in t.workers
      && t.workers[w].installs == s.workers[w].installs && t.workers[w].keys == s.workers[w].keys
      && t.workers[w].version == s.workers[w].version
  {
  }

  lemma PopKeyLogs(s: State, t: State, h: HandlerId, o: Opening)
    requires Inv(s) && Grows(s, t) && PopsOwnKey(s, t, h, o)
    requires var b := s.finishes[h].body.blob;
      b.Some? && b.value.Sealed? && o.sync == b.value.sender && o.plain == b.value.plain
    ensures LogsInv(t)
  {
    assert FinishOk(s, h);
    CertifiedMeans(s, h);
    PopKeyOpening(s, t, h, o);
    LogsStay(s, t);
    PopKeyLog(s, t, h, o);
  }

  /** The new entry of the log. */
  lemma PopKeyOpening(s: State, t: State, h: HandlerId, o: Opening)
    requires PopsOwnKey(s, t, h, o) && FinishOk(s, h) && o.sync in s.syncs
    requires var y := s.syncs[o.sync];
      && y.heard.Some? && y.taken.Some? && s.finishes[h].body.blob == Some(BlobOf(o.sync, y))
      && y.heard.value.workersNonce == o.nonce && o.plain == KeysJson(y.taken.value.snap)
      && y.taken.value.at < Now(s)
    ensures var w := s.finishes[h].worker;
      w in t.workers && |s.workers[w].log| < |t.workers[w].log| && OpeningOk(t, w, |s.workers[w].log|)
  {
  }

  lemma PopKeyLog(s: State, t: State, h: HandlerId, o: Opening)
    requires PopsOwnKey(s, t, h, o) && s.finishes[h].worker in t.workers
    requires forall w, i :: w in s.workers && w in t.workers && 0 <= i < |s.workers[w].log| <= |t.workers[w].log| ==>
               OpeningOk(t, w, i)
    requires var w := s.finishes[h].worker;
      |s.workers[w].log| < |t.workers[w].log| && OpeningOk(t, w, |s.workers[w].log|)
    ensures LogsInv(t)
  {
    forall w, i | w in t.workers && 0 <= i < |t.workers[w].log| ensures OpeningOk(t, w, i) {
      if i == |s.workers[w].log| {
        assert w == s.finishes[h].worker;
      }
    }
  }

  lemma PopKeyChannels(s: State, t: State, h: HandlerId, o: Opening)
    requires SessionsInv(s) && ChannelsInv(s) && OrderInv(s) && Grows(s, t) && PopsOwnKey(s, t, h, o)
    ensures ChannelsInv(t) && OrderInv(t)
  {
    forall w | w in t.workers
      ensures NonceChOk(t.sessions, w, t.workers[w]) && KeyChOk(t.sessions, t.boxKeys, w, t.workers[w])
      ensures LogOrdered(t.sessions, t.workers[w].log) && WaitsAfter(t.sessions, w, t.workers[w].log)
    {
      assert NonceChOk(s.sessions, w, s.workers[w]) && KeyChOk(s.sessions, s.boxKeys, w, s.workers[w]);
      if w != s.finishes[h].worker {
        OrderStays(s, t, w);
      } else {
        PopKeyOrder(s, t, h, o);
      }
    }
  }

  /** The popped key was the only one that waited, and it came after everything that
      was opened before. */
  lemma PopKeyOrder(s: State, t: State, h: HandlerId, o: Opening)
    requires SessionsInv(s) && OrderInv(s) && PopsOwnKey(s, t, h, o)
    ensures var w := s.finishes[h].worker;
      LogOrdered(t.sessions, t.workers[w].log) && WaitsAfter(t.sessions, w, t.workers[w].log)
  {
    var w := s.finishes[h].worker;
    var n := s.finishes[h].nonce;
    assert SessionOk(s, n);
    var log := s.workers[w].log;
    assert LogOrdered(s.sessions, log) && WaitsAfter(s.sessions, w, log);
    LogExtends(s.sessions, t.sessions, log, o);
    forall m | m in t.sessions ensures !KeyWaits(t.sessions[m], w) {
      assert SessionOk(s, m);
    }
  }

  lemma LogExtends(a: map<Nonce, Session>, b: map<Nonce, Session>, log: seq<Opening>, o: Opening)
    requires LogOrdered(a, log)
    requires forall n :: n in a ==> n in b && b[n].key == a[n].key && b[n].pushedAt == a[n].pushedAt
    requires o.nonce in a && a[o.nonce].key.Some?
    requires forall i :: 0 <= i < |log| ==> log[i].at < a[o.nonce].pushedAt
    ensures LogOrdered(b, log + [o])
  {
    var more := log + [o];
    forall i, j | 0 <= i < j < |more| ensures PushedAfter(b, more[i], more[j]) {
      if j < |log| { assert PushedAfter(a, log[i], log[j]); }
    }
  }

  /** What installing does to the state. */
  predicate InstallsKeys(s: State, t: State, h: HandlerId, snap: Snapshot) {
    && CanInstall(s, h)
    && s.workers[s.finishes[h].worker].log[s.finishes[h].pc.index].plain == KeysJson(snap)
    && t == Ticked(s, InstallKeys(s, h, snap))
  }

  lemma InstallKeeps(s: State, t: State, h: HandlerId)
    requires Inv(s) && CanInstall(s, h) && t == Ticked(s, DoInstall(s, h))
    ensures Inv(t)
  {
    var f := s.finishes[h];
    assert OpeningOk(s, f.worker, f.pc.index);
    var snap := s.workers[f.worker].log[f.pc.index].plain.snap;
    assert InstallsKeys(s, t, h, snap);
    InstallGrows(s, t, h, snap);
    LeaderSideStays(s, t);
    DocsStay(s, t);
    LogsStay(s, t);
    SameChannels(s, t);
    InstallHandlers(s, t, h, snap);
    InstallInstalls(s, t, h, snap);
  }

  lemma InstallGrows(s: State, t: State, h: HandlerId, snap: Snapshot)
    requires InstallsKeys(s, t, h, snap)
    ensures Grows(s, t)
    ensures forall w :: w in s.workers ==>
      && t.workers[w].nonceCh == s.workers[w].nonceCh && t.workers[w].keyCh == s.workers[w].keyCh
      && t.workers[w].log == s.workers[w].log
  {
  }

  lemma InstallHandlers(s: State, t: State, h: HandlerId, snap: Snapshot)
    requires SessionsInv(s) && FinishesInv(s) && Grows(s, t) && InstallsKeys(s, t, h, snap)
    ensures SessionsInv(t) && FinishesInv(t)
  {
    assert FinishOk(s, h);
    forall m | m in t.sessions ensures SessionOk(t, m) {
      SessionStays(s, t, m);
    }
    forall g | g in t.finishes ensures FinishOk(t, g) {
      if g != h {
        assert FinishOk(s, g);
        FinishStays(s, t, g);
      }
    }
  }

  lemma InstallInstalls(s: State, t: State, h: HandlerId, snap: Snapshot)
    requires InstallsInv(s) && FinishesInv(s) && LogsInv(s) && Grows(s, t) && InstallsKeys(s, t, h, snap)
    ensures InstallsInv(t)
  {
    var f := s.finishes[h];
    forall w | w in t.workers ensures InstallsOk(t.workers[w], t.finishes) {
      assert InstallsOk(s.workers[w], s.finishes);
      if w != f.worker { InstallsStay(s, t, w); } else { InstallAppends(s, t, h, snap); }
    }
  }

  lemma InstallAppends(s: State, t: State, h: HandlerId, snap: Snapshot)
    requires FinishesInv(s) && LogsInv(s) && InstallsKeys(s, t, h, snap)
    requires InstallsOk(s.workers[s.finishes[h].worker], s.finishes)
    ensures InstallsOk(t.workers[s.finishes[h].worker], t.finishes)
  {
    var f := s.finishes[h];
    var x, x' := s.workers[f.worker], t.workers[f.worker];
    assert FinishOk(s, h);
    assert OpeningOk(s, f.worker, f.pc.index);
    forall k | 0 <= k < |x'.installs| ensures IsInstalled(x', x'.installs[k], t.finishes) {
      if k < |x.installs| {
        assert IsInstalled(x, x.installs[k], s.finishes);
        assert OpeningOk(s, f.worker, x.installs[k]);
      }
    }
    forall k | 0 <= k < |x.installs| ensures x.installs[k] != f.pc.index {
      assert IsInstalled(x, x.installs[k], s.finishes);
    }
  }

  // --------------------------------------------------------------- leader

  lemma PutKeeps(s: State, t: State, appKeys: Bytes)
    requires Inv(s) && t == Ticked(s, DoPut(s, appKeys))
    ensures Inv(t)
  {
    assert Grows(s, t);
    WorkerSideStays(s, t);
    DocsStay(s, t);
    HistoryGrows(s, t);
    FanOutStays(s, t);
    SyncsStay(s, t);
  }

  lemma SyncsStay(s: State, t: State)
    requires SyncsInv(s) && Grows(s, t) && t.syncs == s.syncs
    ensures SyncsInv(t)
  {
    forall k | k in t.syncs ensures SyncOk(t, k) {
      SyncStays(s, t, k);
    }
  }

  /** The event loop moves on: only the registry and the state of the loop change. */
  lemma LoopKeeps(s: State, t: State)
    requires Inv(s) && t == Ticked(s, s.(leader := t.leader))
    requires t.leader.keys == s.leader.keys && t.leader.version == s.leader.version && LeaderOk(t)
    ensures Inv(t)
  {
    assert Grows(s, t);
    WorkerSideStays(s, t);
    DocsStay(s, t);
    HistoryGrows(s, t);
    SyncsStay(s, t);
  }

  lemma DispatchOk(s: State, t: State, v: nat)
    requires LeaderOk(s) && CanDispatch(s, v) && t == Ticked(s, DoDispatch(s, v))
    ensures LeaderOk(t)
  {
    assert forall w :: (v, w) !in s.calls;
  }

  lemma SpawnSyncKeeps(s: State, t: State, w: WorkerId, sid: SyncId, n: Nonce)
    requires Inv(s) && CanSpawnSync(s, w, sid, n) && t == Ticked(s, DoSpawnSync(s, w, sid, n))
    ensures Inv(t)
  {
    SpawnSyncGrows(s, t, w, sid, n);
    SpawnSyncNew(s, t, w, sid, n);
    SpawnSyncTargets(s, t, w, sid, n);
    WorkerSideStays(s, t);
    DocsStay(s, t);
    HistoryGrows(s, t);
    SyncChange(s, t, sid);
  }

  lemma SpawnSyncGrows(s: State, t: State, w: WorkerId, sid: SyncId, n: Nonce)
    requires CanSpawnSync(s, w, sid, n) && t == Ticked(s, DoSpawnSync(s, w, sid, n))
    requires n !in s.syncOf && (s.leader.loop.version, w) !in s.calls
    ensures Grows(s, t)
  {
  }

  lemma SpawnSyncNew(s: State, t: State, w: WorkerId, sid: SyncId, n: Nonce)
    requires LeaderOk(s) && CanSpawnSync(s, w, sid, n) && t == Ticked(s, DoSpawnSync(s, w, sid, n))
    ensures sid in t.syncs && SyncOk(t, sid)
  {
  }

  lemma SpawnSyncTargets(s: State, t: State, w: WorkerId, sid: SyncId, n: Nonce)
    requires LeaderOk(s) && CanSpawnSync(s, w, sid, n) && t == Ticked(s, DoSpawnSync(s, w, sid, n))
    ensures LeaderOk(t)
  {
  }

  lemma HeartbeatKeeps(s: State, t: State, w: WorkerId, sid: SyncId, n: Nonce)
    requires Inv(s) && w in s.workers && sid !in s.syncs && Fresh(s, n)
    requires t == Ticked(s, Start(s, w, FromHeartbeat, sid, n))
    ensures Inv(t)
  {
    HeartbeatGrows(s, t, w, sid, n);
    WorkerSideStays(s, t);
    DocsStay(s, t);
    HistoryGrows(s, t);
    FanOutStays(s, t);
    SyncChange(s, t, sid);
  }

  lemma HeartbeatGrows(s: State, t: State, w: WorkerId, sid: SyncId, n: Nonce)
    requires LeaderOk(s) && w in s.workers && sid !in s.syncs && Fresh(s, n)
    requires t == Ticked(s, Start(s, w, FromHeartbeat, sid, n))
    ensures Grows(s, t) && SyncOk(t, sid)
  {
  }

  lemma HearDocKeeps(s: State, t: State, sid: SyncId, doc: Option<Doc>)
    requires Inv(s) && At(s, sid, AwaitingDoc) && t == Ticked(s, DoHearDoc(s, sid, doc))
    ensures Inv(t)
  {
    var y := s.syncs[sid];
    var aux := VerifyAttstn(s.docs, doc, y.nonce);
    if aux.LeaderAux? {
      CrashKeeps(s, t);
    } else if aux.Rejected? {
      FailKeeps(s, t, sid);
    } else {
      HeardKeeps(s, t, sid, aux.workersNonce, aux.publicKey);
    }
  }

  lemma CrashKeeps(s: State, t: State)
    requires Inv(s) && t == Ticked(s, s.(leader := s.leader.(crashed := true)))
    ensures Inv(t)
  {
    assert LeaderOk(t);
    LoopKeeps(s, t);
  }

  lemma FailKeeps(s: State, t: State, sid: SyncId)
    requires Inv(s) && sid in s.syncs && t == Ticked(s, MoveSync(s, sid, Failed))
    ensures Inv(t)
  {
    MoveKeeps(s, t, sid, Failed);
  }

  lemma HeardKeeps(s: State, t: State, sid: SyncId, wn: Nonce, pk: BoxKey)
    requires Inv(s) && At(s, sid, AwaitingDoc) && WorkerDoc(wn, s.syncs[sid].nonce, pk) in s.docs
    requires t == Ticked(s, WithSync(s, sid, s.syncs[sid].(pc := Verified, heard := Some(Heard(wn, pk)))))
    ensures Inv(t)
  {
    assert SyncOk(s, sid);
    assert DocOk(s, WorkerDoc(wn, s.syncs[sid].nonce, pk));
    assert SyncFrame(s, t, sid);
    assert SyncOk(t, sid);
    SyncStepKeeps(s, t, sid);
  }

  lemma TakeSnapshotKeeps(s: State, t: State, sid: SyncId)
    requires Inv(s) && At(s, sid, Verified) && t == Ticked(s, DoTakeSnapshot(s, sid))
    ensures Inv(t)
  {
    assert SyncOk(s, sid);
    assert SessionOk(s, s.syncs[sid].heard.value.workersNonce);
    TakeSnapshotSync(s, t, sid);
    SyncStepKeeps(s, t, sid);
  }

  lemma TakeSnapshotSync(s: State, t: State, sid: SyncId)
    requires At(s, sid, Verified) && SyncOk(s, sid) && t == Ticked(s, DoTakeSnapshot(s, sid))
    requires s.syncs[sid].heard.Some? && s.syncs[sid].heard.value.workersNonce in s.sessions
    requires SessionOk(s, s.syncs[sid].heard.value.workersNonce)
    ensures SyncFrame(s, t, sid) && SyncOk(t, sid)
  {
  }

  lemma PostKeysKeeps(s: State, t: State, sid: SyncId)
    requires Inv(s) && CanPostKeys(s, sid) && t == Ticked(s, DoPostKeys(s, sid))
    ensures Inv(t)
  {
    assert SyncOk(s, sid);
    PostKeysSync(s, t, sid);
    SyncStepKeeps(s, t, sid);
  }

  lemma PostKeysSync(s: State, t: State, sid: SyncId)
    requires CanPostKeys(s, sid) && SyncOk(s, sid) && t == Ticked(s, DoPostKeys(s, sid))
    ensures SyncFrame(s, t, sid) && SyncOk(t, sid)
    ensures forall d :: d in t.docs ==> d in s.docs || DocOk(t, d)
  {
  }

  /** A call moves on to a statement that demands nothing new. */
  lemma MoveKeeps(s: State, t: State, sid: SyncId, pc: SyncPc)
    requires Inv(s) && sid in s.syncs
    requires t == Ticked(s, WithRegistry(MoveSync(s, sid, pc), t.leader.registry))
    requires t.leader.registry <= t.workers.Keys
    requires && !pc.Verified? && !pc.Snapped? && !pc.Posted? && !pc.AwaitingDoc?
             && (pc.Succeeded? || pc.Registered? ==> AnsweredBy(s, sid, pc.handler))
             && (s.syncs[sid].origin.FromPut? ==> !pc.Registered?)
             && (s.syncs[sid].origin.FromHeartbeat? ==> !pc.Unregistered?)
    ensures Inv(t)
  {
    assert SyncOk(s, sid);
    assert SyncFrame(s, t, sid);
    SyncFrameGrows(s, t, sid);
    TakenGrows(s, t, sid);
    if pc.Succeeded? || pc.Registered? { AnsweredGrows(s, t, sid, pc.handler); }
    assert SyncOk(t, sid);
    SyncStepKeeps(s, t, sid);
  }

  // -------------------------------------------------------------- all steps

  lemma RequestStepKeeps(s: State, t: State, l: Label)
    requires Inv(s) && OfRequest(l) && WorkerEnabled(s, l) && t == Ticked(s, WorkerEffect(s, l))
    ensures Inv(t)
  {
    QuietKeeps(s, t);
  }

  lemma InitStepKeeps(s: State, t: State, l: Label)
    requires Inv(s) && OfInit(l) && WorkerEnabled(s, l) && t == Ticked(s, WorkerEffect(s, l))
    ensures Inv(t)
  {
    match l {
      case PushNonce(get, n) => PushNonceKeeps(s, t, get, n);
      case BoxKeyFails(n) => AbortKeeps(s, t, n, NoncePushed);
      case AttstnFails(n) => AbortKeeps(s, t, n, KeyPushed);
      case PushKey(n, k) => PushKeyKeeps(s, t, n, k);
      case AnswerGet(n) => AnswerGetKeeps(s, t, n);
    }
  }

  lemma FinishStepKeeps(s: State, t: State, l: Label)
    requires Inv(s) && OfFinish(l) && WorkerEnabled(s, l) && t == Ticked(s, WorkerEffect(s, l))
    ensures Inv(t)
  {
    match l {
      case TakeNonce(post, h) => TakeNonceKeeps(s, t, post, h);
      case VerifyPost(h, fails) => VerifyPostKeeps(s, t, h, fails);
      case PopKey(h) => PopKeyKeeps(s, t, h);
      case Install(h) => InstallKeeps(s, t, h);
    }
  }

  lemma WorkerStepKeeps(s: State, l: Label)
    requires Inv(s) && !OfLeader(l) && WorkerEnabled(s, l)
    ensures Inv(Ticked(s, WorkerEffect(s, l)))
  {
    var t := Ticked(s, WorkerEffect(s, l));
    if OfRequest(l) {
      RequestStepKeeps(s, t, l);
    } else if OfInit(l) {
      InitStepKeeps(s, t, l);
    } else {
      FinishStepKeeps(s, t, l);
    }
  }

  lemma LoopStepKeeps(s: State, t: State, l: Label)
    requires Inv(s) && OfLoop(l) && LeaderEnabled(s, l) && t == Ticked(s, LeaderEffect(s, l))
    ensures Inv(t)
  {
    match l {
      case Put(appKeys) => PutKeeps(s, t, appKeys);
      case Dispatch(v) => DispatchOk(s, t, v); LoopKeeps(s, t);
      case DispatchDone => LoopKeeps(s, t);
      case Prune(w) => RegistryKeeps(s, t);
      case Register(w) => RegistryKeeps(s, t);
      case SpawnSync(w, sid, n) => SpawnSyncKeeps(s, t, w, sid, n);
      case Heartbeat(w, hash, sid, n) => AnyHeartbeatKeeps(s, t, w, hash, sid, n);
    }
  }

  /** Only the registry and the handlers that wait for it change. */
  lemma RegistryKeeps(s: State, t: State)
    requires Inv(s)
    requires t == Ticked(s, s.(leader := s.leader.(registry := t.leader.registry, registering := t.leader.registering)))
    requires t.leader.registry <= s.workers.Keys && forall w :: w in t.leader.registering ==> w in s.workers
    ensures Inv(t)
  {
    assert LeaderOk(t);
    LoopKeeps(s, t);
  }

  lemma AnyHeartbeatKeeps(s: State, t: State, w: WorkerId, hash: Option<Bytes>, sid: SyncId, n: Nonce)
    requires Inv(s) && CanHeartbeat(s, w, hash, sid, n) && t == Ticked(s, DoHeartbeat(s, w, hash, sid, n))
    ensures Inv(t)
  {
    if SameHash(s, hash) { RegistryKeeps(s, t); } else { HeartbeatKeeps(s, t, w, sid, n); }
  }

  predicate EndsCall(l: Label) {
    l.HearOk? || l.SyncFails? || l.RegisterAfter? || l.UnregisterAfter?
  }

  lemma EndStepKeeps(s: State, t: State, l: Label)
    requires Inv(s) && EndsCall(l) && LeaderEnabled(s, l) && t == Ticked(s, LeaderEffect(s, l))
    ensures Inv(t)
  {
    match l {
      case HearOk(sid, h) => MoveKeeps(s, t, sid, Succeeded(h));
      case SyncFails(sid) => FailKeeps(s, t, sid);
      case RegisterAfter(sid) => RegisterKeeps(s, t, sid);
      case UnregisterAfter(sid) => UnregisterKeeps(s, t, sid);
    }
  }

  lemma RegisterKeeps(s: State, t: State, sid: SyncId)
    requires Inv(s) && CanRegisterAfter(s, sid) && t == Ticked(s, DoRegisterAfter(s, sid))
    ensures Inv(t)
  {
    assert SyncOk(s, sid);
    MoveKeeps(s, t, sid, Registered(s.syncs[sid].pc.handler));
  }

  lemma UnregisterKeeps(s: State, t: State, sid: SyncId)
    requires Inv(s) && CanUnregisterAfter(s, sid) && t == Ticked(s, DoUnregisterAfter(s, sid))
    ensures Inv(t)
  {
    MoveKeeps(s, t, sid, Unregistered);
  }

  lemma CallStepKeeps(s: State, t: State, l: Label)
    requires Inv(s) && OfLeader(l) && !OfLoop(l) && !EndsCall(l)
    requires LeaderEnabled(s, l) && t == Ticked(s, LeaderEffect(s, l))
    ensures Inv(t)
  {
    match l {
      case HearDoc(sid, doc) => HearDocKeeps(s, t, sid, doc);
      case TakeSnapshot(sid) => TakeSnapshotKeeps(s, t, sid);
      case PostKeys(sid) => PostKeysKeeps(s, t, sid);
    }
  }

  lemma LeaderStepKeeps(s: State, l: Label)
    requires Inv(s) && OfLeader(l) && LeaderEnabled(s, l)
    ensures Inv(Ticked(s, LeaderEffect(s, l)))
  {
    var t := Ticked(s, LeaderEffect(s, l));
    if OfLoop(l) {
      LoopStepKeeps(s, t, l);
    } else if EndsCall(l) {
      EndStepKeeps(s, t, l);
    } else {
      CallStepKeeps(s, t, l);
    }
  }

  /** The invariant is inductive. */
  lemma StepKeeps(s: State, l: Label)
    requires Inv(s) && Enabled(s, l)
    ensures Inv(Apply(s, l))
  {
    if OfLeader(l) { LeaderStepKeeps(s, l); } else { WorkerStepKeeps(s, l); }
  }

  /** Every reachable state satisfies the invariant. */
  lemma {:induction false} ReachableInv(s0: State, trace: seq<Label>, s: State)
    requires Reaches(s0, trace, s)
    ensures Inv(s)
  {
    if trace == [] {
      InitEstablishes(s);
    } else {
      var before := Execute(s0, trace[..|trace| - 1]).value;
      ReachableInv(s0, trace[..|trace| - 1], before);
      StepKeeps(before, trace[|trace| - 1]);
    }
  }
}
