/** What no step of the protocol ever takes back, and the parts of the invariant
    that therefore need no second look. */
module SyncGrowth {
  import opened Common
  import opened SyncProtocol
  import opened SyncInvariant

  predicate SessionGrows(z: Session, z': Session) {
    && z'.worker == z.worker && z'.leadersNonce == z.leadersNonce
    && (z.takenBy.Some? ==> z'.takenBy == z.takenBy)
    && (z.key.Some? ==> z'.key == z.key && z'.pushedAt == z.pushedAt)
    && (z.issuedAt.Some? ==> z'.issuedAt == z.issuedAt)
    && (z.poppedAt.Some? ==> z'.poppedAt == z.poppedAt)
  }

  predicate FinishGrows(f: Finish, f': Finish) {
    && f'.worker == f.worker && f'.body == f.body && f'.nonce == f.nonce
    && (HasOpened(f) ==> HasOpened(f') && f'.pc.index == f.pc.index)
    && (f.pc.Installed? ==> f'.pc == f.pc)
  }

  predicate SyncGrows(y: Sync, y': Sync) {
    && y'.worker == y.worker && y'.origin == y.origin && y'.nonce == y.nonce
    && (y.heard.Some? ==> y'.heard == y.heard)
    && (y.taken.Some? ==> y'.taken == y.taken)
  }

  predicate Grows(s: State, t: State) {
    && t.workers.Keys == s.workers.Keys
    && (forall w :: w in s.workers ==> s.workers[w].log <= t.workers[w].log)
    && (forall n :: n in s.sessions ==> n in t.sessions && SessionGrows(s.sessions[n], t.sessions[n]))
    && (forall h :: h in s.finishes ==> h in t.finishes && FinishGrows(s.finishes[h], t.finishes[h]))
    && (forall sid :: sid in s.syncs ==> sid in t.syncs && SyncGrows(s.syncs[sid], t.syncs[sid]))
    && s.docs <= t.docs && s.seen <= t.seen
    && (forall k :: k in s.boxKeys ==> k in t.boxKeys && t.boxKeys[k] == s.boxKeys[k])
    && (forall n :: n in s.syncOf ==> n in t.syncOf && t.syncOf[n] == s.syncOf[n])
    && (forall c :: c in s.calls ==> c in t.calls && t.calls[c] == s.calls[c])
    && s.leader.version <= t.leader.version
    && s.history < t.history
  }

  lemma DocGrows(s: State, t: State, d: Doc)
    requires Grows(s, t) && DocOk(s, d)
    ensures DocOk(t, d)
  {
  }

  lemma AnsweredGrows(s: State, t: State, sid: SyncId, h: HandlerId)
    requires Grows(s, t) && AnsweredBy(s, sid, h)
    ensures AnsweredBy(t, sid, h)
  {
    assert SyncGrows(s.syncs[sid], t.syncs[sid]);
    assert FinishGrows(s.finishes[h], t.finishes[h]);
  }

  lemma TakenGrows(s: State, t: State, sid: SyncId)
    requires Grows(s, t) && sid in s.syncs
    ensures s.syncs[sid].heard.Some? && HeardOk(s, s.syncs[sid]) ==> HeardOk(t, t.syncs[sid])
    ensures s.syncs[sid].taken.Some? && TakenOk(s, s.syncs[sid]) ==> TakenOk(t, t.syncs[sid])
  {
    var y := s.syncs[sid];
    assert SyncGrows(y, t.syncs[sid]);
    if y.heard.Some? && HeardOk(s, y) {
      var n := y.heard.value.workersNonce;
      assert SessionGrows(s.sessions[n], t.sessions[n]);
    }
  }

  lemma SyncStays(s: State, t: State, sid: SyncId)
    requires Grows(s, t) && sid in s.syncs && SyncOk(s, sid) && t.syncs[sid] == s.syncs[sid]
    ensures SyncOk(t, sid)
  {
    TakenGrows(s, t, sid);
    var y := s.syncs[sid];
    if y.pc.Succeeded? || y.pc.Registered? {
      AnsweredGrows(s, t, sid, y.pc.handler);
    }
  }

  lemma OpeningGrows(s: State, t: State, w: WorkerId, i: nat)
    requires Grows(s, t) && w in s.workers && i < |s.workers[w].log| && OpeningOk(s, w, i)
    ensures OpeningOk(t, w, i)
  {
    var o := s.workers[w].log[i];
    assert t.workers[w].log[i] == o;
    assert FinishGrows(s.finishes[o.handler], t.finishes[o.handler]);
    assert SessionGrows(s.sessions[o.nonce], t.sessions[o.nonce]);
    assert SyncGrows(s.syncs[o.sync], t.syncs[o.sync]);
  }

  /** Documents that were true stay true. */
  lemma DocsStay(s: State, t: State)
    requires DocsInv(s) && Grows(s, t)
    ensures forall d :: d in s.docs ==> DocOk(t, d)
  {
    forall d | d in s.docs ensures DocOk(t, d) {
      DocGrows(s, t, d);
    }
  }

  lemma LogsStay(s: State, t: State)
    requires LogsInv(s) && Grows(s, t)
    ensures forall w, i :: w in s.workers && 0 <= i < |s.workers[w].log| ==> OpeningOk(t, w, i)
  {
    forall w, i | w in s.workers && 0 <= i < |s.workers[w].log| ensures OpeningOk(t, w, i) {
      OpeningGrows(s, t, w, i);
    }
  }

  lemma HistoryGrows(s: State, t: State)
    requires HistoryOk(s)
    requires t.history == s.history + [Snapshot(t.leader.version, t.leader.keys)]
    requires t.leader.version == s.leader.version ==> t.leader.keys == s.leader.keys
    requires s.leader.version <= t.leader.version
    requires t.leader.keys.nitridingKey == s.leader.keys.nitridingKey
    requires t.leader.keys.nitridingCert == s.leader.keys.nitridingCert
    ensures HistoryOk(t)
  {
    var k := |s.history|;
    forall i | 0 <= i < k
      ensures t.history[i].version <= t.history[k].version
      ensures t.history[i].version == t.history[k].version ==> t.history[i] == t.history[k]
    {
      assert t.history[i] == s.history[i];
      assert s.history[i].version <= s.history[k - 1].version;
    }
  }

  /** A step of a worker leaves the leader's part of the invariant alone. */
  lemma LeaderSideStays(s: State, t: State)
    requires SyncsInv(s) && LeaderOk(s) && HistoryOk(s) && Grows(s, t)
    requires t.leader == s.leader && t.syncs == s.syncs && t.calls == s.calls && t.syncOf == s.syncOf
    requires t.history == s.history + [Snapshot(s.leader.version, s.leader.keys)]
    ensures SyncsInv(t) && LeaderOk(t) && HistoryOk(t)
  {
    forall sid | sid in t.syncs ensures SyncOk(t, sid) {
      SyncStays(s, t, sid);
    }
    HistoryGrows(s, t);
  }

  lemma OrderStays(s: State, t: State, w: WorkerId)
    requires Grows(s, t) && w in s.workers && t.workers[w].log == s.workers[w].log
    requires LogOrdered(s.sessions, s.workers[w].log) && WaitsAfter(s.sessions, w, s.workers[w].log)
    requires forall n :: n in t.sessions && KeyWaits(t.sessions[n], w) ==>
                           n in s.sessions && KeyWaits(s.sessions[n], w)
    ensures LogOrdered(t.sessions, t.workers[w].log) && WaitsAfter(t.sessions, w, t.workers[w].log)
  {
    var log := s.workers[w].log;
    forall i, j | 0 <= i < j < |log| ensures PushedAfter(t.sessions, log[i], log[j]) {
      assert PushedAfter(s.sessions, log[i], log[j]);
      assert SessionGrows(s.sessions[log[j].nonce], t.sessions[log[j].nonce]);
    }
    forall n, i | n in t.sessions && KeyWaits(t.sessions[n], w) && 0 <= i < |log|
      ensures log[i].at < t.sessions[n].pushedAt
    {
      assert SessionGrows(s.sessions[n], t.sessions[n]);
    }
  }

  /** Only one call changed. */
  lemma SyncChange(s: State, t: State, sid: SyncId)
    requires SyncsInv(s) && Grows(s, t) && sid in t.syncs && SyncOk(t, sid)
    requires t.syncs == s.syncs[sid := t.syncs[sid]]
    ensures SyncsInv(t)
  {
    forall k | k in t.syncs ensures SyncOk(t, k) {
      if k != sid { SyncStays(s, t, k); }
    }
  }

  /** A step that only touches one call, and perhaps the registry. */
  predicate SyncFrame(s: State, t: State, sid: SyncId) {
    && t.workers == s.workers && t.sessions == s.sessions && t.finishes == s.finishes
    && t.boxKeys == s.boxKeys && t.seen == s.seen && t.syncOf == s.syncOf && t.calls == s.calls
    && t.leader.keys == s.leader.keys && t.leader.version == s.leader.version
    && t.leader.loop == s.leader.loop && t.leader.targets == s.leader.targets
    && t.leader.registering == s.leader.registering
    && t.history == s.history + [Snapshot(s.leader.version, s.leader.keys)]
    && s.docs <= t.docs
    && sid in s.syncs && sid in t.syncs && SyncGrows(s.syncs[sid], t.syncs[sid])
    && t.syncs == s.syncs[sid := t.syncs[sid]]
  }

  lemma SyncFrameGrows(s: State, t: State, sid: SyncId)
    requires SyncFrame(s, t, sid)
    ensures Grows(s, t)
  {
  }

  lemma SyncStepKeeps(s: State, t: State, sid: SyncId)
    requires Inv(s) && SyncFrame(s, t, sid) && SyncOk(t, sid)
    requires t.leader.registry <= t.workers.Keys
    requires forall d :: d in t.docs ==> d in s.docs || DocOk(t, d)
    ensures Inv(t)
  {
    SyncFrameGrows(s, t, sid);
    WorkerSideStays(s, t);
    DocsStay(s, t);
    HistoryGrows(s, t);
    FanOutStays(s, t);
    SyncChange(s, t, sid);
  }

  /** Fan-outs are where they were. */
  lemma FanOutStays(s: State, t: State)
    requires LeaderOk(s) && Grows(s, t) && t.calls == s.calls
    requires forall n :: n in t.syncOf ==> n in t.seen
    requires t.leader.loop == s.leader.loop && t.leader.targets == s.leader.targets
    requires t.leader.registering == s.leader.registering && t.leader.registry <= t.workers.Keys
    ensures LeaderOk(t)
  {
    forall c | c in t.calls
      ensures t.calls[c] in t.syncs
      ensures t.syncs[t.calls[c]].origin == FromPut(c.0) && t.syncs[t.calls[c]].worker == c.1
    {
      assert SyncGrows(s.syncs[s.calls[c]], t.syncs[t.calls[c]]);
    }
  }

  /** A step of the leader leaves the workers' part of the invariant alone. */
  lemma WorkerSideStays(s: State, t: State)
    requires SessionsInv(s) && ChannelsInv(s) && FinishesInv(s) && LogsInv(s)
    requires OrderInv(s) && InstallsInv(s) && Grows(s, t)
    requires t.workers == s.workers && t.sessions == s.sessions && t.finishes == s.finishes
    requires t.boxKeys == s.boxKeys
    ensures SessionsInv(t) && ChannelsInv(t) && FinishesInv(t) && LogsInv(t)
    ensures OrderInv(t) && InstallsInv(t)
  {
    forall n | n in t.sessions ensures SessionOk(t, n) {
      assert SessionOk(s, n);
    }
    forall h | h in t.finishes ensures FinishOk(t, h) {
      assert FinishOk(s, h);
    }
    LogsStay(s, t);
  }

  // ------------------------------------------ one session or handler alone

  /** A session that did not change, while its worker kept the key that waits. */
  lemma SessionStays(s: State, t: State, n: Nonce)
    requires Grows(s, t) && n in s.sessions && SessionOk(s, n) && t.sessions[n] == s.sessions[n]
    requires KeyWaits(s.sessions[n], s.sessions[n].worker) ==>
               t.workers[s.sessions[n].worker].keyCh == s.workers[s.sessions[n].worker].keyCh
    ensures SessionOk(t, n)
  {
    var z := s.sessions[n];
    if z.takenBy.Some? {
      assert FinishGrows(s.finishes[z.takenBy.value], t.finishes[z.takenBy.value]);
    }
  }

  /** A handler that did not change, while nobody popped the key of its session. */
  lemma FinishStays(s: State, t: State, h: HandlerId)
    requires Grows(s, t) && h in s.finishes && FinishOk(s, h) && t.finishes[h] == s.finishes[h]
    requires t.sessions[s.finishes[h].nonce].poppedAt == s.sessions[s.finishes[h].nonce].poppedAt
    ensures FinishOk(t, h)
  {
    var f := s.finishes[h];
    assert SessionGrows(s.sessions[f.nonce], t.sessions[f.nonce]);
    assert s.workers[f.worker].log <= t.workers[f.worker].log;
  }

  /** No session changed as far as the nonce channel is concerned. */
  lemma ChannelsStay(s: State, t: State, w: WorkerId)
    requires Grows(s, t) && w in s.workers
    requires NonceChOk(s.sessions, w, s.workers[w]) && KeyChOk(s.sessions, s.boxKeys, w, s.workers[w])
    requires t.workers[w].nonceCh == s.workers[w].nonceCh && t.workers[w].keyCh == s.workers[w].keyCh
    requires s.workers[w].nonceCh.Some? ==>
               t.sessions[s.workers[w].nonceCh.value].takenBy.None?
    requires forall n :: n in s.sessions && KeyWaits(s.sessions[n], w) ==> KeyWaits(t.sessions[n], w)
    ensures NonceChOk(t.sessions, w, t.workers[w]) && KeyChOk(t.sessions, t.boxKeys, w, t.workers[w])
  {
    var x := s.workers[w];
    if x.nonceCh.Some? {
      assert SessionGrows(s.sessions[x.nonceCh.value], t.sessions[x.nonceCh.value]);
    }
    if x.keyCh.Some? {
      var n := s.boxKeys[x.keyCh.value];
      assert SessionGrows(s.sessions[n], t.sessions[n]);
    }
  }

  /** Installations stay what they are as long as the worker installs nothing. */
  lemma InstallsStay(s: State, t: State, w: WorkerId)
    requires Grows(s, t) && w in s.workers && InstallsOk(s.workers[w], s.finishes)
    requires t.workers[w].installs == s.workers[w].installs
    requires t.workers[w].keys == s.workers[w].keys && t.workers[w].version == s.workers[w].version
    ensures InstallsOk(t.workers[w], t.finishes)
  {
    var x := s.workers[w];
    assert x.log <= t.workers[w].log;
    forall k | 0 <= k < |x.installs| ensures IsInstalled(t.workers[w], x.installs[k], t.finishes) {
      assert IsInstalled(x, x.installs[k], s.finishes);
      var h := x.log[x.installs[k]].handler;
      assert FinishGrows(s.finishes[h], t.finishes[h]);
    }
  }

  predicate SameInstalls(s: State, t: State) {
    && t.workers.Keys == s.workers.Keys
    && forall w :: w in s.workers ==>
         && t.workers[w].installs == s.workers[w].installs
         && t.workers[w].keys == s.workers[w].keys && t.workers[w].version == s.workers[w].version
  }

  /** Nobody installs anything. */
  lemma NoInstall(s: State, t: State)
    requires InstallsInv(s) && Grows(s, t) && SameInstalls(s, t)
    ensures InstallsInv(t)
  {
    forall w | w in t.workers ensures InstallsOk(t.workers[w], t.finishes) {
      assert InstallsOk(s.workers[w], s.finishes);
      InstallsStay(s, t, w);
    }
  }

  /** Only the program counter or the document of one session changed. */
  predicate OnlyDocChanged(s: State, t: State, n: Nonce) {
    && n in s.sessions && n in t.sessions
    && t.workers == s.workers && t.finishes == s.finishes && t.boxKeys == s.boxKeys
    && t.sessions == s.sessions[n := t.sessions[n]]
    && t.sessions[n] == s.sessions[n].(pc := t.sessions[n].pc, issuedAt := t.sessions[n].issuedAt)
  }

  lemma DocChangeHandlers(s: State, t: State, n: Nonce)
    requires SessionsInv(s) && FinishesInv(s) && Grows(s, t) && OnlyDocChanged(s, t, n)
    requires SessionOk(t, n)
    ensures SessionsInv(t) && FinishesInv(t)
  {
    forall m | m in t.sessions ensures SessionOk(t, m) {
      if m != n { SessionStays(s, t, m); }
    }
    forall h | h in t.finishes ensures FinishOk(t, h) {
      FinishStays(s, t, h);
    }
  }

  lemma DocChangeChannels(s: State, t: State, n: Nonce)
    requires ChannelsInv(s) && OrderInv(s) && Grows(s, t) && OnlyDocChanged(s, t, n)
    ensures ChannelsInv(t) && OrderInv(t)
  {
    forall w | w in t.workers
      ensures NonceChOk(t.sessions, w, t.workers[w]) && KeyChOk(t.sessions, t.boxKeys, w, t.workers[w])
      ensures LogOrdered(t.sessions, t.workers[w].log) && WaitsAfter(t.sessions, w, t.workers[w].log)
    {
      ChannelsStay(s, t, w);
      OrderStays(s, t, w);
    }
  }

  lemma DocChange(s: State, t: State, n: Nonce)
    requires Inv(s) && Grows(s, t) && OnlyDocChanged(s, t, n) && SessionOk(t, n)
    ensures SessionsInv(t) && ChannelsInv(t) && FinishesInv(t) && LogsInv(t)
    ensures OrderInv(t) && InstallsInv(t)
  {
    DocChangeHandlers(s, t, n);
    DocChangeChannels(s, t, n);
    LogsStay(s, t);
  }

  /** Neither the channels nor the order of decryptions changed. */
  lemma SameChannels(s: State, t: State)
    requires ChannelsInv(s) && OrderInv(s) && t.sessions == s.sessions && t.boxKeys == s.boxKeys
    requires t.workers.Keys == s.workers.Keys
    requires forall w :: w in s.workers ==>
               && t.workers[w].nonceCh == s.workers[w].nonceCh && t.workers[w].keyCh == s.workers[w].keyCh
               && t.workers[w].log == s.workers[w].log
    ensures ChannelsInv(t) && OrderInv(t)
  {
    forall w | w in t.workers
      ensures NonceChOk(t.sessions, w, t.workers[w]) && KeyChOk(t.sessions, t.boxKeys, w, t.workers[w])
      ensures LogOrdered(t.sessions, t.workers[w].log) && WaitsAfter(t.sessions, w, t.workers[w].log)
    {
      assert NonceChOk(s.sessions, w, s.workers[w]) && KeyChOk(s.sessions, s.boxKeys, w, s.workers[w]);
      assert LogOrdered(s.sessions, s.workers[w].log) && WaitsAfter(s.sessions, w, s.workers[w].log);
    }
  }
}
