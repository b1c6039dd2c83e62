/** The inductive invariant of the key-synchronization protocol. */
module SyncInvariant {
  import opened Common
  import opened SyncProtocol

  predicate HasOpened(f: Finish) {
    f.pc.Opened? || f.pc.Installed?
  }

  /** The session's key sits in the worker's channel. */
  predicate KeyWaits(z: Session, w: WorkerId) {
    z.worker == w && z.key.Some? && z.poppedAt.None?
  }

  /** The posted document is a genuine leader document for the nonce that the
      handler took, and it vouches for the posted ciphertext. */
  predicate Certified(s: State, f: Finish) {
    && f.body.blob.Some?
    && f.body.doc == Some(LeaderDoc(f.nonce, Sha256(f.body.blob.value)))
    && f.body.doc.value in s.docs
  }

  /** An initSync handler: its key waits in the channel from the push until the
      handler that took its nonce pops it. */
  predicate SessionOk(s: State, n: Nonce)
    requires n in s.sessions
  {
    var z := s.sessions[n];
    && n in s.seen
    && z.worker in s.workers
    && (z.takenBy.Some? ==>
          && z.takenBy.value in s.finishes
          && s.finishes[z.takenBy.value].nonce == n
          && s.finishes[z.takenBy.value].worker == z.worker)
    && (z.pc == NoncePushed ==> z.key.None?)
    && (z.pc == KeyPushed ==> z.key.Some? && z.issuedAt.None?)
    && (z.key.None? ==> z.issuedAt.None? && z.poppedAt.None?)
    && (z.key.Some? ==>
          z.key.value in s.boxKeys && s.boxKeys[z.key.value] == n && z.pushedAt < Now(s))
    && (z.issuedAt.Some? ==> z.pushedAt < z.issuedAt.value < Now(s))
    && (z.poppedAt.Some? ==> z.takenBy.Some? && HasOpened(s.finishes[z.takenBy.value]))
    && (z.key.Some? && z.poppedAt.None? ==> s.workers[z.worker].keyCh == z.key)
  }

  /** A nonce in the channel belongs to a session of that worker and was not taken
      before; a key in the channel belongs to one whose key was not popped before. */
  predicate NonceChOk(sessions: map<Nonce, Session>, w: WorkerId, x: Worker) {
    x.nonceCh.Some? ==>
      && x.nonceCh.value in sessions
      && sessions[x.nonceCh.value].worker == w
      && sessions[x.nonceCh.value].takenBy.None?
  }

  predicate KeyChOk(sessions: map<Nonce, Session>, boxKeys: map<BoxKey, Nonce>, w: WorkerId, x: Worker) {
    x.keyCh.Some? ==>
      && x.keyCh.value in boxKeys
      && boxKeys[x.keyCh.value] in sessions
      && sessions[boxKeys[x.keyCh.value]].key == x.keyCh
      && KeyWaits(sessions[boxKeys[x.keyCh.value]], w)
  }

  /** A finishSync handler holds the nonce that it took to the exclusion of all
      others, and has not popped a key before it opened something. */
  predicate FinishOk(s: State, h: HandlerId)
    requires h in s.finishes
  {
    var f := s.finishes[h];
    && f.worker in s.workers
    && f.nonce in s.sessions
    && s.sessions[f.nonce].takenBy == Some(h)
    && s.sessions[f.nonce].worker == f.worker
    && (HasOpened(f) <==> s.sessions[f.nonce].poppedAt.Some?)
    && (f.pc == Passed || HasOpened(f) ==> Certified(s, f))
    && (HasOpened(f) ==>
          f.pc.index < |s.workers[f.worker].log| && s.workers[f.worker].log[f.pc.index].handler == h)
  }

  /** Every signed document tells the truth about the session or call behind it. */
  predicate DocOk(s: State, d: Doc) {
    match d
    case WorkerDoc(n, ln, k) =>
      && n in s.sessions && s.sessions[n].leadersNonce == ln
      && s.sessions[n].key == Some(k) && s.sessions[n].issuedAt.Some?
    case LeaderDoc(n, Sha256(b)) =>
      && b.Sealed? && b.sender in s.syncs
      && s.syncs[b.sender].heard.Some? && s.syncs[b.sender].taken.Some?
      && d == DocOf(b.sender, s.syncs[b.sender])
    case ClientDoc(_, _) => true
  }

  predicate HeardOk(s: State, y: Sync)
    requires y.heard.Some?
  {
    var n := y.heard.value.workersNonce;
    && WorkerDoc(n, y.nonce, y.heard.value.publicKey) in s.docs
    && n in s.sessions && s.sessions[n].issuedAt.Some?
  }

  /** A snapshot is the leader's key material at some instant after the worker's
      document was issued. */
  predicate TakenOk(s: State, y: Sync)
    requires y.taken.Some?
  {
    && y.heard.Some? && HeardOk(s, y)
    && s.sessions[y.heard.value.workersNonce].issuedAt.value < y.taken.value.at < Now(s)
    && s.history[y.taken.value.at] == y.taken.value.snap
  }

  /** The finishSync handler that answered a call installed what the call posted. */
  predicate AnsweredBy(s: State, sid: SyncId, h: HandlerId) {
    && sid in s.syncs && h in s.finishes
    && s.syncs[sid].heard.Some? && s.syncs[sid].taken.Some?
    && s.finishes[h].worker == s.syncs[sid].worker && s.finishes[h].pc.Installed?
    && s.finishes[h].body.doc == Some(DocOf(sid, s.syncs[sid]))
    && s.finishes[h].body.blob == Some(BlobOf(sid, s.syncs[sid]))
  }

  predicate SyncOk(s: State, sid: SyncId)
    requires sid in s.syncs
  {
    var y := s.syncs[sid];
    && y.worker in s.workers
    && y.nonce in s.seen && y.nonce in s.syncOf && s.syncOf[y.nonce] == sid
    && (y.heard.Some? ==> HeardOk(s, y))
    && (y.taken.Some? ==> TakenOk(s, y))
    && (y.pc == AwaitingDoc ==> y.heard.None? && y.taken.None?)
    && (y.pc == Verified ==> y.heard.Some? && y.taken.None?)
    && (y.pc == Snapped || y.pc == Posted ==> y.taken.Some?)
    && (y.pc.Succeeded? || y.pc.Registered? ==> AnsweredBy(s, sid, y.pc.handler))
    && (y.origin.FromPut? ==>
          && y.origin.version <= s.leader.version
          && (y.origin.version, y.worker) in s.calls
          && s.calls[(y.origin.version, y.worker)] == sid
          && !y.pc.Registered?
          && (y.taken.Some? ==> y.origin.version <= y.taken.value.snap.version))
    && (y.origin.FromHeartbeat? ==> !y.pc.Unregistered?)
  }

  /** A decryption: who did it, and where its key material came from. */
  predicate OpeningOk(s: State, w: WorkerId, i: nat)
    requires w in s.workers && i < |s.workers[w].log|
  {
    var o := s.workers[w].log[i];
    && o.handler in s.finishes
    && s.finishes[o.handler].worker == w
    && s.finishes[o.handler].nonce == o.nonce
    && HasOpened(s.finishes[o.handler]) && s.finishes[o.handler].pc.index == i
    && o.nonce in s.sessions && s.sessions[o.nonce].worker == w
    && s.sessions[o.nonce].key.Some? && s.sessions[o.nonce].poppedAt == Some(o.at)
    && o.at < Now(s)
    && o.sync in s.syncs && s.syncs[o.sync].taken.Some? && s.syncs[o.sync].heard.Some?
    && s.finishes[o.handler].body.blob == Some(BlobOf(o.sync, s.syncs[o.sync]))
    && s.syncs[o.sync].heard.value.workersNonce == o.nonce
    && o.plain == KeysJson(s.syncs[o.sync].taken.value.snap)
    && s.syncs[o.sync].taken.value.at < o.at
  }

  /** The one-slot key channel orders decryptions: a later one belongs to a session
      that pushed its key after the earlier decryption. */
  predicate LogOrdered(sessions: map<Nonce, Session>, log: seq<Opening>) {
    forall i, j :: 0 <= i < j < |log| ==> PushedAfter(sessions, log[i], log[j])
  }

  predicate PushedAfter(sessions: map<Nonce, Session>, a: Opening, b: Opening) {
    b.nonce in sessions && sessions[b.nonce].key.Some? && a.at < sessions[b.nonce].pushedAt
  }

  predicate WaitsAfter(sessions: map<Nonce, Session>, w: WorkerId, log: seq<Opening>) {
    forall n, i :: n in sessions && KeyWaits(sessions[n], w) && 0 <= i < |log| ==>
      log[i].at < sessions[n].pushedAt
  }

  /** Whoever installed keys is done, nobody installs twice, and the worker's keys
      are those that were installed last. */
  predicate InstallsOk(x: Worker, finishes: map<HandlerId, Finish>) {
    && (forall k :: 0 <= k < |x.installs| ==> IsInstalled(x, x.installs[k], finishes))
    && (forall j, k :: 0 <= j < k < |x.installs| ==> x.installs[j] != x.installs[k])
    && (x.installs == [] <==> x.version.None?)
    && (x.installs != [] ==>
          x.log[x.installs[|x.installs| - 1]].plain == KeysJson(Snapshot(x.version.value, x.keys)))
  }

  predicate IsInstalled(x: Worker, i: nat, finishes: map<HandlerId, Finish>) {
    i < |x.log| && x.log[i].handler in finishes && finishes[x.log[i].handler].pc == Installed(i)
  }

  predicate HistoryOk(s: State) {
    && |s.history| > 0
    && s.history[|s.history| - 1] == Snapshot(s.leader.version, s.leader.keys)
    && (forall i, j :: 0 <= i < j < |s.history| ==> s.history[i].version <= s.history[j].version)
    && (forall i, j :: 0 <= i < j < |s.history| && s.history[i].version == s.history[j].version
          ==> s.history[i] == s.history[j])
    && (forall i :: 0 <= i < |s.history| ==>
          && s.history[i].keys.nitridingKey == s.leader.keys.nitridingKey
          && s.history[i].keys.nitridingCert == s.leader.keys.nitridingCert)
  }

  /** Fan-outs: every worker that was registered at dispatch has its call, or is
      still to get it. */
  predicate LeaderOk(s: State) {
    var d := s.leader;
    && (forall n :: n in s.syncOf ==> n in s.seen)
    && d.registry <= s.workers.Keys && (forall w :: w in d.registering ==> w in s.workers)
    && (forall v :: v in d.targets ==> v <= d.version && d.targets[v] <= s.workers.Keys)
    && (d.loop.FanningOut? ==>
          && d.loop.version in d.targets
          && d.loop.todo <= d.targets[d.loop.version]
          && (forall w :: w in d.loop.todo ==> (d.loop.version, w) !in s.calls))
    && (forall v, w :: v in d.targets && w in d.targets[v] ==>
          (v, w) in s.calls || (d.loop.FanningOut? && d.loop.version == v && w in d.loop.todo))
    && (forall c :: c in s.calls ==>
          && c.0 in d.targets && c.1 in d.targets[c.0]
          && s.calls[c] in s.syncs
          && s.syncs[s.calls[c]].origin == FromPut(c.0) && s.syncs[s.calls[c]].worker == c.1)
  }

  // Each part is unfolded only where a proof mentions it.
  predicate SessionsInv(s: State) {
    forall n {:trigger SessionOk(s, n)} :: n in s.sessions ==> SessionOk(s, n)
  }
  predicate ChannelsInv(s: State) {
    && (forall w {:trigger NonceChOk(s.sessions, w, s.workers[w])} ::
          w in s.workers ==> NonceChOk(s.sessions, w, s.workers[w]))
    && (forall w {:trigger KeyChOk(s.sessions, s.boxKeys, w, s.workers[w])} ::
          w in s.workers ==> KeyChOk(s.sessions, s.boxKeys, w, s.workers[w]))
  }
  predicate FinishesInv(s: State) {
    forall h {:trigger FinishOk(s, h)} :: h in s.finishes ==> FinishOk(s, h)
  }
  predicate DocsInv(s: State) {
    forall d {:trigger DocOk(s, d)} :: d in s.docs ==> DocOk(s, d)
  }
  predicate SyncsInv(s: State) {
    forall sid {:trigger SyncOk(s, sid)} :: sid in s.syncs ==> SyncOk(s, sid)
  }
  predicate LogsInv(s: State) {
    forall w, i {:trigger OpeningOk(s, w, i)} ::
      w in s.workers && 0 <= i < |s.workers[w].log| ==> OpeningOk(s, w, i)
  }
  predicate OrderInv(s: State) {
    && (forall w {:trigger LogOrdered(s.sessions, s.workers[w].log)} ::
          w in s.workers ==> LogOrdered(s.sessions, s.workers[w].log))
    && (forall w {:trigger WaitsAfter(s.sessions, w, s.workers[w].log)} ::
          w in s.workers ==> WaitsAfter(s.sessions, w, s.workers[w].log))
  }
  predicate InstallsInv(s: State) {
    forall w {:trigger InstallsOk(s.workers[w], s.finishes)} ::
      w in s.workers ==> InstallsOk(s.workers[w], s.finishes)
  }

  predicate Inv(s: State) {
    && SessionsInv(s) && ChannelsInv(s) && FinishesInv(s) && DocsInv(s) && SyncsInv(s)
    && LogsInv(s) && OrderInv(s) && InstallsInv(s) && HistoryOk(s) && LeaderOk(s)
  }

  // ------------------------------------------------------- consequences

  /** What a passing handler knows: the posted ciphertext is what some syncWith call
      sealed, for the very session whose nonce the handler took. */
  lemma CertifiedMeans(s: State, h: HandlerId)
    requires Inv(s) && h in s.finishes && Certified(s, s.finishes[h])
    ensures var f := s.finishes[h]; var b := f.body.blob.value;
      && b.Sealed? && b.sender in s.syncs
      && s.syncs[b.sender].heard.Some? && s.syncs[b.sender].taken.Some?
      && b == BlobOf(b.sender, s.syncs[b.sender])
      && s.syncs[b.sender].heard.value.workersNonce == f.nonce
      && f.nonce in s.sessions && s.sessions[f.nonce].key == Some(b.recipient)
      && b.recipient in s.boxKeys && s.boxKeys[b.recipient] == f.nonce
      && s.syncs[b.sender].taken.value.at < Now(s)
  {
    var f := s.finishes[h];
    var b := f.body.blob.value;
    assert DocOk(s, f.body.doc.value);
    assert SyncOk(s, b.sender);
    assert DocOk(s, WorkerDoc(f.nonce, s.syncs[b.sender].nonce, b.recipient));
    assert SessionOk(s, f.nonce);
  }

  lemma PassedHasKey(s: State, h: HandlerId)
    requires Inv(s) && h in s.finishes && s.finishes[h].pc == Passed
    ensures var f := s.finishes[h];
      && f.body.blob.Some? && f.body.blob.value.Sealed?
      && f.worker in s.workers && s.workers[f.worker].keyCh == Some(f.body.blob.value.recipient)
      && f.body.blob.value.recipient in s.boxKeys
      && s.boxKeys[f.body.blob.value.recipient] == f.nonce
      && f.nonce in s.sessions && s.sessions[f.nonce].key == Some(f.body.blob.value.recipient)
  {
    assert FinishOk(s, h);
    CertifiedMeans(s, h);
    assert SessionOk(s, s.finishes[h].nonce);
  }

  // ------------------------------------------------------- initial state

  lemma InitEstablishes(s: State)
    requires Init(s)
    ensures Inv(s)
  {
  }
}
