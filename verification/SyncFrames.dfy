/** What the steps of one side leave alone on the other side. */
module SyncFrames {
  import opened Common
  import opened SyncProtocol

  /** The leader's steps leave the workers and their handlers alone. */
  predicate WorkersUntouched(s: State, t: State) {
    && t.workers == s.workers && t.sessions == s.sessions && t.finishes == s.finishes
    && t.boxKeys == s.boxKeys && t.gets == s.gets && t.posts == s.posts && t.docLen == s.docLen
  }

  predicate KeysUntouched(s: State, t: State) {
    t.leader.keys == s.leader.keys && t.leader.version == s.leader.version
  }

  /** A call was started, under a fresh nonce. */
  predicate Started(s: State, t: State, sid: SyncId, n: Nonce) {
    && Fresh(s, n) && sid !in s.syncs && sid in t.syncs && t.syncs == s.syncs[sid := t.syncs[sid]]
    && t.syncs[sid].nonce == n && t.syncs[sid].pc == AwaitingDoc && t.syncs[sid].heard.None?
    && t.syncs[sid].taken.None?
    && t.syncOf == s.syncOf[n := sid] && t.seen == s.seen + {n} && t.docs == s.docs
    && t.leader.crashed == s.leader.crashed && KeysUntouched(s, t)
  }

  /** A call moved on, or only the leader's own state changed. */
  predicate NoneStarted(s: State, t: State) {
    && t.syncs.Keys == s.syncs.Keys && t.syncOf == s.syncOf && t.seen == s.seen && s.docs <= t.docs
    && (forall sid :: sid in s.syncs ==> t.syncs[sid].nonce == s.syncs[sid].nonce)
  }

  predicate LeaderFrame(s: State, l: Label, t: State) {
    && WorkersUntouched(s, t) && (!l.Put? ==> KeysUntouched(s, t))
    && ((Starts(s, l) && Started(s, t, l.sid, l.n)) || NoneStarted(s, t))
  }

  predicate Starts(s: State, l: Label) {
    l.SpawnSync? || (l.Heartbeat? && !SameHash(s, l.hash))
  }

  lemma LeaderLeaves(s: State, l: Label)
    requires OfLeader(l) && LeaderEnabled(s, l)
    ensures LeaderFrame(s, l, LeaderEffect(s, l))
  {
    if OfLoop(l) { LoopLeaves(s, l); } else { CallLeaves(s, l); }
  }

  predicate OfLoop(l: Label) {
    l.Put? || l.Dispatch? || l.DispatchDone? || l.Prune? || l.SpawnSync? || l.Heartbeat? || l.Register?
  }

  lemma LoopLeaves(s: State, l: Label)
    requires OfLoop(l) && LeaderEnabled(s, l)
    ensures LeaderFrame(s, l, LeaderEffect(s, l))
  {
    match l {
      case SpawnSync(w, sid, n) => SpawnLeaves(s, w, sid, n);
      case Heartbeat(w, hash, sid, n) => HeartbeatLeaves(s, w, hash, sid, n);
      case _ =>
    }
  }

  lemma SpawnLeaves(s: State, w: WorkerId, sid: SyncId, n: Nonce)
    requires CanSpawnSync(s, w, sid, n)
    ensures var t := DoSpawnSync(s, w, sid, n); WorkersUntouched(s, t) && Started(s, t, sid, n)
  {
  }

  lemma HeartbeatLeaves(s: State, w: WorkerId, hash: Option<Bytes>, sid: SyncId, n: Nonce)
    requires CanHeartbeat(s, w, hash, sid, n)
    ensures var t := DoHeartbeat(s, w, hash, sid, n);
      && WorkersUntouched(s, t) && KeysUntouched(s, t)
      && if SameHash(s, hash) then NoneStarted(s, t) else Started(s, t, sid, n)
  {
  }

  lemma CallLeaves(s: State, l: Label)
    requires OfLeader(l) && !OfLoop(l) && LeaderEnabled(s, l)
    ensures LeaderFrame(s, l, LeaderEffect(s, l))
  {
    match l {
      case HearDoc(sid, doc) => HearingLeaves(s, sid, VerifyAttstn(s.docs, doc, s.syncs[sid].nonce));
      case TakeSnapshot(sid) => SyncLeaves(s, DoTakeSnapshot(s, sid), sid);
      case PostKeys(sid) => SyncLeaves(s, DoPostKeys(s, sid), sid);
      case HearOk(sid, h) => SyncLeaves(s, MoveSync(s, sid, Succeeded(h)), sid);
      case SyncFails(sid) => SyncLeaves(s, MoveSync(s, sid, Failed), sid);
      case RegisterAfter(sid) => SyncLeaves(s, DoRegisterAfter(s, sid), sid);
      case UnregisterAfter(sid) => SyncLeaves(s, DoUnregisterAfter(s, sid), sid);
    }
  }

  lemma HearingLeaves(s: State, sid: SyncId, aux: Aux)
    requires sid in s.syncs
    ensures var t := AfterVerifying(s, sid, aux);
      WorkersUntouched(s, t) && KeysUntouched(s, t) && NoneStarted(s, t)
  {
  }

  /** Only one call, the documents and the registry changed. */
  lemma SyncLeaves(s: State, t: State, sid: SyncId)
    requires sid in s.syncs && sid in t.syncs && s.docs <= t.docs
    requires t.leader == s.leader.(registry := t.leader.registry)
    requires t == s.(leader := t.leader, docs := t.docs, syncs := s.syncs[sid := t.syncs[sid]])
    requires t.syncs[sid].nonce == s.syncs[sid].nonce
    ensures WorkersUntouched(s, t) && KeysUntouched(s, t) && NoneStarted(s, t)
  {
  }

  /** A worker's steps leave the leader alone, and no leader's document comes of them. */
  predicate LeaderUntouched(s: State, t: State) {
    && t.leader == s.leader && t.syncs == s.syncs && t.syncOf == s.syncOf && t.docLen == s.docLen
    && s.docs <= t.docs && s.seen <= t.seen
    && (forall d :: d in t.docs && d !in s.docs ==> !d.LeaderDoc?)
  }

  // A worker's steps, by the handler that takes them.
  predicate OfRequest(l: Label) {
    l.GetArrives? || l.PostArrives? || l.ClientAttstn?
  }

  predicate OfInit(l: Label) {
    l.PushNonce? || l.BoxKeyFails? || l.PushKey? || l.AnswerGet? || l.AttstnFails?
  }

  predicate OfFinish(l: Label) {
    l.TakeNonce? || l.VerifyPost? || l.PopKey? || l.Install?
  }

  lemma WorkerLeaves(s: State, l: Label)
    requires !OfLeader(l) && WorkerEnabled(s, l)
    ensures LeaderUntouched(s, WorkerEffect(s, l))
  {
    if OfFinish(l) { FinishLeaves(s, l); }
  }

  lemma FinishLeaves(s: State, l: Label)
    requires OfFinish(l) && WorkerEnabled(s, l)
    ensures LeaderUntouched(s, WorkerEffect(s, l))
  {
    match l {
      case TakeNonce(_, _) =>
      case VerifyPost(_, _) =>
      case PopKey(_) =>
      case Install(h) => InstallLeaves(s, h);
    }
  }

  lemma InstallLeaves(s: State, h: HandlerId)
    requires CanInstall(s, h)
    ensures LeaderUntouched(s, DoInstall(s, h))
  {
    match s.workers[s.finishes[h].worker].log[s.finishes[h].pc.index].plain {
      case Garbage =>
      case KeysJson(snap) =>
    }
  }
}
