/** More that holds in every reachable state: which nonces are known, what the bodies that
    handlers work on can be, and that an untaken nonce is in its channel. */
module SyncKnowledge {
  import opened Common
  import opened SyncBudget
  import opened SyncProtocol
  import opened SyncFrames

  /** Sessions and calls have different nonces, all of them known and none zero. */
  predicate NoncesApart(s: State) {
    && (forall n :: n in s.sessions ==> n in s.seen && n !in s.syncOf)
    && (forall n :: n in s.syncOf ==> n in s.seen && n != ZERO_NONCE)
  }

  /** The nonce that a GET names is known from then on. */
  predicate GetsKnown(s: State) {
    && (forall g :: g in s.gets ==> g.leadersNonce in s.seen)
    && (forall n :: n in s.sessions ==> s.sessions[n].leadersNonce in s.seen)
  }

  /** A body is short enough, and its document was signed. */
  predicate BodyOk(s: State, b: Body) {
    Readable(s.docLen, b) && (b.doc.Some? ==> b.doc.value in s.docs)
  }

  predicate BodiesOk(s: State) {
    && (forall p :: p in s.posts ==> BodyOk(s, p.body))
    && (forall h :: h in s.finishes ==> BodyOk(s, s.finishes[h].body))
  }

  /** A nonce stays in its channel until it is taken. */
  predicate NoncesWait(s: State) {
    forall n :: n in s.sessions && s.sessions[n].takenBy.None? ==>
      s.sessions[n].worker in s.workers && s.workers[s.sessions[n].worker].nonceCh == Some(n)
  }

  predicate Known(s: State) {
    NoncesApart(s) && GetsKnown(s) && BodiesOk(s) && NoncesWait(s)
  }

  lemma LeaderKeepsKnown(s: State, l: Label)
    requires Known(s) && OfLeader(l) && LeaderEnabled(s, l)
    ensures Known(Ticked(s, LeaderEffect(s, l)))
  {
    LeaderLeaves(s, l);
    var t := LeaderEffect(s, l);
    if Starts(s, l) && Started(s, t, l.sid, l.n) { StartKeeps(s, t, l.sid, l.n); } else { NoStartKeeps(s, t); }
  }

  lemma StartKeeps(s: State, t: State, sid: SyncId, n: Nonce)
    requires Known(s) && WorkersUntouched(s, t) && Started(s, t, sid, n)
    ensures Known(Ticked(s, t))
  {
    BodiesStay(s, Ticked(s, t));
  }

  lemma NoStartKeeps(s: State, t: State)
    requires Known(s) && WorkersUntouched(s, t) && NoneStarted(s, t)
    ensures Known(Ticked(s, t))
  {
    BodiesStay(s, Ticked(s, t));
  }

  lemma BodiesStay(s: State, t: State)
    requires BodiesOk(s) && t.docLen == s.docLen && s.docs <= t.docs
    requires t.posts == s.posts && t.finishes.Keys == s.finishes.Keys
    requires forall h :: h in s.finishes ==> t.finishes[h].body == s.finishes[h].body
    ensures BodiesOk(t)
  {
    forall p | p in t.posts ensures BodyOk(t, p.body) { assert BodyOk(s, p.body); }
    forall h | h in t.finishes ensures BodyOk(t, t.finishes[h].body) { assert BodyOk(s, s.finishes[h].body); }
  }

  /** Most steps of a worker change nothing of all this. */
  predicate SameKnowledge(s: State, t: State) {
    && t.gets == s.gets && t.posts == s.posts && t.docLen == s.docLen && t.syncOf == s.syncOf
    && s.docs <= t.docs && s.seen <= t.seen
    && t.workers.Keys == s.workers.Keys
    && (forall w :: w in s.workers ==> t.workers[w].nonceCh == s.workers[w].nonceCh)
    && t.sessions.Keys == s.sessions.Keys
    && (forall n :: n in s.sessions ==>
          && t.sessions[n].worker == s.sessions[n].worker && t.sessions[n].takenBy == s.sessions[n].takenBy
          && t.sessions[n].leadersNonce == s.sessions[n].leadersNonce)
    && t.finishes.Keys == s.finishes.Keys
    && (forall h :: h in s.finishes ==>
          t.finishes[h].body == s.finishes[h].body && t.finishes[h].worker == s.finishes[h].worker)
  }

  lemma SameKeeps(s: State, t: State)
    requires Known(s) && SameKnowledge(s, t)
    ensures Known(t)
  {
    BodiesStay(s, t);
  }

  lemma RequestKeeps(s: State, t: State)
    requires Known(s) && t == s.(gets := t.gets, posts := t.posts, docs := t.docs, seen := t.seen)
    requires s.docs <= t.docs && s.seen <= t.seen
    requires forall g :: g in t.gets ==> g in s.gets || g.leadersNonce in t.seen
    requires forall p :: p in t.posts ==> p in s.posts || BodyOk(t, p.body)
    ensures Known(t)
  {
    forall p | p in t.posts ensures BodyOk(t, p.body) { if p in s.posts { assert BodyOk(s, p.body); } }
    forall h | h in t.finishes ensures BodyOk(t, t.finishes[h].body) { assert BodyOk(s, s.finishes[h].body); }
  }

  lemma PushNonceKeepsKnown(s: State, get: Get, n: Nonce)
    requires Known(s) && CanPushNonce(s, get, n)
    ensures Known(DoPushNonce(s, get, n))
  {
    var t := DoPushNonce(s, get, n);
    BodiesStay(s, t);
    assert n !in s.sessions;
    assert forall g :: g in t.gets ==> g in s.gets;
  }

  lemma TakeNonceKeepsKnown(s: State, post: Post, h: HandlerId)
    requires Known(s) && CanTakeNonce(s, post, h)
    ensures Known(DoTakeNonce(s, post, h))
  {
    var t := DoTakeNonce(s, post, h);
    forall p | p in t.posts ensures BodyOk(t, p.body) { assert p in s.posts && BodyOk(s, p.body); }
    forall g | g in t.finishes ensures BodyOk(t, t.finishes[g].body) {
      if g == h { assert BodyOk(s, post.body); } else { assert BodyOk(s, s.finishes[g].body); }
    }
  }

  lemma VerifyPostTeachesNothing(s: State, h: HandlerId, fails: bool)
    requires CanVerifyPost(s, h)
    ensures SameKnowledge(s, DoVerifyPost(s, h, fails))
  {
  }

  lemma FinishKeepsKnown(s: State, l: Label)
    requires Known(s) && OfFinish(l) && WorkerEnabled(s, l)
    ensures Known(WorkerEffect(s, l))
  {
    match l {
      case TakeNonce(post, h) => TakeNonceKeepsKnown(s, post, h);
      case VerifyPost(h, fails) => VerifyPostTeachesNothing(s, h, fails); SameKeeps(s, DoVerifyPost(s, h, fails));
      case PopKey(h) => PopKeyTeachesNothing(s, h); SameKeeps(s, DoPopKey(s, h));
      case Install(h) => InstallTeachesNothing(s, h); SameKeeps(s, DoInstall(s, h));
    }
  }

  lemma PopKeyTeachesNothing(s: State, h: HandlerId)
    requires CanPopKey(s, h)
    ensures SameKnowledge(s, DoPopKey(s, h))
  {
  }

  lemma InstallTeachesNothing(s: State, h: HandlerId)
    requires CanInstall(s, h)
    ensures SameKnowledge(s, DoInstall(s, h))
  {
    match s.workers[s.finishes[h].worker].log[s.finishes[h].pc.index].plain {
      case Garbage =>
      case KeysJson(snap) => InstallKeysTeachesNothing(s, h, snap);
    }
  }

  lemma InstallKeysTeachesNothing(s: State, h: HandlerId, snap: Snapshot)
    requires CanInstall(s, h)
    ensures SameKnowledge(s, InstallKeys(s, h, snap))
  {
  }

  lemma RequestKeepsKnown(s: State, l: Label)
    requires Known(s) && OfRequest(l) && WorkerEnabled(s, l)
    ensures Known(WorkerEffect(s, l))
  {
    match l {
      case GetArrives(w, n) => RequestKeeps(s, DoGetArrives(s, w, n));
      case PostArrives(post) => RequestKeeps(s, DoPostArrives(s, post));
      case ClientAttstn(n, x) => RequestKeeps(s, DoClientAttstn(s, n, x));
    }
  }

  lemma AbortTeachesNothing(s: State, n: Nonce)
    requires n in s.sessions
    ensures SameKnowledge(s, DoAbort(s, n))
  {
  }

  lemma PushKeyTeachesNothing(s: State, n: Nonce, k: BoxKey)
    requires CanPushKey(s, n, k)
    ensures SameKnowledge(s, DoPushKey(s, n, k))
  {
  }

  lemma AnswerGetTeachesNothing(s: State, n: Nonce)
    requires CanAnswerGet(s, n)
    ensures SameKnowledge(s, DoAnswerGet(s, n))
  {
  }

  lemma InitKeepsKnown(s: State, l: Label)
    requires Known(s) && OfInit(l) && WorkerEnabled(s, l)
    ensures Known(WorkerEffect(s, l))
  {
    match l {
      case PushNonce(get, n) => PushNonceKeepsKnown(s, get, n);
      case BoxKeyFails(n) => AbortTeachesNothing(s, n); SameKeeps(s, DoAbort(s, n));
      case AttstnFails(n) => AbortTeachesNothing(s, n); SameKeeps(s, DoAbort(s, n));
      case PushKey(n, k) => PushKeyTeachesNothing(s, n, k); SameKeeps(s, DoPushKey(s, n, k));
      case AnswerGet(n) => AnswerGetTeachesNothing(s, n); SameKeeps(s, DoAnswerGet(s, n));
    }
  }

  lemma WorkerKeepsKnown(s: State, l: Label)
    requires Known(s) && !OfLeader(l) && WorkerEnabled(s, l)
    ensures Known(WorkerEffect(s, l))
  {
    if OfRequest(l) {
      RequestKeepsKnown(s, l);
    } else if OfFinish(l) {
      FinishKeepsKnown(s, l);
    } else {
      InitKeepsKnown(s, l);
    }
  }

  lemma StepKeepsKnown(s: State, l: Label)
    requires Known(s) && Enabled(s, l)
    ensures Known(Apply(s, l))
  {
    if OfLeader(l) { LeaderKeepsKnown(s, l); } else { WorkerKeepsKnown(s, l); }
  }

  lemma {:induction false} ReachableKnown(s0: State, trace: seq<Label>, s: State)
    requires Reaches(s0, trace, s)
    ensures Known(s)
  {
    if trace == [] {
      InitKnown(s);
    } else {
      var before := Execute(s0, trace[..|trace| - 1]).value;
      ReachableKnown(s0, trace[..|trace| - 1], before);
      StepKeepsKnown(before, trace[|trace| - 1]);
    }
  }

  lemma InitKnown(s: State)
    requires Init(s)
    ensures Known(s)
  {
  }

  // ------------------------------------------------------------- the leader's keys

  /** There are no application keys before the first PUT. */
  predicate EmptyAtFirst(snap: Snapshot) {
    snap.version == 0 ==> snap.keys.appKeys == []
  }

  predicate KeysBounded(s: State) {
    && |s.leader.keys.appKeys| <= MAX_KEY_MATERIAL_LEN
    && EmptyAtFirst(Snapshot(s.leader.version, s.leader.keys))
    && forall i :: 0 <= i < |s.history| ==> EmptyAtFirst(s.history[i])
  }

  lemma StepKeepsBounds(s: State, l: Label)
    requires KeysBounded(s) && Enabled(s, l)
    ensures KeysBounded(Apply(s, l))
  {
    if OfLeader(l) { LeaderLeaves(s, l); } else { WorkerLeaves(s, l); }
    BoundsStay(s, l, Effect(s, l));
  }

  lemma BoundsStay(s: State, l: Label, t: State)
    requires KeysBounded(s) && Enabled(s, l) && (!l.Put? ==> KeysUntouched(s, t))
    requires l.Put? ==> t == DoPut(s, l.appKeys)
    ensures KeysBounded(Ticked(s, t))
  {
    var h := Ticked(s, t).history;
    forall i | 0 <= i < |h| ensures EmptyAtFirst(h[i]) {
      if i < |s.history| { assert EmptyAtFirst(s.history[i]); }
    }
  }

  lemma {:induction false} ReachableBounds(s0: State, trace: seq<Label>, s: State)
    requires Reaches(s0, trace, s)
    ensures KeysBounded(s)
  {
    if trace != [] {
      var before := Execute(s0, trace[..|trace| - 1]).value;
      ReachableBounds(s0, trace[..|trace| - 1], before);
      StepKeepsBounds(before, trace[|trace| - 1]);
    }
  }
}
