/** The two models of a worker's handlers agree: run alone, the steps of the protocol model do
    to the channels what the handlers do on bytes, and stop where those stop. */
module SyncHandlers {
  import opened Common
  import opened SyncProtocol
  import opened SyncInvariant
  import opened SyncSteps
  import opened SyncTheorems
  import opened SyncProgress
  import opened SyncAbstraction
  import A = Attestation
  import W = WorkerSession

  /** How everything that a handler works with is written: atoms, the private halves of box
      keys, ciphertexts, and what they hold. */
  datatype Writing = Writing(codec: Codec, priv: BoxKey -> Bytes, blob: Blob -> Bytes, text: Plain -> Bytes)

  function KeyOf(x: Writing, k: BoxKey): W.BoxKey {
    W.BoxKey(x.codec.key(k), x.priv(k))
  }

  /** A worker's channels. */
  function Chans(x: Writing, s: State, w: WorkerId): W.Channels
    requires w in s.workers
  {
    W.Channels(if s.workers[w].nonceCh.None? then None else Some(x.codec.nonce(s.workers[w].nonceCh.value)),
               if s.workers[w].keyCh.None? then None else Some(KeyOf(x, s.workers[w].keyCh.value)))
  }

  // ---------------------------------------------------------------------- GET

  /** The zero nonce stands for no nonce. */
  predicate IsGet(x: Writing, g: W.Get, leadersNonce: Nonce) {
    if g.leadersNonce.Some? then g.leadersNonce.value == x.codec.nonce(leadersNonce)
    else x.codec.nonce(leadersNonce) == W.ZERO_NONCE
  }

  /** A GET gets past the in-progress check on both sides or on neither, and then past the
      nonce channel. */
  lemma GetStopsAlike(x: Writing, s: State, w: WorkerId, leadersNonce: Nonce, n: Nonce, g: W.Get)
    requires w in s.workers && IsGet(x, g, leadersNonce) && g.random.Some? && Fresh(s, n) && n != leadersNonce
    ensures CanGetArrives(s, w) <==> W.InitStep(Chans(x, s, w), g).1 != W.Replied(W.TooManyRequests)
    ensures CanGetArrives(s, w) ==>
      (CanPushNonce(Apply(s, GetArrives(w, leadersNonce)), Get(w, leadersNonce), n)
       <==> W.InitStep(Chans(x, s, w), g).1 != W.WaitsToPushNonce)
  {
  }

  /** A GET that finds the channels empty: both sides leave the same in them and issue the
      same document, for every way in which the handler can go. */
  lemma GetGoesAlike(x: Writing, s: State, w: WorkerId, leadersNonce: Nonce, n: Nonce, k: BoxKey, g: W.Get)
    returns (p: Path)
    requires w in s.workers && s.workers[w].nonceCh.None? && s.workers[w].keyCh.None?
    requires IsGet(x, g, leadersNonce) && Fresh(s, n) && n != leadersNonce && k !in s.boxKeys
    requires g.random == Some(x.codec.nonce(n)) && (g.boxKey.Some? ==> g.boxKey.value == KeyOf(x, k))
    ensures p.Valid() && p.Start() == s && w in p.End().workers
    ensures p.labels == [GetArrives(w, leadersNonce), PushNonce(Get(w, leadersNonce), n)]
                        + if g.boxKey.None? then [BoxKeyFails(n)]
                          else [PushKey(n, k), if g.device then AnswerGet(n) else AttstnFails(n)]
    ensures Chans(x, p.End(), w) == W.InitStep(Chans(x, s, w), g).0
    ensures var o := W.InitStep(Chans(x, s, w), g).1; var d := WorkerDoc(n, leadersNonce, k);
      if g.boxKey.Some? && g.device then
        && p.End().docs == s.docs + {d}
        && o == W.Replied(W.Document(A.CreateAttstn(AuxOf(x.codec, d)), g.leadersNonce.None?))
      else p.End().docs == s.docs && o.Replied? && !o.reply.Document?
  {
    p := NonceAlone(s, w, leadersNonce, n);
    if g.boxKey.None? {
      p := Go(p, BoxKeyFails(n));
    } else {
      p := KeyAlone(p, w, leadersNonce, n, k, g.device);
    }
  }

  lemma NonceAlone(s: State, w: WorkerId, leadersNonce: Nonce, n: Nonce) returns (p: Path)
    requires w in s.workers && s.workers[w].nonceCh.None? && s.workers[w].keyCh.None?
    requires Fresh(s, n) && n != leadersNonce
    ensures p.Valid() && p.Start() == s && p.labels == [GetArrives(w, leadersNonce), PushNonce(Get(w, leadersNonce), n)]
    ensures var t := p.End();
      && t.workers == s.workers[w := s.workers[w].(nonceCh := Some(n))] && t.docs == s.docs && t.boxKeys == s.boxKeys
      && n in t.sessions && t.sessions[n].worker == w && t.sessions[n].leadersNonce == leadersNonce
      && t.sessions[n].pc == NoncePushed
  {
    p := Go(Path([s], []), GetArrives(w, leadersNonce));
    p := Go(p, PushNonce(Get(w, leadersNonce), n));
  }

  lemma KeyAlone(p: Path, w: WorkerId, leadersNonce: Nonce, n: Nonce, k: BoxKey, device: bool) returns (q: Path)
    requires p.Valid() && n in p.End().sessions && w in p.End().workers
    requires var s := p.End();
      && s.sessions[n].worker == w && s.sessions[n].leadersNonce == leadersNonce && s.sessions[n].pc == NoncePushed
      && s.workers[w].keyCh.None? && k !in s.boxKeys
    ensures q.Valid() && q.Start() == p.Start()
    ensures q.labels == p.labels + [PushKey(n, k), if device then AnswerGet(n) else AttstnFails(n)]
    ensures q.End().workers == p.End().workers[w := p.End().workers[w].(keyCh := Some(k))]
    ensures q.End().docs == p.End().docs + if device then {WorkerDoc(n, leadersNonce, k)} else {}
  {
    q := Go(p, PushKey(n, k));
    if device {
      q := Go(q, AnswerGet(n));
    } else {
      q := Go(q, AttstnFails(n));
    }
  }

  // --------------------------------------------------------------------- POST

  /** The bytes of a POST that can be read. */
  predicate IsPost(x: Writing, b: Body, pcrs: A.PCRs, p: W.Post) {
    && p.length <= 21848 && p.jsonOk == !b.jsonError
    && p.document == Some(if b.doc.None? then None else Some(SignedDoc(x.codec, b.doc.value, pcrs)))
    && p.encrypted == if b.blob.None? then None else Some(x.blob(b.blob.value))
  }

  /** Hashing as the protocol model has it. */
  ghost predicate Hashes(x: Writing, env: W.Env) {
    forall b :: env.sha256(x.blob(b)) == x.codec.digest(Sha256(b))
  }

  /** The atoms that a POST to w brings together. */
  ghost predicate Suffice(a: Atoms, s: State, w: WorkerId, b: Body) {
    && w in s.workers && (s.workers[w].nonceCh.Some? ==> s.workers[w].nonceCh.value in a.nonces)
    && (b.doc.Some? ==> b.doc.value in s.docs && Covers(a, b.doc.value))
    && (b.blob.Some? ==> Sha256(b.blob.value) in a.digests)
  }

  /** Whether a POST is certified comes out the same on both sides. */
  lemma CertifiesAlike(x: Writing, a: Atoms, env: W.Env, pcrs: A.PCRs, docs: set<Doc>, f: Finish, p: W.Post)
    requires Faithful(x.codec, a) && Hashes(x, env) && env.pcrs.Some? && A.SameImage(env.pcrs.value, pcrs)
    requires f.nonce in a.nonces && IsPost(x, f.body, pcrs, p)
    requires f.body.doc.Some? ==> f.body.doc.value in docs && Covers(a, f.body.doc.value)
    requires f.body.blob.Some? ==> Sha256(f.body.blob.value) in a.digests
    ensures W.Certifies(env, p, x.codec.nonce(f.nonce)) <==> PassesChecks(docs, f)
  {
    if f.body.doc.Some? && f.body.blob.Some? {
      A.MatchesIff(env.pcrs.value, pcrs);
      DocChecksAgree(x.codec, a, docs, f, pcrs, env.pcrs.value);
      W.PassesIff(env, p, x.codec.nonce(f.nonce));
    }
  }

  /** How far a POST gets when its handler runs alone: it waits for a nonce, fails, or decrypts;
      and what it leaves in the channels. */
  predicate RanAlone(s: State, post: Post, h: HandlerId, p: Path) {
    && post.worker in s.workers && p.Valid() && p.Start() == s && post.worker in p.End().workers
    && var x, y := s.workers[post.worker], p.End().workers[post.worker];
       match x.nonceCh
       case None =>
         && p.labels == [PostArrives(post)] && post in p.End().posts
         && y.nonceCh == x.nonceCh && y.keyCh == x.keyCh
       case Some(n) =>
         if PassesChecks(s.docs, Finish(post.worker, post.body, n, TookNonce)) then
           && p.labels == [PostArrives(post), TakeNonce(post, h), VerifyPost(h, false), PopKey(h)]
           && y.nonceCh == None && y.keyCh == None
         else
           && p.labels == [PostArrives(post), TakeNonce(post, h), VerifyPost(h, false)]
           && y.nonceCh == None && y.keyCh == x.keyCh
           && h in p.End().finishes && p.End().finishes[h].pc == Ended
  }

  lemma PostAlone(s: State, post: Post, h: HandlerId) returns (p: Path)
    requires Inv(s) && CanPostArrive(s, post) && h !in s.finishes
    ensures RanAlone(s, post, h, p)
  {
    if s.workers[post.worker].nonceCh.None? {
      p := Go(Path([s], []), PostArrives(post));
    } else {
      p := HandlerAlone(s, post, h);
    }
  }

  lemma HandlerAlone(s: State, post: Post, h: HandlerId) returns (p: Path)
    requires Inv(s) && CanPostArrive(s, post) && h !in s.finishes && s.workers[post.worker].nonceCh.Some?
    ensures RanAlone(s, post, h, p)
  {
    assert NonceChOk(s.sessions, post.worker, s.workers[post.worker]);
    p := CheckAlone(s, post, h);
    if p.End().finishes[h].pc == Passed {
      InvAlong(p, |p.states| - 1);
      p := PopAlone(p, post.worker, h);
    }
  }

  lemma CheckAlone(s: State, post: Post, h: HandlerId) returns (p: Path)
    requires CanPostArrive(s, post) && h !in s.finishes && s.workers[post.worker].nonceCh.Some?
    requires s.workers[post.worker].nonceCh.value in s.sessions
    ensures p.Valid() && p.Start() == s
    ensures p.labels == [PostArrives(post), TakeNonce(post, h), VerifyPost(h, false)]
    ensures var n := s.workers[post.worker].nonceCh.value;
      && p.End().workers == s.workers[post.worker := s.workers[post.worker].(nonceCh := None)]
      && h in p.End().finishes && p.End().finishes[h].worker == post.worker
      && p.End().finishes[h].body == post.body
      && p.End().finishes[h].pc ==
           if PassesChecks(s.docs, Finish(post.worker, post.body, n, TookNonce)) then Passed else Ended
  {
    p := TakeAlone(s, post, h);
    p := Go(p, VerifyPost(h, false));
  }

  lemma TakeAlone(s: State, post: Post, h: HandlerId) returns (p: Path)
    requires CanPostArrive(s, post) && h !in s.finishes && s.workers[post.worker].nonceCh.Some?
    requires s.workers[post.worker].nonceCh.value in s.sessions
    ensures p.Valid() && p.Start() == s && p.labels == [PostArrives(post), TakeNonce(post, h)]
    ensures var n := s.workers[post.worker].nonceCh.value;
      && p.End().workers == s.workers[post.worker := s.workers[post.worker].(nonceCh := None)]
      && p.End().finishes == s.finishes[h := Finish(post.worker, post.body, n, TookNonce)]
      && p.End().docs == s.docs
  {
    p := Go(Path([s], []), PostArrives(post));
    p := Go(p, TakeNonce(post, h));
  }

  lemma {:induction false} InvAlong(p: Path, i: nat)
    requires p.Valid() && Inv(p.Start()) && i < |p.states|
    ensures Inv(p.states[i])
  {
    if i > 0 {
      var k := i - 1;
      InvAlong(p, k);
      assert Link(p.states[k], p.labels[k], p.states[k + 1]);
      StepKeeps(p.states[k], p.labels[k]);
    }
  }

  lemma PopAlone(p: Path, w: WorkerId, h: HandlerId) returns (q: Path)
    requires p.Valid() && Inv(p.End()) && h in p.End().finishes
    requires p.End().finishes[h].pc == Passed && p.End().finishes[h].worker == w
    ensures q.Valid() && q.Start() == p.Start() && q.labels == p.labels + [PopKey(h)]
    ensures w in p.End().workers && w in q.End().workers
    ensures q.End().workers[w].nonceCh == p.End().workers[w].nonceCh && q.End().workers[w].keyCh == None
  {
    PassedFinds(p.End(), h);
    q := Go(p, PopKey(h));
  }

  /** A POST, in every reachable state: run alone, both sides leave the same in the channels,
      and one waits for a nonce iff the other does. */
  lemma PostGoesAlike(x: Writing, a: Atoms, env: W.Env, pcrs: A.PCRs, s0: State, trace: seq<Label>, s: State,
                      post: Post, h: HandlerId, b: W.Post) returns (p: Path)
    requires Reaches(s0, trace, s) && CanPostArrive(s, post) && h !in s.finishes
    requires Faithful(x.codec, a) && Hashes(x, env) && env.pcrs.Some? && A.SameImage(env.pcrs.value, pcrs)
    requires IsPost(x, post.body, pcrs, b) && Suffice(a, s, post.worker, post.body)
    ensures RanAlone(s, post, h, p)
    ensures Chans(x, p.End(), post.worker) == W.FinishChannels(env, Chans(x, s, post.worker), b)
    ensures p.labels == [PostArrives(post)] <==> W.FinishOutcome(env, Chans(x, s, post.worker), b) == W.WaitsForNonce
  {
    ReachableInv(s0, trace, s);
    p := PostAlone(s, post, h);
    ChannelsAgree(x, a, env, pcrs, s, post, h, p, b);
  }

  lemma ChannelsAgree(x: Writing, a: Atoms, env: W.Env, pcrs: A.PCRs, s: State, post: Post, h: HandlerId,
                      p: Path, b: W.Post)
    requires RanAlone(s, post, h, p)
    requires Faithful(x.codec, a) && Hashes(x, env) && env.pcrs.Some? && A.SameImage(env.pcrs.value, pcrs)
    requires IsPost(x, post.body, pcrs, b) && Suffice(a, s, post.worker, post.body)
    ensures Chans(x, p.End(), post.worker) == W.FinishChannels(env, Chans(x, s, post.worker), b)
    ensures p.labels == [PostArrives(post)] <==> W.FinishOutcome(env, Chans(x, s, post.worker), b) == W.WaitsForNonce
  {
    var c := Chans(x, s, post.worker);
    W.PostTransitions(env, c, b);
    W.PostOutcomes(env, c, b);
    if s.workers[post.worker].nonceCh.Some? {
      var n := s.workers[post.worker].nonceCh.value;
      CertifiesAlike(x, a, env, pcrs, s.docs, Finish(post.worker, post.body, n, TookNonce), b);
    }
  }

  // -------------------------------------------------- a POST through to its answer

  /** Boxes and key sets as the protocol model has them. */
  ghost predicate Opens(x: Writing, env: W.Env) {
    && (forall b, k :: env.open(x.blob(b), KeyOf(x, k)) ==
          if b.Sealed? && b.recipient == k then Some(x.text(b.plain)) else None)
    && (forall q :: env.parseKeys(x.text(q)) == if q.KeysJson? then Some(q.snap.keys) else None)
  }

  /** The worker's keys after the POST. */
  function KeysLeft(env: W.Env, c: W.Channels, b: W.Post, keys: KeySet): KeySet {
    match W.FinishKeys(env, c, b)
    case None => keys
    case Some(k) => k
  }

  /** The handler is through, and its keys and its answer are those of the handler on bytes. */
  predicate EndsAlike(x: Writing, env: W.Env, s: State, post: Post, h: HandlerId, b: W.Post, p: Path) {
    && post.worker in s.workers && p.Valid() && p.Start() == s && post.worker in p.End().workers
    && var c := Chans(x, s, post.worker);
       && p.End().workers[post.worker].keys == KeysLeft(env, c, b, s.workers[post.worker].keys)
       && ((h in p.End().finishes && Answers200(p.End().finishes[h]))
           <==> W.FinishOutcome(env, c, b) == W.Replied(W.OK))
  }

  /** A POST that gets as far as decrypting installs the same keys on both sides; and it is
      answered 200 on one side iff it is on the other. */
  lemma PostEndsAlike(x: Writing, a: Atoms, env: W.Env, pcrs: A.PCRs, s0: State, trace: seq<Label>, s: State,
                      post: Post, h: HandlerId, b: W.Post) returns (p: Path)
    requires Reaches(s0, trace, s) && CanPostArrive(s, post) && h !in s.finishes
    requires Faithful(x.codec, a) && Hashes(x, env) && env.pcrs.Some? && A.SameImage(env.pcrs.value, pcrs)
    requires IsPost(x, post.body, pcrs, b) && Suffice(a, s, post.worker, post.body) && Opens(x, env)
    ensures EndsAlike(x, env, s, post, h, b, p)
  {
    ReachableInv(s0, trace, s);
    if s.workers[post.worker].nonceCh.None? {
      p := WaiterEndsAlike(x, env, s, post, h, b);
    } else {
      p := HandlerEndsAlike(x, a, env, pcrs, s, post, h, b);
    }
  }

  lemma WaiterEndsAlike(x: Writing, env: W.Env, s: State, post: Post, h: HandlerId, b: W.Post) returns (p: Path)
    requires CanPostArrive(s, post) && h !in s.finishes && s.workers[post.worker].nonceCh.None?
    ensures EndsAlike(x, env, s, post, h, b, p)
  {
    var c := Chans(x, s, post.worker);
    NothingInstalled(env, c, b);
    OkMeansInstalled(env, c, b);
    p := Go(Path([s], []), PostArrives(post));
  }

  lemma HandlerEndsAlike(x: Writing, a: Atoms, env: W.Env, pcrs: A.PCRs, s: State, post: Post, h: HandlerId, b: W.Post)
    returns (p: Path)
    requires Inv(s) && CanPostArrive(s, post) && h !in s.finishes && s.workers[post.worker].nonceCh.Some?
    requires Faithful(x.codec, a) && Hashes(x, env) && env.pcrs.Some? && A.SameImage(env.pcrs.value, pcrs)
    requires IsPost(x, post.body, pcrs, b) && Suffice(a, s, post.worker, post.body) && Opens(x, env)
    ensures EndsAlike(x, env, s, post, h, b, p)
  {
    var c := Chans(x, s, post.worker);
    assert NonceChOk(s.sessions, post.worker, s.workers[post.worker]);
    var n := s.workers[post.worker].nonceCh.value;
    CertifiesAlike(x, a, env, pcrs, s.docs, Finish(post.worker, post.body, n, TookNonce), b);
    OkMeansInstalled(env, c, b);
    p := CheckAlone(s, post, h);
    if p.End().finishes[h].pc == Passed {
      InvAlong(p, |p.states| - 1);
      OpensAlike(x, env, p.End(), h, c, b);
      p := InstallAlone(p, post.worker, h);
    } else {
      NothingInstalled(env, c, b);
    }
  }

  lemma OkMeansInstalled(env: W.Env, c: W.Channels, b: W.Post)
    ensures W.FinishOutcome(env, c, b) == W.Replied(W.OK) <==> W.FinishKeys(env, c, b).Some? && b.jsonOk
  {
    W.PostOutcomes(env, c, b);
  }

  lemma NothingInstalled(env: W.Env, c: W.Channels, b: W.Post)
    requires c.nonce.None? || !W.Certifies(env, b, c.nonce.value)
    ensures W.FinishKeys(env, c, b) == None
  {
    if c.nonce.Some? { W.PassesIff(env, b, c.nonce.value); }
  }

  /** The key set in the ciphertext of a handler that passed. */
  lemma OpensAlike(x: Writing, env: W.Env, s: State, h: HandlerId, c: W.Channels, b: W.Post)
    requires Inv(s) && h in s.finishes && s.finishes[h].pc == Passed && Opens(x, env)
    requires s.finishes[h].worker in s.workers && c.key == Chans(x, s, s.finishes[h].worker).key
    requires b.length <= 21848 && c.nonce.Some? && W.Certifies(env, b, c.nonce.value)
    requires s.finishes[h].body.blob.Some? && b.encrypted == Some(x.blob(s.finishes[h].body.blob.value))
    ensures s.finishes[h].body.blob.value.Sealed? && s.finishes[h].body.blob.value.plain.KeysJson?
    ensures W.FinishKeys(env, c, b) == Some(s.finishes[h].body.blob.value.plain.snap.keys)
  {
    PassedHasKey(s, h);
    assert FinishOk(s, h);
    CertifiedMeans(s, h);
    W.InstallsIff(env, c, b, s.finishes[h].body.blob.value.plain.snap.keys);
  }

  lemma InstallAlone(p: Path, w: WorkerId, h: HandlerId) returns (q: Path)
    requires p.Valid() && Inv(p.End()) && h in p.End().finishes && w in p.End().workers
    requires p.End().finishes[h].pc == Passed && p.End().finishes[h].worker == w
    requires var b := p.End().finishes[h].body.blob; b.Some? && b.value.Sealed? && b.value.plain.KeysJson?
    ensures q.Valid() && q.Start() == p.Start() && q.labels == p.labels + [PopKey(h), Install(h)]
    ensures w in q.End().workers && h in q.End().finishes
    ensures q.End().workers[w].keys == p.End().finishes[h].body.blob.value.plain.snap.keys
    ensures q.End().finishes[h].pc.Installed? && q.End().finishes[h].body == p.End().finishes[h].body
  {
    q := OpenAlone(p, w, h);
    q := Go(q, Install(h));
  }

  lemma OpenAlone(p: Path, w: WorkerId, h: HandlerId) returns (q: Path)
    requires p.Valid() && Inv(p.End()) && h in p.End().finishes && w in p.End().workers
    requires p.End().finishes[h].pc == Passed && p.End().finishes[h].worker == w
    ensures q.Valid() && q.Start() == p.Start() && q.labels == p.labels + [PopKey(h)]
    ensures w in q.End().workers && h in q.End().finishes
    ensures var f, i := q.End().finishes[h], |p.End().workers[w].log|;
      && f.worker == w && f.body == p.End().finishes[h].body && f.body.blob.Some? && f.body.blob.value.Sealed?
      && f.pc == Opened(i) && i < |q.End().workers[w].log|
      && q.End().workers[w].log[i].plain == f.body.blob.value.plain
  {
    PassedHasKey(p.End(), h);
    PassedFinds(p.End(), h);
    q := Go(p, PopKey(h));
  }
}
