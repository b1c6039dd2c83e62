/** The key-synchronization protocol between one leader enclave and any number of
    worker enclaves, as a labelled transition system.

    Every statement of a handler that touches shared state (a channel, the
    leader's keys, the worker registry, the hypervisor) is one step; steps of all
    handlers interleave freely.  The network is hostile: any GET and any POST may
    reach any worker at any time, and any document may answer the leader.  Assumed of
    the outside world are these: the hypervisor signs just the documents that were
    requested from it, and nobody has a document before it is signed; nonces and box
    keys are fresh; a sealed box opens only with the key that it was sealed for; and a
    200 that the leader hears is the addressed worker's answer to the posted request
    or a copy of it. */
module SyncProtocol {
  import opened Common
  import opened SyncBudget

  type WorkerId = nat
  type HandlerId = nat
  type SyncId = nat
  type BoxKey = nat   // A key pair; the public half is represented by the same number.
  type Nonce = nat
  type Time = nat

  // The nonce that initSync carries on with when the request had none.
  const ZERO_NONCE: Nonce := 0

  /** The leader's keys together with the number of PUTs that led to them. */
  datatype Snapshot = Snapshot(version: nat, keys: KeySet)

  /** As JSON: there are no application keys before the first PUT. */
  function Raw(snap: Snapshot): RawKeys {
    RawKeys(Some(snap.keys.nitridingKey), Some(snap.keys.nitridingCert),
            if snap.version == 0 then None else Some(snap.keys.appKeys))
  }

  datatype Plain = KeysJson(snap: Snapshot) | Garbage

  /** A ciphertext.  Sealing draws an ephemeral sender key, so that two calls
      never yield the same box; the sender key of an honest call carries the
      number of the call.  Everybody can seal anything for anybody. */
  datatype Blob = Sealed(recipient: BoxKey, sender: nat, plain: Plain) | Noise(id: nat)

  /** SHA-256 without collisions. */
  datatype Digest = Sha256(blob: Blob)

  /** Attestation documents by the role that requested them. */
  datatype Doc =
    | WorkerDoc(workersNonce: Nonce, leadersNonce: Nonce, publicKey: BoxKey)
    | LeaderDoc(workersNonce: Nonce, hashOfEncrypted: Digest)
    | ClientDoc(clientNonce: Nonce, hashes: nat)

  /** What verifyAttstn hands back.  A client's document is taken for a leader's;
      its hash field is then no SHA-256 digest. */
  datatype Aux =
    | Rejected
    | WorkerAux(workersNonce: Nonce, leadersNonce: Nonce, publicKey: BoxKey)
    | LeaderAux(workersNonce: Nonce, hashOfEncrypted: Option<Digest>)

  function VerifyAttstn(issued: set<Doc>, doc: Option<Doc>, ourNonce: Nonce): Aux {
    if doc.None? || doc.value !in issued then Rejected
    else match doc.value
      case WorkerDoc(wn, ln, pk) => if ln == ourNonce then WorkerAux(wn, ln, pk) else Rejected
      case LeaderDoc(wn, h) => if wn == ourNonce then LeaderAux(wn, Some(h)) else Rejected
      case ClientDoc(n, _) => if n == ourNonce then LeaderAux(n, None) else Rejected
  }

  // ---------------------------------------------------------------- worker

  datatype Get = Get(worker: WorkerId, leadersNonce: Nonce)

  /** The body of a POST: whether its JSON raised an error, its document (None if the
      hypervisor did not sign it) and its ciphertext (None if it is no Base64). */
  datatype Body = Body(jsonError: bool, doc: Option<Doc>, blob: Option<Blob>)

  /** finishSync can read the body: a leader's document and sealed keys have to fit;
      everything else has a form that is short enough. */
  predicate Readable(docLen: nat, b: Body) {
    && b.doc.Some? && b.doc.value.LeaderDoc? && b.blob.Some? && b.blob.value.Sealed?
    && b.blob.value.plain.KeysJson?
    ==> Fits(docLen, Raw(b.blob.value.plain.snap))
  }

  datatype Post = Post(worker: WorkerId, body: Body)

  /** An initSync handler that has put its nonce in the channel. */
  datatype InitPc = NoncePushed | KeyPushed | Answered | Aborted
  datatype Session = Session(
    worker: WorkerId,
    leadersNonce: Nonce,
    pc: InitPc,
    takenBy: Option<HandlerId>, // The finishSync handler that took our nonce.
    key: Option<BoxKey>,        // The key that we put in the channel.
    pushedAt: Time,             // When we put it there.
    issuedAt: Option<Time>,     // When our document was issued.
    poppedAt: Option<Time>)     // When our key was taken.

  /** A finishSync handler that has taken a nonce. */
  datatype FinishPc =
    | TookNonce
    | Passed
    | Opened(index: nat)
    | Installed(index: nat)
    | Ended
  datatype Finish = Finish(worker: WorkerId, body: Body, nonce: Nonce, pc: FinishPc)

  /** One decryption of key material by a worker. */
  datatype Opening = Opening(handler: HandlerId, nonce: Nonce, sync: SyncId, plain: Plain, at: Time)

  datatype Worker = Worker(
    nonceCh: Option<Nonce>,
    keyCh: Option<BoxKey>,
    keys: KeySet,
    version: Option<nat>,       // The version of `keys`; None before the first sync.
    log: seq<Opening>,          // All decryptions, in the order of the key pops.
    installs: seq<nat>)         // Positions in `log`, in the order of installation.

  // ---------------------------------------------------------------- leader

  datatype Origin = FromPut(version: nat) | FromHeartbeat
  datatype Heard = Heard(workersNonce: Nonce, publicKey: BoxKey)
  datatype Taken = Taken(snap: Snapshot, at: Time)

  /** A syncWith call. */
  datatype SyncPc =
    | AwaitingDoc
    | Verified
    | Snapped
    | Posted
    | Succeeded(handler: HandlerId)
    | Registered(handler: HandlerId)
    | Failed
    | Unregistered
  datatype Sync = Sync(
    worker: WorkerId, origin: Origin, nonce: Nonce, pc: SyncPc,
    heard: Option<Heard>, taken: Option<Taken>)

  /** The event loop either waits in its select statement or starts the calls of
      one fan-out. */
  datatype Loop = Select | FanningOut(version: nat, todo: set<WorkerId>)

  datatype Leader = Leader(
    keys: KeySet,
    version: nat,
    registry: set<WorkerId>,
    registering: multiset<WorkerId>,  // Heartbeat handlers waiting for the loop to register a worker.
    loop: Loop,
    targets: map<nat, set<WorkerId>>, // Per dispatched PUT, the registry at that time.
    crashed: bool)

  datatype State = State(
    docLen: nat,                      // The length of a leader's document; it never changes.
    workers: map<WorkerId, Worker>,
    gets: multiset<Get>,              // initSync handlers waiting for the nonce channel.
    sessions: map<Nonce, Session>,
    posts: multiset<Post>,            // finishSync handlers waiting for a nonce.
    finishes: map<HandlerId, Finish>,
    leader: Leader,
    syncs: map<SyncId, Sync>,
    // Ghost bookkeeping.
    docs: set<Doc>,                   // Every document ever signed.
    seen: set<Nonce>,                 // Every nonce that was drawn or named in a request.
    boxKeys: map<BoxKey, Nonce>,      // Every box key, with the session that drew it.
    syncOf: map<Nonce, SyncId>,       // The leader's nonces.
    calls: map<(nat, WorkerId), SyncId>, // The call that a fan-out made for a worker.
    history: seq<Snapshot>)           // The leader's keys after each step.

  function Now(s: State): Time {
    |s.history|
  }

  datatype Label =
    // A worker's initSync.
    | GetArrives(w: WorkerId, n: Nonce)
    | PushNonce(get: Get, n: Nonce)
    | BoxKeyFails(n: Nonce)
    | PushKey(n: Nonce, k: BoxKey)
    | AnswerGet(n: Nonce)
    | AttstnFails(n: Nonce)
    // A worker's finishSync.
    | PostArrives(post: Post)
    | TakeNonce(post: Post, h: HandlerId)
    | VerifyPost(h: HandlerId, fails: bool)
    | PopKey(h: HandlerId)
    | Install(h: HandlerId)
    // A client's request for attestation, at any enclave.
    | ClientAttstn(n: Nonce, hashes: nat)
    // The leader.
    | Put(appKeys: Bytes)
    | Dispatch(v: nat)
    | SpawnSync(w: WorkerId, sid: SyncId, n: Nonce)
    | DispatchDone
    | Heartbeat(w: WorkerId, hash: Option<Bytes>, sid: SyncId, n: Nonce)
    | Register(w: WorkerId)
    | Prune(w: WorkerId)
    | HearDoc(sid: SyncId, doc: Option<Doc>)
    | TakeSnapshot(sid: SyncId)
    | PostKeys(sid: SyncId)
    | HearOk(sid: SyncId, h: HandlerId)
    | SyncFails(sid: SyncId)
    | RegisterAfter(sid: SyncId)
    | UnregisterAfter(sid: SyncId)

  predicate Fresh(s: State, n: Nonce) {
    n != ZERO_NONCE && n !in s.seen
  }

  /** The ciphertext and the document that a syncWith call posts. */
  function BlobOf(sid: SyncId, y: Sync): Blob
    requires y.heard.Some? && y.taken.Some?
  {
    Sealed(y.heard.value.publicKey, sid, KeysJson(y.taken.value.snap))
  }

  function DocOf(sid: SyncId, y: Sync): Doc
    requires y.heard.Some? && y.taken.Some?
  {
    LeaderDoc(y.heard.value.workersNonce, Sha256(BlobOf(sid, y)))
  }

  /** The hash check of finishSync. */
  predicate PassesChecks(issued: set<Doc>, f: Finish) {
    var aux := VerifyAttstn(issued, f.body.doc, f.nonce);
    && aux.LeaderAux?
    && f.body.blob.Some?
    && aux.hashOfEncrypted == Some(Sha256(f.body.blob.value))
  }

  /** finishSync answers 200 iff it got to the end without having reported a JSON
      error on the way. */
  predicate Answers200(f: Finish) {
    f.pc.Installed? && !f.body.jsonError
  }

  predicate Running(y: Sync) {
    y.pc in {AwaitingDoc, Verified, Snapped, Posted}
  }

  function WithSession(s: State, n: Nonce, z: Session): State {
    s.(sessions := s.sessions[n := z])
  }

  function WithFinish(s: State, h: HandlerId, f: Finish): State {
    s.(finishes := s.finishes[h := f])
  }

  function WithSync(s: State, sid: SyncId, y: Sync): State {
    s.(syncs := s.syncs[sid := y])
  }

  // ------------------------------------------------------- steps of initSync

  // A GET is turned down while a key is in the channel.
  predicate CanGetArrives(s: State, w: WorkerId) {
    w in s.workers && s.workers[w].keyCh.None?
  }

  function DoGetArrives(s: State, w: WorkerId, n: Nonce): State {
    s.(gets := s.gets + multiset{Get(w, n)}, seen := s.seen + {n})
  }

  predicate CanPushNonce(s: State, get: Get, n: Nonce) {
    get in s.gets && get.worker in s.workers && s.workers[get.worker].nonceCh.None? && Fresh(s, n)
  }

  function DoPushNonce(s: State, get: Get, n: Nonce): State
    requires CanPushNonce(s, get, n)
  {
    var x := s.workers[get.worker];
    s.(gets := s.gets - multiset{get},
       seen := s.seen + {n},
       workers := s.workers[get.worker := x.(nonceCh := Some(n))],
       sessions := s.sessions[n :=
         Session(get.worker, get.leadersNonce, NoncePushed, None, None, 0, None, None)])
  }

  // Neither a box key nor a document is to be had: the handler gives up.
  predicate CanAbort(s: State, n: Nonce, pc: InitPc) {
    n in s.sessions && s.sessions[n].pc == pc
  }

  function DoAbort(s: State, n: Nonce): State
    requires n in s.sessions
  {
    WithSession(s, n, s.sessions[n].(pc := Aborted))
  }

  predicate CanPushKey(s: State, n: Nonce, k: BoxKey) {
    && n in s.sessions && s.sessions[n].pc == NoncePushed && k !in s.boxKeys
    && s.sessions[n].worker in s.workers && s.workers[s.sessions[n].worker].keyCh.None?
  }

  function DoPushKey(s: State, n: Nonce, k: BoxKey): State
    requires CanPushKey(s, n, k)
  {
    var z := s.sessions[n];
    var x := s.workers[z.worker];
    s.(boxKeys := s.boxKeys[k := n],
       workers := s.workers[z.worker := x.(keyCh := Some(k))],
       sessions := s.sessions[n := z.(pc := KeyPushed, key := Some(k), pushedAt := Now(s))])
  }

  predicate CanAnswerGet(s: State, n: Nonce) {
    n in s.sessions && s.sessions[n].pc == KeyPushed && s.sessions[n].key.Some?
  }

  function DoAnswerGet(s: State, n: Nonce): State
    requires CanAnswerGet(s, n)
  {
    var z := s.sessions[n];
    s.(docs := s.docs + {WorkerDoc(n, z.leadersNonce, z.key.value)},
       sessions := s.sessions[n := z.(pc := Answered, issuedAt := Some(Now(s)))])
  }

  // ----------------------------------------------------- steps of finishSync

  // A POST that is too long is turned down before it waits for anything.
  predicate CanPostArrive(s: State, post: Post) {
    && post.worker in s.workers && Readable(s.docLen, post.body)
    && (post.body.doc.Some? ==> post.body.doc.value in s.docs)
  }

  function DoPostArrives(s: State, post: Post): State {
    s.(posts := s.posts + multiset{post})
  }

  predicate CanTakeNonce(s: State, post: Post, h: HandlerId) {
    && post in s.posts && post.worker in s.workers
    && s.workers[post.worker].nonceCh.Some? && s.workers[post.worker].nonceCh.value in s.sessions
    && h !in s.finishes
  }

  function DoTakeNonce(s: State, post: Post, h: HandlerId): State
    requires CanTakeNonce(s, post, h)
  {
    var x := s.workers[post.worker];
    var n := x.nonceCh.value;
    s.(posts := s.posts - multiset{post},
       workers := s.workers[post.worker := x.(nonceCh := None)],
       sessions := s.sessions[n := s.sessions[n].(takenBy := Some(h))],
       finishes := s.finishes[h := Finish(post.worker, post.body, n, TookNonce)])
  }

  predicate CanVerifyPost(s: State, h: HandlerId) {
    h in s.finishes && s.finishes[h].pc == TookNonce
  }

  function DoVerifyPost(s: State, h: HandlerId, fails: bool): State
    requires CanVerifyPost(s, h)
  {
    var f := s.finishes[h];
    WithFinish(s, h, f.(pc := if PassesChecks(s.docs, f) && !fails then Passed else Ended))
  }

  predicate CanPopKey(s: State, h: HandlerId) {
    && h in s.finishes && s.finishes[h].pc == Passed && s.finishes[h].body.blob.Some?
    && s.finishes[h].worker in s.workers && s.workers[s.finishes[h].worker].keyCh.Some?
    && s.workers[s.finishes[h].worker].keyCh.value in s.boxKeys
    && s.boxKeys[s.workers[s.finishes[h].worker].keyCh.value] in s.sessions
  }

  /** The key is taken from the channel first; then the ciphertext is opened with
      it, which works iff it was sealed for that key. */
  function DoPopKey(s: State, h: HandlerId): State
    requires CanPopKey(s, h)
  {
    var f := s.finishes[h];
    var x := s.workers[f.worker];
    var k := x.keyCh.value;
    var n := s.boxKeys[k];
    var blob := f.body.blob.value;
    var opens := blob.Sealed? && blob.recipient == k;
    s.(sessions := s.sessions[n := s.sessions[n].(poppedAt := Some(Now(s)))],
       workers := s.workers[f.worker := x.(
         keyCh := None,
         log := if opens then x.log + [Opening(h, f.nonce, blob.sender, blob.plain, Now(s))] else x.log)],
       finishes := s.finishes[h := f.(pc := if opens then Opened(|x.log|) else Ended)])
  }

  predicate CanInstall(s: State, h: HandlerId) {
    && h in s.finishes && s.finishes[h].pc.Opened?
    && s.finishes[h].worker in s.workers
    && s.finishes[h].pc.index < |s.workers[s.finishes[h].worker].log|
  }

  function DoInstall(s: State, h: HandlerId): State
    requires CanInstall(s, h)
  {
    match s.workers[s.finishes[h].worker].log[s.finishes[h].pc.index].plain
    case Garbage => WithFinish(s, h, s.finishes[h].(pc := Ended))
    case KeysJson(snap) => InstallKeys(s, h, snap)
  }

  function InstallKeys(s: State, h: HandlerId, snap: Snapshot): State
    requires CanInstall(s, h)
  {
    var f := s.finishes[h];
    var x := s.workers[f.worker];
    s.(workers := s.workers[f.worker := x.(
         keys := snap.keys, version := Some(snap.version), installs := x.installs + [f.pc.index])],
       finishes := s.finishes[h := f.(pc := Installed(f.pc.index))])
  }

  function DoClientAttstn(s: State, n: Nonce, hashes: nat): State {
    s.(docs := s.docs + {ClientDoc(n, hashes)}, seen := s.seen + {n})
  }

  // ------------------------------------------------------- steps of the leader

  function DoPut(s: State, appKeys: Bytes): State {
    s.(leader := s.leader.(keys := s.leader.keys.(appKeys := appKeys), version := s.leader.version + 1))
  }

  predicate CanDispatch(s: State, v: nat) {
    1 <= v <= s.leader.version && v !in s.leader.targets && s.leader.loop.Select?
  }

  function DoDispatch(s: State, v: nat): State {
    s.(leader := s.leader.(loop := FanningOut(v, s.leader.registry),
                           targets := s.leader.targets[v := s.leader.registry]))
  }

  function Start(s: State, w: WorkerId, origin: Origin, sid: SyncId, n: Nonce): State {
    s.(seen := s.seen + {n},
       syncOf := s.syncOf[n := sid],
       syncs := s.syncs[sid := Sync(w, origin, n, AwaitingDoc, None, None)])
  }

  predicate CanSpawnSync(s: State, w: WorkerId, sid: SyncId, n: Nonce) {
    s.leader.loop.FanningOut? && w in s.leader.loop.todo && sid !in s.syncs && Fresh(s, n)
  }

  function DoSpawnSync(s: State, w: WorkerId, sid: SyncId, n: Nonce): State
    requires CanSpawnSync(s, w, sid, n)
  {
    var v := s.leader.loop.version;
    Start(s, w, FromPut(v), sid, n).(
      calls := s.calls[(v, w) := sid],
      leader := s.leader.(loop := FanningOut(v, s.leader.loop.todo - {w})))
  }

  predicate SameHash(s: State, hash: Option<Bytes>) {
    hash == Some(HashedBytes(s.leader.keys))
  }

  predicate CanHeartbeat(s: State, w: WorkerId, hash: Option<Bytes>, sid: SyncId, n: Nonce) {
    w in s.workers && (!SameHash(s, hash) ==> sid !in s.syncs && Fresh(s, n))
  }

  function WithRegistry(s: State, registry: set<WorkerId>): State {
    s.(leader := s.leader.(registry := registry))
  }

  function DoHeartbeat(s: State, w: WorkerId, hash: Option<Bytes>, sid: SyncId, n: Nonce): State {
    if SameHash(s, hash) then s.(leader := s.leader.(registering := s.leader.registering + multiset{w}))
    else Start(s, w, FromHeartbeat, sid, n)
  }

  predicate CanRegister(s: State, w: WorkerId) {
    w in s.leader.registering && s.leader.loop.Select?
  }

  function DoRegister(s: State, w: WorkerId): State {
    s.(leader := s.leader.(registering := s.leader.registering - multiset{w}, registry := s.leader.registry + {w}))
  }

  // The syncWith call is at the given statement.
  predicate At(s: State, sid: SyncId, pc: SyncPc) {
    sid in s.syncs && s.syncs[sid].pc == pc
  }

  /** A document of another role makes the leader's type assertion panic, which
      takes down the process. */
  function AfterVerifying(s: State, sid: SyncId, aux: Aux): State
    requires sid in s.syncs
  {
    match aux
    case Rejected => MoveSync(s, sid, Failed)
    case LeaderAux(_, _) => s.(leader := s.leader.(crashed := true))
    case WorkerAux(wn, _, pk) =>
      WithSync(s, sid, s.syncs[sid].(pc := Verified, heard := Some(Heard(wn, pk))))
  }

  function DoHearDoc(s: State, sid: SyncId, doc: Option<Doc>): State
    requires sid in s.syncs
  {
    AfterVerifying(s, sid, VerifyAttstn(s.docs, doc, s.syncs[sid].nonce))
  }

  function DoTakeSnapshot(s: State, sid: SyncId): State
    requires sid in s.syncs
  {
    WithSync(s, sid, s.syncs[sid].(
      pc := Snapped, taken := Some(Taken(Snapshot(s.leader.version, s.leader.keys), Now(s)))))
  }

  predicate CanPostKeys(s: State, sid: SyncId) {
    At(s, sid, Snapped) && s.syncs[sid].heard.Some? && s.syncs[sid].taken.Some?
  }

  function DoPostKeys(s: State, sid: SyncId): State
    requires CanPostKeys(s, sid)
  {
    WithSync(s, sid, s.syncs[sid].(pc := Posted)).(docs := s.docs + {DocOf(sid, s.syncs[sid])})
  }

  /** The answer is from the addressed worker, to the request that was posted or a copy
      of it. */
  predicate CanHearOk(s: State, sid: SyncId, h: HandlerId) {
    && At(s, sid, Posted) && s.syncs[sid].heard.Some? && s.syncs[sid].taken.Some?
    && h in s.finishes && s.finishes[h].worker == s.syncs[sid].worker && Answers200(s.finishes[h])
    && s.finishes[h].body.doc == Some(DocOf(sid, s.syncs[sid]))
    && s.finishes[h].body.blob == Some(BlobOf(sid, s.syncs[sid]))
  }

  function MoveSync(s: State, sid: SyncId, pc: SyncPc): State
    requires sid in s.syncs
  {
    WithSync(s, sid, s.syncs[sid].(pc := pc))
  }

  predicate CanRegisterAfter(s: State, sid: SyncId) {
    sid in s.syncs && s.syncs[sid].pc.Succeeded? && s.syncs[sid].origin.FromHeartbeat? && s.leader.loop.Select?
  }

  function DoRegisterAfter(s: State, sid: SyncId): State
    requires CanRegisterAfter(s, sid)
  {
    WithRegistry(MoveSync(s, sid, Registered(s.syncs[sid].pc.handler)),
                 s.leader.registry + {s.syncs[sid].worker})
  }

  predicate CanUnregisterAfter(s: State, sid: SyncId) {
    At(s, sid, Failed) && s.syncs[sid].origin.FromPut? && s.leader.loop.Select?
  }

  function DoUnregisterAfter(s: State, sid: SyncId): State
    requires CanUnregisterAfter(s, sid)
  {
    WithRegistry(MoveSync(s, sid, Unregistered), s.leader.registry - {s.syncs[sid].worker})
  }

  // ------------------------------------------------------------------ all steps

  predicate OfLeader(l: Label) {
    || l.Put? || l.Dispatch? || l.SpawnSync? || l.DispatchDone? || l.Heartbeat? || l.Register? || l.Prune?
    || l.HearDoc?
    || l.TakeSnapshot? || l.PostKeys? || l.HearOk? || l.SyncFails? || l.RegisterAfter? || l.UnregisterAfter?
  }

  predicate WorkerEnabled(s: State, l: Label)
    requires !OfLeader(l)
  {
    match l
    case GetArrives(w, _) => CanGetArrives(s, w)
    case PushNonce(get, n) => CanPushNonce(s, get, n)
    case BoxKeyFails(n) => CanAbort(s, n, NoncePushed)
    case PushKey(n, k) => CanPushKey(s, n, k)
    case AnswerGet(n) => CanAnswerGet(s, n)
    case AttstnFails(n) => CanAbort(s, n, KeyPushed)
    case PostArrives(post) => CanPostArrive(s, post)
    case TakeNonce(post, h) => CanTakeNonce(s, post, h)
    case VerifyPost(h, _) => CanVerifyPost(s, h)
    case PopKey(h) => CanPopKey(s, h)
    case Install(h) => CanInstall(s, h)
    case ClientAttstn(_, _) => true
  }

  function WorkerEffect(s: State, l: Label): State
    requires !OfLeader(l) && WorkerEnabled(s, l)
  {
    match l
    case GetArrives(w, n) => DoGetArrives(s, w, n)
    case PushNonce(get, n) => DoPushNonce(s, get, n)
    case BoxKeyFails(n) => DoAbort(s, n)
    case PushKey(n, k) => DoPushKey(s, n, k)
    case AnswerGet(n) => DoAnswerGet(s, n)
    case AttstnFails(n) => DoAbort(s, n)
    case PostArrives(post) => DoPostArrives(s, post)
    case TakeNonce(post, h) => DoTakeNonce(s, post, h)
    case VerifyPost(h, fails) => DoVerifyPost(s, h, fails)
    case PopKey(h) => DoPopKey(s, h)
    case Install(h) => DoInstall(s, h)
    case ClientAttstn(n, hashes) => DoClientAttstn(s, n, hashes)
  }

  predicate LeaderEnabled(s: State, l: Label)
    requires OfLeader(l)
  {
    !s.leader.crashed &&
    match l
    case Put(appKeys) => |appKeys| <= MAX_KEY_MATERIAL_LEN
    case Dispatch(v) => CanDispatch(s, v)
    case SpawnSync(w, sid, n) => CanSpawnSync(s, w, sid, n)
    case DispatchDone => s.leader.loop.FanningOut? && s.leader.loop.todo == {}
    case Heartbeat(w, hash, sid, n) => CanHeartbeat(s, w, hash, sid, n)
    case Register(w) => CanRegister(s, w)
    case Prune(w) => s.leader.loop.Select?
    case HearDoc(sid, _) => At(s, sid, AwaitingDoc)
    case TakeSnapshot(sid) => At(s, sid, Verified)
    case PostKeys(sid) => CanPostKeys(s, sid)
    case HearOk(sid, h) => CanHearOk(s, sid, h)
    case SyncFails(sid) => sid in s.syncs && Running(s.syncs[sid])
    case RegisterAfter(sid) => CanRegisterAfter(s, sid)
    case UnregisterAfter(sid) => CanUnregisterAfter(s, sid)
  }

  function LeaderEffect(s: State, l: Label): State
    requires OfLeader(l) && LeaderEnabled(s, l)
  {
    match l
    case Put(appKeys) => DoPut(s, appKeys)
    case Dispatch(v) => DoDispatch(s, v)
    case SpawnSync(w, sid, n) => DoSpawnSync(s, w, sid, n)
    case DispatchDone => s.(leader := s.leader.(loop := Select))
    case Heartbeat(w, hash, sid, n) => DoHeartbeat(s, w, hash, sid, n)
    case Register(w) => DoRegister(s, w)
    case Prune(w) => WithRegistry(s, s.leader.registry - {w})
    case HearDoc(sid, doc) => DoHearDoc(s, sid, doc)
    case TakeSnapshot(sid) => DoTakeSnapshot(s, sid)
    case PostKeys(sid) => DoPostKeys(s, sid)
    case HearOk(sid, h) => MoveSync(s, sid, Succeeded(h))
    case SyncFails(sid) => MoveSync(s, sid, Failed)
    case RegisterAfter(sid) => DoRegisterAfter(s, sid)
    case UnregisterAfter(sid) => DoUnregisterAfter(s, sid)
  }

  predicate Enabled(s: State, l: Label) {
    if OfLeader(l) then LeaderEnabled(s, l) else WorkerEnabled(s, l)
  }

  function Effect(s: State, l: Label): State
    requires Enabled(s, l)
  {
    if OfLeader(l) then LeaderEffect(s, l) else WorkerEffect(s, l)
  }

  /** The clock: after each step, the leader's keys are noted down. */
  function Ticked(s: State, t: State): State {
    t.(history := s.history + [Snapshot(t.leader.version, t.leader.keys)])
  }

  function Apply(s: State, l: Label): State
    requires Enabled(s, l)
  {
    Ticked(s, Effect(s, l))
  }

  predicate Init(s: State) {
    && (forall w :: w in s.workers ==>
          s.workers[w].nonceCh.None? && s.workers[w].keyCh.None? && s.workers[w].version.None?
          && s.workers[w].log == [] && s.workers[w].installs == [])
    && s.gets == multiset{} && s.sessions == map[] && s.posts == multiset{} && s.finishes == map[]
    && s.syncs == map[] && s.docs == {} && s.seen == {} && s.boxKeys == map[] && s.syncOf == map[]
    && s.calls == map[]
    && s.leader.version == 0 && s.leader.keys.appKeys == [] && s.leader.registry == {} && s.leader.loop.Select?
    && s.leader.registering == multiset{}
    && s.leader.targets == map[] && !s.leader.crashed
    && s.history == [Snapshot(0, s.leader.keys)]
  }

  /** The state after the given steps; None if some step was not enabled. */
  function Execute(s0: State, trace: seq<Label>): Option<State> {
    if trace == [] then Some(s0)
    else
      var before := Execute(s0, trace[..|trace| - 1]);
      var l := trace[|trace| - 1];
      if before.Some? && Enabled(before.value, l) then Some(Apply(before.value, l)) else None
  }

  /** s is reached from a fresh start by the given steps. */
  predicate Reaches(s0: State, trace: seq<Label>, s: State) {
    Init(s0) && Execute(s0, trace) == Some(s)
  }

  /** A run with all states in between. */
  datatype Path = Path(states: seq<State>, labels: seq<Label>) {
    predicate Valid() {
      && |states| == |labels| + 1
      && forall i {:trigger Link(states[i], labels[i], states[i + 1])} ::
           0 <= i < |labels| ==> Link(states[i], labels[i], states[i + 1])
    }

    function Start(): State
      requires states != []
    {
      states[0]
    }

    function End(): State
      requires states != []
    {
      states[|states| - 1]
    }
  }

  predicate Link(s: State, l: Label, t: State) {
    Enabled(s, l) && t == Apply(s, l)
  }
}
