/** A worker's two sync handlers, run one at a time over their one-slot channels.  Every
    branch of the handlers is here, down to the bytes of the attestation document. */
module WorkerSession {
  import opened Common
  import opened Attestation
  import SyncBudget

  datatype BoxKey = BoxKey(pubKey: Bytes, privKey: Bytes)

  const ZERO_NONCE: Nonce := [0, 0, 0, 0, 0, 0, 0, 0, 0, 0, 0, 0, 0, 0, 0, 0, 0, 0, 0, 0]

  /** The cryptography and the enclave that the handlers draw on. */
  datatype Env = Env(
    pcrs: Option<PCRs>,
    sha256: Bytes -> Hash,
    open: (Bytes, BoxKey) -> Option<Bytes>,
    parseKeys: Bytes -> Option<KeySet>)

  function HashOf(env: Env, b: Bytes): Hash {
    env.sha256(b)
  }

  function Open(env: Env, b: Bytes, key: BoxKey): Option<Bytes> {
    env.open(b, key)
  }

  function ParseKeys(env: Env, b: Bytes): Option<KeySet> {
    env.parseKeys(b)
  }

  /** A GET: the nonce in its URL, if it has a valid one, and what the random number
      generator and the hypervisor have to offer while it runs. */
  datatype Get = Get(leadersNonce: Option<Nonce>, random: Option<Nonce>, boxKey: Option<BoxKey>, device: bool)

  /** A POST: its length, whether its JSON parses without an error, its document (None if
      it is no Base64, Some(None) if the hypervisor did not sign it) and its ciphertext
      (None if it is no Base64). */
  datatype Post = Post(length: nat, jsonOk: bool, document: Option<Option<Signed>>, encrypted: Option<Bytes>)

  datatype Reply = OK | Document(fields: Fields, badRequest: bool) | BadRequest | TooManyRequests | InternalError

  /** A handler replies, panics, or waits for one of the channels. */
  datatype Outcome =
    | Replied(reply: Reply)
    | Panicked
    | WaitsToPushNonce
    | WaitsForNonce
    | WaitsForKey

  datatype Channels = Channels(nonce: Option<Nonce>, key: Option<BoxKey>)

  // ------------------------------------------------------------- specification

  /** Of several replies the first is sent: InternalError after none, the earlier one else. */
  function FailureAfter(status: Reply): Reply {
    if status == OK then InternalError else status
  }

  function InitStep(c: Channels, g: Get): (Channels, Outcome) {
    var failure := Replied(FailureAfter(if g.leadersNonce.Some? then OK else BadRequest));
    if c.key.Some? then (c, Replied(TooManyRequests))
    else if g.random.None? then (c, failure)
    else if c.nonce.Some? then (c, WaitsToPushNonce)
    else if g.boxKey.None? then (Channels(g.random, None), failure)
    else if !g.device then (Channels(g.random, g.boxKey), failure)
    else
      var ln := if g.leadersNonce.Some? then g.leadersNonce.value else ZERO_NONCE;
      var fields := CreateAttstn(WorkerAux(g.random.value, ln, g.boxKey.value.pubKey));
      (Channels(g.random, g.boxKey), Replied(Document(fields, g.leadersNonce.None?)))
  }

  /** The request gets as far as waiting for a nonce. */
  predicate WellFormed(p: Post) {
    p.length <= SyncBudget.MaxReadLen() && p.document.Some?
  }

  predicate Vouches(aux: Result<AuxInfo>, hash: Hash) {
    aux.Ok? && aux.value.LeaderAux? && aux.value.hashOfEncrypted == hash
  }

  /** The document verifies for the nonce, as a leader's, and its hash field is the hash of
      the ciphertext. */
  predicate Passes(env: Env, p: Post, n: Nonce) {
    && p.document.Some? && p.encrypted.Some?
    && Vouches(VerifyAttstn(p.document.value, env.pcrs, n), HashOf(env, p.encrypted.value))
  }

  /** The keys in a ciphertext, if it opens and holds some. */
  function KeysIn(env: Env, encrypted: Bytes, key: BoxKey): Option<KeySet> {
    match Open(env, encrypted, key)
    case None => None
    case Some(plain) => ParseKeys(env, plain)
  }

  function FinishChannels(env: Env, c: Channels, p: Post): Channels {
    if !WellFormed(p) || c.nonce.None? then c
    else if !Passes(env, p, c.nonce.value) then Channels(None, c.key)
    else Channels(None, None)
  }

  /** What is installed, if anything. */
  function FinishKeys(env: Env, c: Channels, p: Post): Option<KeySet> {
    if !WellFormed(p) || c.nonce.None? || !Passes(env, p, c.nonce.value) || c.key.None? then None
    else KeysIn(env, p.encrypted.value, c.key.value)
  }

  function FinishOutcome(env: Env, c: Channels, p: Post): Outcome {
    if p.length > SyncBudget.MaxReadLen() then Replied(InternalError)
    else if p.document.None? then Replied(FailureAfter(if p.jsonOk then OK else BadRequest))
    else if c.nonce.None? then WaitsForNonce
    else
      match VerifyAttstn(p.document.value, env.pcrs, c.nonce.value)
      case Err(_) => Replied(BadRequest)
      case Ok(aux) =>
        if !aux.LeaderAux? then Panicked
        else if !Passes(env, p, c.nonce.value) then Replied(BadRequest)
        else if c.key.None? then WaitsForKey
        else if Open(env, p.encrypted.value, c.key.value).None? then Replied(BadRequest)
        else if !p.jsonOk then Replied(BadRequest)
        else if FinishKeys(env, c, p).None? then Replied(InternalError)
        else Replied(OK)
  }

  // ------------------------------------------------------------------ handlers

  class WorkerSync {
    const env: Env
    var nonce: Option<Nonce>
    var ephemeralKeys: Option<BoxKey>
    var installed: Option<KeySet>

    constructor (env: Env)
      ensures this.env == env && Chans() == Channels(None, None) && installed == None
    {
      this.env, nonce, ephemeralKeys, installed := env, None, None, None;
    }

    function Chans(): Channels
      reads this
    {
      Channels(nonce, ephemeralKeys)
    }

    /** initSync. */
    method InitSync(g: Get) returns (outcome: Outcome)
      modifies this
      ensures (Chans(), outcome) == InitStep(old(Chans()), g) && installed == old(installed)
    {
      if ephemeralKeys.Some? {
        return Replied(TooManyRequests);
      }
      var leadersNonce := ZERO_NONCE;
      var status := BadRequest;
      if g.leadersNonce.Some? {
        leadersNonce, status := g.leadersNonce.value, OK;
      }
      if g.random.None? {
        return Replied(FailureAfter(status));
      }
      var workersNonce := g.random.value;
      if nonce.Some? {
        return WaitsToPushNonce;
      }
      nonce := Some(workersNonce);
      if g.boxKey.None? {
        return Replied(FailureAfter(status));
      }
      ephemeralKeys := g.boxKey;
      if !g.device {
        return Replied(FailureAfter(status));
      }
      var doc := CreateAttstn(WorkerAux(workersNonce, leadersNonce, g.boxKey.value.pubKey));
      return Replied(Document(doc, status == BadRequest));
    }

    /** finishSync. */
    method FinishSync(p: Post) returns (outcome: Outcome)
      modifies this
      ensures Chans() == FinishChannels(env, old(Chans()), p)
      ensures outcome == FinishOutcome(env, old(Chans()), p)
      ensures installed == var k := FinishKeys(env, old(Chans()), p); if k.Some? then k else old(installed)
    {
      if p.length > SyncBudget.MaxReadLen() {
        return Replied(InternalError);
      }
      var status := if p.jsonOk then OK else BadRequest;
      if p.document.None? {
        return Replied(FailureAfter(status));
      }
      if nonce.None? {
        return WaitsForNonce;
      }
      var n := nonce.value;
      nonce := None;
      var aux := VerifyAttstn(p.document.value, env.pcrs, n);
      if aux.Err? {
        return Replied(BadRequest);
      }
      if !aux.value.LeaderAux? {
        return Panicked;
      }
      if p.encrypted.None? {
        return Replied(BadRequest);
      }
      if HashOf(env, p.encrypted.value) != aux.value.hashOfEncrypted {
        return Replied(BadRequest);
      }
      if ephemeralKeys.None? {
        return WaitsForKey;
      }
      var key := ephemeralKeys.value;
      ephemeralKeys := None;
      var decrypted := Open(env, p.encrypted.value, key);
      if decrypted.None? {
        return Replied(BadRequest);
      }
      var keys := ParseKeys(env, decrypted.value);
      if keys.None? {
        return Replied(FailureAfter(status));
      }
      installed := keys;
      return Replied(status);
    }
  }

  /** A POST with more application keys than fit is turned down before either channel is
      touched: it brings no keys, and the session that it was for stays pending. */
  lemma OversizedPostChangesNothing(env: Env, c: Channels, p: Post, docLen: nat, k: SyncBudget.RawKeys)
    requires p.length == SyncBudget.PostLen(docLen, k) && !SyncBudget.Fits(docLen, k)
    ensures FinishChannels(env, c, p) == c && FinishKeys(env, c, p) == None
    ensures FinishOutcome(env, c, p) == Replied(InternalError)
    ensures k.appKeys.Some? && |k.appKeys.value| > 12192 ==> !SyncBudget.Fits(docLen, k)
  {
    if k.appKeys.Some? && |k.appKeys.value| > 12192 {
      SyncBudget.LargeAppKeysCannotSync(docLen, k);
    }
  }

  // -------------------------------------------------------- what a request comes to

  /** The POST carries a document that the hypervisor signed for an enclave of the same image,
      with nonce n and the hash of the ciphertext in a leader's fields. */
  predicate Certifies(env: Env, p: Post, n: Nonce) {
    && p.document.Some? && p.document.value.Some? && p.encrypted.Some? && env.pcrs.Some?
    && p.document.value.value.fields == CreateAttstn(LeaderAux(n, HashOf(env, p.encrypted.value)))
    && SameImage(env.pcrs.value, p.document.value.value.pcrs)
  }

  lemma PassesIff(env: Env, p: Post, n: Nonce)
    ensures Passes(env, p, n) <==> Certifies(env, p, n)
  {
    if p.document.Some? && p.encrypted.Some? {
      VerifyOkIff(p.document.value, env.pcrs, n);
      if p.document.value.Some? && env.pcrs.Some? && VerifyAttstn(p.document.value, env.pcrs, n).Ok? {
        VerifiedRecord(p.document.value.value, env.pcrs.value, n);
      }
    }
  }

  /** A POST installs keys iff it is short enough, certified for the nonce in the channel, and
      its ciphertext opens with the key in the channel to those keys. */
  lemma InstallsIff(env: Env, c: Channels, p: Post, k: KeySet)
    ensures FinishKeys(env, c, p) == Some(k) <==>
      && p.length <= 21848 && c.nonce.Some? && c.key.Some? && Certifies(env, p, c.nonce.value)
      && env.open(p.encrypted.value, c.key.value).Some?
      && env.parseKeys(env.open(p.encrypted.value, c.key.value).value) == Some(k)
  {
    if c.nonce.Some? { PassesIff(env, p, c.nonce.value); }
  }

  /** What a POST does to the channels: nothing if it is too long, undecodable or without a
      nonce to take; otherwise it takes the nonce, and the key, too, iff it is certified. */
  lemma PostTransitions(env: Env, c: Channels, p: Post)
    ensures FinishChannels(env, c, p) == c <==> p.length > 21848 || p.document.None? || c.nonce.None?
    ensures FinishChannels(env, c, p) != c ==>
      && FinishChannels(env, c, p).nonce == None
      && FinishChannels(env, c, p).key == if Certifies(env, p, c.nonce.value) then None else c.key
  {
    if c.nonce.Some? { PassesIff(env, p, c.nonce.value); }
  }

  /** The document is a worker's for nonce n, of the same image: the type assertion panics. */
  predicate IsWorkersDoc(env: Env, p: Post, n: Nonce) {
    && p.document.Some? && p.document.value.Some? && env.pcrs.Some?
    && SameImage(env.pcrs.value, p.document.value.value.pcrs)
    && p.document.value.value.fields.nonce == n && p.document.value.value.fields.publicKey != PADDING
    && |p.document.value.value.fields.userData| == 20
  }

  /** The answer to a POST, or what it waits for. */
  lemma PostOutcomes(env: Env, c: Channels, p: Post)
    ensures var o := FinishOutcome(env, c, p);
      var taken := p.length <= 21848 && p.document.Some? && c.nonce.Some?;
      && (o == Replied(OK) <==> FinishKeys(env, c, p).Some? && p.jsonOk)
      && (o == WaitsForNonce <==> p.length <= 21848 && p.document.Some? && c.nonce.None?)
      && (o == WaitsForKey <==> taken && Certifies(env, p, c.nonce.value) && c.key.None?)
      && (o == Panicked <==> taken && IsWorkersDoc(env, p, c.nonce.value))
      && (o == Replied(InternalError) <==>
            || p.length > 21848
            || (p.document.None? && p.jsonOk)
            || (taken && Certifies(env, p, c.nonce.value) && c.key.Some? && p.jsonOk
                && env.open(p.encrypted.value, c.key.value).Some? && FinishKeys(env, c, p).None?))
      && (o != WaitsForNonce && o != WaitsForKey && o != Panicked && o != Replied(OK) && o != Replied(InternalError)
          ==> o == Replied(BadRequest))
  {
    if p.document.Some? && c.nonce.Some? {
      PassesIff(env, p, c.nonce.value);
      VerifyOkIff(p.document.value, env.pcrs, c.nonce.value);
      if p.document.value.Some? && env.pcrs.Some? && VerifyAttstn(p.document.value, env.pcrs, c.nonce.value).Ok? {
        VerifiedRecord(p.document.value.value, env.pcrs.value, c.nonce.value);
      }
    }
  }

  /** What a GET does to the channels. */
  lemma GetTransitions(c: Channels, g: Get)
    ensures var d := InitStep(c, g).0;
      && (!Idle(c) ==> d == c)
      && (Idle(c) ==>
            && (Pending(d) <==> g.random.Some? && g.boxKey.Some?)
            && (NonceOnly(d) <==> g.random.Some? && g.boxKey.None?)
            && (Idle(d) <==> g.random.None?)
            && (d.nonce.Some? ==> d.nonce == g.random) && (d.key.Some? ==> d.key == g.boxKey))
  {
  }

  /** The answer to a GET, or what it waits for.  A GET without a nonce goes on, but its answer
      is a 400 in any case. */
  lemma GetOutcomes(c: Channels, g: Get)
    ensures var o := InitStep(c, g).1;
      && (o == Replied(TooManyRequests) <==> c.key.Some?)
      && (o == WaitsToPushNonce <==> NonceOnly(c) && g.random.Some?)
      && ((o.Replied? && o.reply.Document?) <==> Idle(c) && g.random.Some? && g.boxKey.Some? && g.device)
      && (o.Replied? && o.reply.Document? ==> (o.reply.badRequest <==> g.leadersNonce.None?))
      && (o == Replied(InternalError) <==>
            && c.key.None? && g.leadersNonce.Some?
            && (g.random.None? || (Idle(c) && (g.boxKey.None? || !g.device))))
      && (o == Replied(BadRequest) <==>
            && c.key.None? && g.leadersNonce.None?
            && (g.random.None? || (Idle(c) && (g.boxKey.None? || !g.device))))
  {
  }

  /** The nonce that the leader is taken to have sent. */
  predicate IsLeadersNonce(g: Get, n: Nonce) {
    if g.leadersNonce.Some? then n == g.leadersNonce.value else forall i :: 0 <= i < 20 ==> n[i] == 0
  }

  /** The document that a GET is answered with tells every enclave of the same image, under the
      leader's nonce, the nonce and the public key of just the session that is in the channels
      afterwards. */
  lemma GetDocument(c: Channels, g: Get, n: Nonce, pcrs: PCRs, ours: PCRs)
    requires IsLeadersNonce(g, n) && SameImage(ours, pcrs)
    requires InitStep(c, g).1.Replied? && InitStep(c, g).1.reply.Document?
    requires |g.boxKey.value.pubKey| == 32
    ensures var d := InitStep(c, g).0;
      && Pending(d)
      && VerifyAttstn(Some(Signed(InitStep(c, g).1.reply.fields, pcrs)), Some(ours), n)
           == Ok(WorkerAux(d.nonce.value, n, d.key.value.pubKey))
  {
    MatchesIff(ours, pcrs);
    assert g.leadersNonce.None? ==> n == ZERO_NONCE;
    assert |g.boxKey.value.pubKey| != |PADDING|;
  }

  // ------------------------------------------------------------- whole histories

  datatype Request = AGet(get: Get) | APost(post: Post)

  function Step(env: Env, c: Channels, r: Request): Channels {
    match r
    case AGet(g) => InitStep(c, g).0
    case APost(p) => FinishChannels(env, c, p)
  }

  /** The channels after handling requests one at a time, starting empty. */
  function After(env: Env, trace: seq<Request>): Channels {
    if trace == [] then Channels(None, None)
    else Step(env, After(env, trace[..|trace| - 1]), trace[|trace| - 1])
  }

  predicate Idle(c: Channels) { c.nonce.None? && c.key.None? }
  predicate Pending(c: Channels) { c.nonce.Some? && c.key.Some? }
  predicate NonceOnly(c: Channels) { c.nonce.Some? && c.key.None? }
  predicate Wedged(c: Channels) { c.nonce.None? && c.key.Some? }

  /** What a request does in each state.  From pending, a POST leads back to idle iff it
      gets through all checks; from wedged nothing leads anywhere: every GET is told that
      a sync is in progress and every well-formed POST waits for a nonce. */
  lemma Automaton(env: Env, c: Channels, r: Request)
    ensures Pending(c) && r.APost? ==>
      && (Idle(Step(env, c, r)) <==> WellFormed(r.post) && Certifies(env, r.post, c.nonce.value))
      && (Wedged(Step(env, c, r)) <==> WellFormed(r.post) && !Certifies(env, r.post, c.nonce.value))
      && (Step(env, c, r) == c <==> !WellFormed(r.post))
    ensures (Pending(c) || Wedged(c)) && r.AGet? ==> InitStep(c, r.get) == (c, Replied(TooManyRequests))
    ensures Wedged(c) && r.APost? ==>
      Step(env, c, r) == c && (WellFormed(r.post) ==> FinishOutcome(env, c, r.post) == WaitsForNonce)
    ensures NonceOnly(c) && r.AGet? ==>
      Step(env, c, r) == c && (r.get.random.Some? ==> InitStep(c, r.get).1 == WaitsToPushNonce)
    ensures NonceOnly(c) && r.APost? ==> Idle(Step(env, c, r)) || Step(env, c, r) == c
    ensures Idle(c) ==> !Wedged(Step(env, c, r)) && (r.APost? ==> Step(env, c, r) == c)
  {
    if r.APost? && c.nonce.Some? { PassesIff(env, r.post, c.nonce.value); }
  }

  /** Request i found the worker pending and a well-formed POST failed a check: it took
      the nonce and left the key. */
  predicate FailedFinish(env: Env, trace: seq<Request>, i: nat) {
    && i < |trace| && trace[i].APost? && Pending(After(env, trace[..i]))
    && WellFormed(trace[i].post)
    && !Certifies(env, trace[i].post, After(env, trace[..i]).nonce.value)
  }

  /** A worker is wedged after a history iff some POST in it failed a check that comes
      after the taking of the nonce; from then on it stays wedged for good. */
  lemma {:induction false} WedgedIff(env: Env, trace: seq<Request>)
    ensures Wedged(After(env, trace)) <==> exists i: nat :: FailedFinish(env, trace, i)
  {
    if trace != [] {
      var n := |trace| - 1;
      var shorter := trace[..n];
      WedgedIff(env, shorter);
      Automaton(env, After(env, shorter), trace[n]);
      forall i: nat | i < n ensures FailedFinish(env, trace, i) <==> FailedFinish(env, shorter, i) {
        assert shorter[..i] == trace[..i] && shorter[i] == trace[i];
      }
      if Wedged(After(env, shorter)) {
        var i: nat :| FailedFinish(env, shorter, i);
        assert FailedFinish(env, trace, i);
      } else if Wedged(After(env, trace)) {
        assert FailedFinish(env, trace, n);
      }
      if exists i: nat :: FailedFinish(env, trace, i) {
        var i: nat :| FailedFinish(env, trace, i);
        if i < n {
          assert FailedFinish(env, shorter, i);
        }
      }
    }
  }

  /** A pending worker holds the nonce and the key of one and the same GET, the last that
      changed anything. */
  lemma {:induction false} PendingIsOneSession(env: Env, trace: seq<Request>) returns (i: nat)
    requires Pending(After(env, trace))
    ensures i < |trace| && trace[i].AGet? && Idle(After(env, trace[..i]))
    ensures After(env, trace) == Channels(trace[i].get.random, trace[i].get.boxKey)
  {
    var n := |trace| - 1;
    var before := After(env, trace[..n]);
    Automaton(env, before, trace[n]);
    if Pending(before) {
      i := PendingIsOneSession(env, trace[..n]);
      assert trace[..n][..i] == trace[..i];
    } else {
      i := n;
    }
  }
}
