/** The protocol model treats nonces, keys and digests as atoms.  Here is why that is
    enough: with any way of writing the atoms of a run as bytes of the right length that
    keeps them apart, verification on bytes comes to the same result as verification on
    atoms.  There is such a way iff there are no more atoms than byte strings. */
module SyncAbstraction {
  import opened Common
  import opened ByteStrings
  import A = Attestation
  import P = SyncProtocol
  import I = SyncInvariant
  import K = SyncKnowledge
  import S = SyncSteps

  /** How atoms are written.  Client documents carry two hashes. */
  datatype Codec = Codec(
    nonce: P.Nonce -> A.Nonce,
    key: P.BoxKey -> Bytes,
    digest: P.Digest -> A.Hash,
    tlsHash: nat -> A.Hash,
    appHash: nat -> A.Hash)

  /** The atoms that occur in a run. */
  datatype Atoms = Atoms(nonces: set<P.Nonce>, keys: set<P.BoxKey>, digests: set<P.Digest>)

  /** Atoms of the run are told apart, and keys have the length of keys. */
  ghost predicate Faithful(c: Codec, a: Atoms) {
    && (forall m, n :: m in a.nonces && n in a.nonces && c.nonce(m) == c.nonce(n) ==> m == n)
    && (forall k, l :: k in a.keys && l in a.keys && c.key(k) == c.key(l) ==> k == l)
    && (forall k :: k in a.keys ==> |c.key(k)| == A.BOX_KEY_LEN)
    && (forall d, e :: d in a.digests && e in a.digests && c.digest(d) == c.digest(e) ==> d == e)
  }

  predicate Covers(a: Atoms, doc: P.Doc) {
    match doc
    case WorkerDoc(wn, ln, pk) => wn in a.nonces && ln in a.nonces && pk in a.keys
    case LeaderDoc(wn, h) => wn in a.nonces && h in a.digests
    case ClientDoc(n, _) => n in a.nonces
  }

  // -------------------------------------------------------------- verification

  /** The record for which an enclave requested the document. */
  function AuxOf(c: Codec, doc: P.Doc): A.AuxInfo {
    match doc
    case WorkerDoc(wn, ln, pk) => A.WorkerAux(c.nonce(wn), c.nonce(ln), c.key(pk))
    case LeaderDoc(wn, h) => A.LeaderAux(c.nonce(wn), c.digest(h))
    case ClientDoc(n, x) => A.ClientAux(c.nonce(n), A.Serialize(c.tlsHash(x), c.appHash(x)))
  }

  function SignedDoc(c: Codec, doc: P.Doc, pcrs: A.PCRs): A.Signed {
    A.Signed(A.CreateAttstn(AuxOf(c, doc)), pcrs)
  }

  /** A result on bytes says the same as one on atoms.  A hash field that is no digest of
      anything is one that no digest of the run is written as. */
  ghost predicate Agrees(c: Codec, a: Atoms, bytes: A.Result<A.AuxInfo>, atoms: P.Aux) {
    match atoms
    case Rejected => bytes.Err?
    case WorkerAux(wn, ln, pk) => bytes == A.Ok(A.WorkerAux(c.nonce(wn), c.nonce(ln), c.key(pk)))
    case LeaderAux(wn, h) =>
      && bytes.Ok? && bytes.value.LeaderAux? && bytes.value.workersNonce == c.nonce(wn)
      && forall d :: d in a.digests ==> (c.digest(d) == bytes.value.hashOfEncrypted <==> h == Some(d))
  }

  /** Verification of a genuine document of an identical enclave. */
  lemma VerifyAgrees(c: Codec, a: Atoms, issued: set<P.Doc>, doc: P.Doc, ourNonce: P.Nonce,
                     pcrs: A.PCRs, ours: A.PCRs)
    requires Faithful(c, a) && ourNonce in a.nonces && Covers(a, doc)
    requires doc in issued && A.Matches(ours, pcrs)
    ensures Agrees(c, a, A.VerifyAttstn(Some(SignedDoc(c, doc, pcrs)), Some(ours), c.nonce(ourNonce)),
                   P.VerifyAttstn(issued, Some(doc), ourNonce))
  {
    match doc {
      case WorkerDoc(wn, ln, pk) => assert |c.key(pk)| != |A.PADDING|;
      case LeaderDoc(wn, h) =>
      case ClientDoc(n, x) => assert |A.Serialize(c.tlsHash(x), c.appHash(x))| == 68;
    }
  }

  /** Two documents with the same signed fields are the same, but for the hashes of a
      client: no document of one role passes for one of another, and none for another
      session's. */
  lemma FieldsDetermineDoc(c: Codec, a: Atoms, d: P.Doc, e: P.Doc, pcrs: A.PCRs)
    requires Faithful(c, a) && Covers(a, d) && Covers(a, e)
    requires SignedDoc(c, d, pcrs).fields == SignedDoc(c, e, pcrs).fields
    ensures d == e || (d.ClientDoc? && e.ClientDoc? && d.clientNonce == e.clientNonce)
  {
    assert d.WorkerDoc? ==> |c.key(d.publicKey)| == A.BOX_KEY_LEN;
    assert e.WorkerDoc? ==> |c.key(e.publicKey)| == A.BOX_KEY_LEN;
    assert d.LeaderDoc? ==> |c.digest(d.hashOfEncrypted)| == A.SHA256_LEN;
    assert e.LeaderDoc? ==> |c.digest(e.hashOfEncrypted)| == A.SHA256_LEN;
  }

  // --------------------------------------------------------- the atoms of a run

  /** All nonces and keys, and the digests that documents or handlers work with. */
  function AtomsOf(s: P.State): Atoms {
    Atoms(s.seen + (set d | d in s.docs && d.ClientDoc? :: d.clientNonce),
          s.boxKeys.Keys,
          (set d | d in s.docs && d.LeaderDoc? :: d.hashOfEncrypted)
          + (set h | h in s.finishes && s.finishes[h].body.blob.Some? :: P.Sha256(s.finishes[h].body.blob.value)))
  }

  /** They cover every document that was ever signed in the run, and every nonce that anybody
      verifies a document against. */
  lemma RunIsCovered(s0: P.State, trace: seq<P.Label>, s: P.State)
    requires P.Reaches(s0, trace, s)
    ensures forall d :: d in s.docs ==> Covers(AtomsOf(s), d)
    ensures forall n :: n in s.sessions ==> n in AtomsOf(s).nonces
    ensures forall sid :: sid in s.syncs ==> s.syncs[sid].nonce in AtomsOf(s).nonces
  {
    S.ReachableInv(s0, trace, s);
    K.ReachableKnown(s0, trace, s);
    forall d | d in s.docs ensures Covers(AtomsOf(s), d) {
      DocIsCovered(s, d);
    }
    forall sid | sid in s.syncs ensures s.syncs[sid].nonce in AtomsOf(s).nonces {
      assert I.SyncOk(s, sid);
    }
  }

  lemma DocIsCovered(s: P.State, d: P.Doc)
    requires I.Inv(s) && K.NoncesApart(s) && K.GetsKnown(s) && d in s.docs
    ensures Covers(AtomsOf(s), d)
  {
    assert I.DocOk(s, d);
    match d {
      case WorkerDoc(n, _, _) => assert I.SessionOk(s, n);
      case LeaderDoc(_, h) => assert I.SyncOk(s, h.blob.sender);
      case ClientDoc(_, _) =>
    }
  }

  /** So in every reachable state, whether a handler gets through verification and the hash
      check comes out the same on bytes and on atoms. */
  lemma ChecksAgree(s0: P.State, trace: seq<P.Label>, s: P.State, h: P.HandlerId, c: Codec, pcrs: A.PCRs, ours: A.PCRs)
    requires P.Reaches(s0, trace, s) && Faithful(c, AtomsOf(s)) && A.Matches(ours, pcrs)
    requires h in s.finishes && s.finishes[h].body.doc.Some? && s.finishes[h].body.blob.Some?
    ensures var f := s.finishes[h];
      var r := A.VerifyAttstn(Some(SignedDoc(c, f.body.doc.value, pcrs)), Some(ours), c.nonce(f.nonce));
      P.PassesChecks(s.docs, f) <==>
        r.Ok? && r.value.LeaderAux? && r.value.hashOfEncrypted == c.digest(P.Sha256(f.body.blob.value))
  {
    S.ReachableInv(s0, trace, s);
    K.ReachableKnown(s0, trace, s);
    RunIsCovered(s0, trace, s);
    HandlerChecksAgree(s, h, c, pcrs, ours);
  }

  /** The hash check on a document that may be anybody's, in terms of the atoms at hand. */
  lemma DocChecksAgree(c: Codec, a: Atoms, issued: set<P.Doc>, f: P.Finish, pcrs: A.PCRs, ours: A.PCRs)
    requires Faithful(c, a) && f.nonce in a.nonces && A.Matches(ours, pcrs)
    requires f.body.doc.Some? && f.body.doc.value in issued && Covers(a, f.body.doc.value)
    requires f.body.blob.Some? && P.Sha256(f.body.blob.value) in a.digests
    ensures var r := A.VerifyAttstn(Some(SignedDoc(c, f.body.doc.value, pcrs)), Some(ours), c.nonce(f.nonce));
      P.PassesChecks(issued, f) <==>
        r.Ok? && r.value.LeaderAux? && r.value.hashOfEncrypted == c.digest(P.Sha256(f.body.blob.value))
  {
    VerifyAgrees(c, a, issued, f.body.doc.value, f.nonce, pcrs, ours);
  }

  lemma HandlerChecksAgree(s: P.State, h: P.HandlerId, c: Codec, pcrs: A.PCRs, ours: A.PCRs)
    requires I.Inv(s) && K.BodiesOk(s) && Faithful(c, AtomsOf(s)) && A.Matches(ours, pcrs)
    requires h in s.finishes && s.finishes[h].body.doc.Some? && s.finishes[h].body.blob.Some?
    requires forall d :: d in s.docs ==> Covers(AtomsOf(s), d)
    requires forall n :: n in s.sessions ==> n in AtomsOf(s).nonces
    ensures var f := s.finishes[h];
      var r := A.VerifyAttstn(Some(SignedDoc(c, f.body.doc.value, pcrs)), Some(ours), c.nonce(f.nonce));
      P.PassesChecks(s.docs, f) <==>
        r.Ok? && r.value.LeaderAux? && r.value.hashOfEncrypted == c.digest(P.Sha256(f.body.blob.value))
  {
    var f := s.finishes[h];
    assert K.BodyOk(s, f.body);
    assert I.FinishOk(s, h);
    assert P.Sha256(f.body.blob.value) in AtomsOf(s).digests;
    DocChecksAgree(c, AtomsOf(s), s.docs, f, pcrs, ours);
  }

  // ------------------------------------------------------------ faithful codecs

  /** The run has no more nonces, keys and digests than there are strings for them. */
  predicate Writable(a: Atoms) {
    && |a.nonces| <= Strings(A.NONCE_LEN) && |a.keys| <= Strings(A.BOX_KEY_LEN)
    && |a.digests| <= Strings(A.SHA256_LEN)
  }

  /** A faithful codec exists iff there are enough strings. */
  lemma FaithfulIff(a: Atoms)
    ensures Writable(a) <==> exists c :: Faithful(c, a)
  {
    if Writable(a) {
      var c := FaithfulCodec(a);
    }
    if c :| Faithful(c, a) {
      var nonce: P.Nonce -> Bytes := (n: P.Nonce) => c.nonce(n);
      var digest: P.Digest -> Bytes := d => c.digest(d);
      NoMoreThanStrings(nonce, a.nonces, A.NONCE_LEN);
      NoMoreThanStrings(c.key, a.keys, A.BOX_KEY_LEN);
      NoMoreThanStrings(digest, a.digests, A.SHA256_LEN);
    }
  }

  lemma FaithfulCodec(a: Atoms) returns (c: Codec)
    requires Writable(a)
    ensures Faithful(c, a)
  {
    var nonce := Written(a.nonces, A.NONCE_LEN);
    var key := Written(a.keys, A.BOX_KEY_LEN);
    var digest := Written(a.digests, A.SHA256_LEN);
    c := Codec((n: P.Nonce) => nonce(n), key, (d: P.Digest) => digest(d),
               _ => ToBytes(0, A.SHA256_LEN), _ => ToBytes(0, A.SHA256_LEN));
  }
}
