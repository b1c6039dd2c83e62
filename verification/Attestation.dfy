/** Attestation documents: what is put into their three free fields, what is read back
    out of them, and when two enclaves count as identical. */
module Attestation {
  import opened Common

  const NONCE_LEN := 20
  const SHA256_LEN := 32
  const BOX_KEY_LEN := 32
  const PARENT_PCR := 4

  type Nonce = n: Bytes | |n| == NONCE_LEN witness seq(NONCE_LEN, _ => 0)
  type Hash = h: Bytes | |h| == SHA256_LEN witness seq(SHA256_LEN, _ => 0)
  type PCRs = map<nat, Bytes>

  datatype Error = BadDocument | NoPCRs | PCRMismatch | BadSliceLen | NonceMismatch
  datatype Result<+T> = Ok(value: T) | Err(error: Error)

  datatype AuxInfo =
    | ClientAux(clientNonce: Nonce, attestationHashes: Bytes)
    | WorkerAux(workersNonce: Nonce, leadersNonce: Nonce, publicKey: Bytes)
    | LeaderAux(workersNonce: Nonce, hashOfEncrypted: Bytes)

  /** The fields that the hypervisor signs on an enclave's behalf. */
  datatype Fields = Fields(nonce: Bytes, userData: Bytes, publicKey: Bytes)

  /** A document that carries the hypervisor's signature. */
  datatype Signed = Signed(fields: Fields, pcrs: PCRs)

  // The bytes of "dummy".
  const PADDING: Bytes := [100, 117, 109, 109, 121]

  // ------------------------------------------------------- PCR comparison

  /** Same number of registers, and every register of ours but PCR4 has the same value
      among theirs. */
  predicate Matches(ours: PCRs, theirs: PCRs) {
    && |ours| == |theirs|
    && forall pcr :: pcr in ours && pcr != PARENT_PCR ==> pcr in theirs && theirs[pcr] == ours[pcr]
  }

  /** arePCRsIdentical walks our registers in some order and stops at the first that
      differs. */
  method ArePCRsIdentical(ours: PCRs, theirs: PCRs) returns (same: bool)
    ensures same <==> Matches(ours, theirs)
  {
    if |ours| != |theirs| {
      return false;
    }
    var rest := ours.Keys;
    while rest != {}
      invariant rest <= ours.Keys
      invariant forall p :: p in ours && p !in rest && p != PARENT_PCR ==> p in theirs && theirs[p] == ours[p]
      decreases |rest|
    {
      var pcr :| pcr in rest;
      rest := rest - {pcr};
      if pcr == PARENT_PCR {
        continue;
      }
      if pcr !in theirs {
        return false;
      }
      if ours[pcr] != theirs[pcr] {
        return false;
      }
    }
    return true;
  }

  function ButParent(a: PCRs): PCRs {
    a - {PARENT_PCR}
  }

  /** Of two sets, the larger has an element that the other lacks. */
  lemma LargerSet(x: set<nat>, y: set<nat>) returns (p: nat)
    requires |x| > |y|
    ensures p in x && p !in y
  {
    assert x == (x * y) + (x - y) && y == (x * y) + (y - x);
    assert |x - y| > 0;
    p :| p in x - y;
  }

  lemma ButParentSize(a: PCRs)
    ensures ButParent(a).Keys == a.Keys - {PARENT_PCR}
    ensures |ButParent(a).Keys| == |a| - (if PARENT_PCR in a then 1 else 0)
  {
    assert ButParent(a).Keys == a.Keys - {PARENT_PCR};
    if PARENT_PCR !in a { assert a.Keys - {PARENT_PCR} == a.Keys; }
  }

  /** The comparison says yes to two register maps that both have or both lack PCR4 iff
      the maps are equal apart from PCR4.  The loop only looks at one of them; that the
      other has nothing more follows from the sizes. */
  lemma MatchesIffEqualButParent(a: PCRs, b: PCRs)
    requires PARENT_PCR in a <==> PARENT_PCR in b
    ensures Matches(a, b) <==> ButParent(a) == ButParent(b)
  {
    if Matches(a, b) {
      NothingMore(a, b);
    }
    if ButParent(a) == ButParent(b) {
      ButParentSize(a);
      ButParentSize(b);
      forall p | p in a && p != PARENT_PCR ensures p in b && b[p] == a[p] {
        assert p in ButParent(a) && ButParent(a)[p] == a[p];
      }
    }
  }

  lemma NothingMore(a: PCRs, b: PCRs)
    requires (PARENT_PCR in a <==> PARENT_PCR in b) && Matches(a, b)
    ensures ButParent(a) == ButParent(b)
  {
    ButParentSize(a);
    ButParentSize(b);
    SameSizeSubset(ButParent(a).Keys, ButParent(b).Keys);
  }

  lemma SameSizeSubset(x: set<nat>, y: set<nat>)
    requires x <= y && |x| == |y|
    ensures x == y
  {
    assert y == x + (y - x);
    assert y - x == {};
  }

  /** Among maps that all have or all lack PCR4, the comparison is an equivalence. */
  lemma MatchesIsEquivalence(a: PCRs, b: PCRs, c: PCRs)
    requires PARENT_PCR in a <==> PARENT_PCR in b
    requires PARENT_PCR in b <==> PARENT_PCR in c
    ensures Matches(a, a) && (Matches(a, b) ==> Matches(b, a))
    ensures Matches(a, b) && Matches(b, c) ==> Matches(a, c)
  {
    MatchesIffEqualButParent(a, b);
    MatchesIffEqualButParent(b, a);
    MatchesIffEqualButParent(b, c);
    MatchesIffEqualButParent(a, c);
  }

  /** A map without PCR4 never matches one that has it, so that the comparison is not
      symmetric where only one of two enclaves reports PCR4. */
  lemma MatchesIsOneSided(a: PCRs, b: PCRs)
    requires PARENT_PCR !in a && PARENT_PCR in b
    ensures !Matches(a, b)
  {
    if |a| == |b| {
      ButParentSize(b);
      var p := LargerSet(a.Keys, ButParent(b).Keys);
      assert p in a && p != PARENT_PCR && p !in b;
    }
  }

  /** The other way round, a map with PCR4 matches one that lacks it iff that one has just one
      register more than ours without PCR4. */
  lemma MatchesOneMoreIff(a: PCRs, b: PCRs)
    requires PARENT_PCR in a && PARENT_PCR !in b
    ensures Matches(a, b) <==> exists p :: p in b && p !in a && b - {p} == ButParent(a)
  {
    ButParentSize(a);
    if Matches(a, b) {
      var p := LargerSet(b.Keys, ButParent(a).Keys);
      OneMore(a, b, p);
    }
    if p :| p in b && p !in a && b - {p} == ButParent(a) {
      assert (b - {p}).Keys == b.Keys - {p};
      forall q | q in a && q != PARENT_PCR ensures q in b && b[q] == a[q] {
        assert q in ButParent(a) && ButParent(a)[q] == a[q];
      }
    }
  }

  lemma OneMore(a: PCRs, b: PCRs, p: nat)
    requires PARENT_PCR in a && PARENT_PCR !in b && Matches(a, b) && p in b && p !in ButParent(a)
    ensures p !in a && b - {p} == ButParent(a)
  {
    ButParentSize(a);
    assert (b - {p}).Keys == b.Keys - {p};
    SameSizeSubset(ButParent(a).Keys, b.Keys - {p});
  }

  /** The promise that the comparison says yes if and only if the maps are identical does
      not hold: here it says yes to maps that have nothing in common, in one order. */
  lemma MatchesButDiffers()
    ensures Matches(map[4 := [1]], map[0 := [2]])
    ensures !Matches(map[0 := [2]], map[4 := [1]])
    ensures ButParent(map[4 := [1]]) != ButParent(map[0 := [2]])
  {
    var a: PCRs, b: PCRs := map[PARENT_PCR := [1]], map[0 := [2]];
    MatchesIsOneSided(b, a);
    assert 0 in ButParent(b) && 0 !in ButParent(a);
  }

  /** Two register maps count as those of the same image: they are equal apart from PCR4, or
      theirs has some other register in its place. */
  predicate SameImage(ours: PCRs, theirs: PCRs) {
    if PARENT_PCR in ours <==> PARENT_PCR in theirs then ButParent(ours) == ButParent(theirs)
    else PARENT_PCR in ours && exists p :: p in theirs && p !in ours && theirs - {p} == ButParent(ours)
  }

  lemma MatchesIff(a: PCRs, b: PCRs)
    ensures Matches(a, b) <==> SameImage(a, b)
  {
    if PARENT_PCR in a <==> PARENT_PCR in b {
      MatchesIffEqualButParent(a, b);
    } else if PARENT_PCR in a {
      MatchesOneMoreIff(a, b);
    } else {
      MatchesIsOneSided(a, b);
    }
  }

  // ---------------------------------------------------------------- roles

  function SliceToNonce(s: Bytes): Result<Nonce> {
    if |s| != NONCE_LEN then Err(BadSliceLen) else Ok(s)
  }

  /** The fields that each role asks the hypervisor to sign. */
  function CreateAttstn(aux: AuxInfo): Fields {
    match aux
    case WorkerAux(wn, ln, pk) => Fields(ln, wn, pk)
    case LeaderAux(wn, h) => Fields(wn, h, PADDING)
    case ClientAux(n, hashes) => Fields(n, hashes, PADDING)
  }

  /** The auxiliary information of a document; None stands for bytes that the
      hypervisor did not sign, or for an enclave that cannot read its own registers. */
  function VerifyAttstn(doc: Option<Signed>, ourPCRs: Option<PCRs>, ourNonce: Nonce): Result<AuxInfo> {
    if doc.None? then Err(BadDocument)
    else if ourPCRs.None? then Err(NoPCRs)
    else if !Matches(ourPCRs.value, doc.value.pcrs) then Err(PCRMismatch)
    else
      var f := doc.value.fields;
      match SliceToNonce(f.nonce)
      case Err(e) => Err(e)
      case Ok(theirNonce) =>
        if ourNonce != theirNonce then Err(NonceMismatch)
        else if f.publicKey == PADDING then Ok(LeaderAux(theirNonce, f.userData))
        else match SliceToNonce(f.userData)
          case Err(e) => Err(e)
          case Ok(workersNonce) => Ok(WorkerAux(workersNonce, theirNonce, f.publicKey))
  }

  /** A document is accepted iff the hypervisor signed it, for an enclave of the same image,
      with the nonce that was asked for, and its other fields make up a leader's record or a
      worker's. */
  lemma VerifyOkIff(doc: Option<Signed>, ourPCRs: Option<PCRs>, n: Nonce)
    ensures VerifyAttstn(doc, ourPCRs, n).Ok? <==>
      && doc.Some? && ourPCRs.Some? && SameImage(ourPCRs.value, doc.value.pcrs)
      && doc.value.fields.nonce == n
      && (doc.value.fields.publicKey == PADDING || |doc.value.fields.userData| == 20)
  {
    if doc.Some? && ourPCRs.Some? { MatchesIff(ourPCRs.value, doc.value.pcrs); }
  }

  /** Which record it is, by the public-key field. */
  lemma VerifiedRecord(doc: Signed, ourPCRs: PCRs, n: Nonce)
    requires VerifyAttstn(Some(doc), Some(ourPCRs), n).Ok?
    ensures var aux := VerifyAttstn(Some(doc), Some(ourPCRs), n).value;
      if doc.fields.publicKey == PADDING then aux == LeaderAux(n, doc.fields.userData)
      else aux.WorkerAux? && aux.workersNonce == doc.fields.userData && aux.leadersNonce == n
           && aux.publicKey == doc.fields.publicKey
  {
  }

  /** Why a document is turned down. */
  lemma VerifyErrors(doc: Option<Signed>, ourPCRs: Option<PCRs>, n: Nonce)
    ensures var r := VerifyAttstn(doc, ourPCRs, n);
      && (r == Err(BadDocument) <==> doc.None?)
      && (r == Err(NoPCRs) <==> doc.Some? && ourPCRs.None?)
      && (r == Err(PCRMismatch) <==> doc.Some? && ourPCRs.Some? && !SameImage(ourPCRs.value, doc.value.pcrs))
      && (r == Err(NonceMismatch) <==>
            && doc.Some? && ourPCRs.Some? && SameImage(ourPCRs.value, doc.value.pcrs)
            && |doc.value.fields.nonce| == 20 && doc.value.fields.nonce != n)
  {
    if doc.Some? && ourPCRs.Some? { MatchesIff(ourPCRs.value, doc.value.pcrs); }
  }

  /** The nonce that the verifier of a document has to expect. */
  function ExpectedNonce(aux: AuxInfo): Nonce {
    match aux
    case WorkerAux(_, ln, _) => ln
    case LeaderAux(wn, _) => wn
    case ClientAux(n, _) => n
  }

  /** Verify after create gives back the same record iff the role is told apart by the
      public-key field: a client's document reads as a leader's, and a worker's with
      the padding for a key would, too. */
  lemma RoleRoundTrip(aux: AuxInfo, pcrs: PCRs, ourPCRs: PCRs)
    requires Matches(ourPCRs, pcrs)
    ensures VerifyAttstn(Some(Signed(CreateAttstn(aux), pcrs)), Some(ourPCRs), ExpectedNonce(aux)) == Ok(aux)
            <==> aux.LeaderAux? || (aux.WorkerAux? && aux.publicKey != PADDING)
    ensures aux.WorkerAux? && |aux.publicKey| == BOX_KEY_LEN ==> aux.publicKey != PADDING
  {
  }

  /** Conversely, a record that verification returns is the one whose creation gives the
      signed fields, and it carries the nonce that was asked for. */
  lemma VerifiedFieldsAreCreated(doc: Signed, ourPCRs: PCRs, ourNonce: Nonce)
    ensures var r := VerifyAttstn(Some(doc), Some(ourPCRs), ourNonce);
      r.Ok? ==> CreateAttstn(r.value) == doc.fields && ExpectedNonce(r.value) == ourNonce && !r.value.ClientAux?
  {
  }

  // Multihash prefix: SHA-256, 32 bytes.
  const HASH_PREFIX: Bytes := [0x12, 32]

  /** AttestationHashes.Serialize. */
  function Serialize(tlsKeyHash: Hash, appKeyHash: Hash): (ser: Bytes)
    ensures |ser| == 68
  {
    HASH_PREFIX + tlsKeyHash + HASH_PREFIX + appKeyHash
  }

  /** Where the hashes are: each 32 bytes behind its two-byte prefix, the TLS hash first. */
  lemma SerializeLayout(tls: Hash, app: Hash)
    ensures var ser := Serialize(tls, app);
      && ser[0] == 0x12 && ser[1] == 32 && ser[2..34] == tls
      && ser[34] == 0x12 && ser[35] == 32 && ser[36..68] == app
  {
  }

  /** The padding spells "dummy". */
  lemma PaddingSpells(i: nat)
    requires i < 5
    ensures |PADDING| == 5 && PADDING[i] as int == "dummy"[i] as int
  {
  }

  lemma SerializeInjective(a: Hash, b: Hash, c: Hash, d: Hash)
    requires Serialize(a, b) == Serialize(c, d)
    ensures a == c && b == d
  {
    assert Serialize(a, b)[2..34] == a && Serialize(c, d)[2..34] == c;
    assert Serialize(a, b)[36..] == b && Serialize(c, d)[36..] == d;
  }

  /** A document that a client requested verifies as a leader's for the client's nonce,
      but the hash check of finishSync turns it down for every ciphertext. */
  lemma ClientDocFailsHashCheck(n: Nonce, tls: Hash, app: Hash, pcrs: PCRs, ourPCRs: PCRs,
                                sha256: Bytes -> Hash, encrypted: Bytes)
    requires Matches(ourPCRs, pcrs)
    ensures var doc := Signed(CreateAttstn(ClientAux(n, Serialize(tls, app))), pcrs);
      var r := VerifyAttstn(Some(doc), Some(ourPCRs), n);
      r == Ok(LeaderAux(n, Serialize(tls, app))) && r.value.hashOfEncrypted != sha256(encrypted)
  {
  }
}
