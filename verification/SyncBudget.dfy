/** How long a key-synchronization request gets, and which fit the worker's limit. */
module SyncBudget {
  import opened Common
  import opened Streams
  import opened LimitedReading

  const MAX_ATTSTN_BODY_LEN := 16384
  const MAX_KEY_MATERIAL_LEN := 1048576
  // Sealing prepends a public key (32 bytes) and an authenticator (16 bytes).
  const SEAL_OVERHEAD := 48
  // {"nitriding_key":,"nitriding_cert":,"app_keys":} without the values.
  const KEYS_JSON := 48
  // {"document":"","encrypted_keys":""} without the values.
  const BODY_JSON := 35

  /** Key material as JSON sees it: a field that was never set is null. */
  datatype RawKeys = RawKeys(nitridingKey: Option<Bytes>, nitridingCert: Option<Bytes>, appKeys: Option<Bytes>)

  /** Length of the padded Base64 form of n bytes (section 4 of RFC 4648). */
  function EncodedLen(n: nat): nat {
    (n + 2) / 3 * 4
  }

  /** finishSync reads at most this many bytes. */
  function MaxReadLen(): nat {
    EncodedLen(MAX_ATTSTN_BODY_LEN)
  }

  /** Either null or Base64 in quotes. */
  function FieldLen(field: Option<Bytes>): nat {
    if field.None? then 4 else 2 + EncodedLen(|field.value|)
  }

  function KeysLen(k: RawKeys): nat {
    KEYS_JSON + FieldLen(k.nitridingKey) + FieldLen(k.nitridingCert) + FieldLen(k.appKeys)
  }

  /** Length of the POST body for a document of the given length. */
  function PostLen(docLen: nat, k: RawKeys): nat {
    BODY_JSON + EncodedLen(docLen) + EncodedLen(KeysLen(k) + SEAL_OVERHEAD)
  }

  /** The POST is within finishSync's limit. */
  predicate Fits(docLen: nat, k: RawKeys) {
    PostLen(docLen, k) <= MaxReadLen()
  }

  // ------------------------------------------------------------- the text itself

  /** Padded Base64, as far as lengths go. */
  ghost predicate IsBase64(b64: Bytes -> string) {
    forall b :: |b64(b)| == EncodedLen(|b|)
  }

  function FieldText(field: Option<Bytes>, b64: Bytes -> string): string {
    if field.None? then "null" else "\"" + b64(field.value) + "\""
  }

  /** The JSON form of key material. */
  function KeysText(k: RawKeys, b64: Bytes -> string): string {
    "{\"nitriding_key\":" + FieldText(k.nitridingKey, b64)
    + ",\"nitriding_cert\":" + FieldText(k.nitridingCert, b64)
    + ",\"app_keys\":" + FieldText(k.appKeys, b64) + "}"
  }

  /** The body of the leader's POST. */
  function BodyText(doc: Bytes, encrypted: Bytes, b64: Bytes -> string): string {
    "{\"document\":\"" + b64(doc) + "\",\"encrypted_keys\":\"" + b64(encrypted) + "\"}"
  }

  /** The lengths are those of the text: of the keys, and of the POST when sealing adds 48
      bytes to them. */
  lemma TextLengths(k: RawKeys, doc: Bytes, encrypted: Bytes, b64: Bytes -> string)
    requires IsBase64(b64) && |encrypted| == |KeysText(k, b64)| + 48
    ensures |KeysText(k, b64)| == KeysLen(k)
    ensures |BodyText(doc, encrypted, b64)| == PostLen(|doc|, k)
  {
    assert |FieldText(k.nitridingKey, b64)| == FieldLen(k.nitridingKey);
    assert |FieldText(k.nitridingCert, b64)| == FieldLen(k.nitridingCert);
    assert |FieldText(k.appKeys, b64)| == FieldLen(k.appKeys);
  }

  /** In numbers: 21848 bytes less 35 for the frame of the body, and 48 each for the frame of
      the keys and for sealing. */
  lemma FitsIff(docLen: nat, k: RawKeys)
    ensures Fits(docLen, k) <==>
      EncodedLen(docLen)
      + EncodedLen(96 + FieldLen(k.nitridingKey) + FieldLen(k.nitridingCert) + FieldLen(k.appKeys)) <= 21813
  {
  }

  lemma EncodedLenMonotone(a: nat, b: nat)
    requires a <= b
    ensures EncodedLen(a) <= EncodedLen(b)
  {
    assert (a + 2) / 3 <= (b + 2) / 3;
  }

  /** Base64 inverted: n bytes fit into 4*q characters iff n is at most 3*q. */
  lemma EncodedLenFits(n: nat, q: nat)
    ensures EncodedLen(n) <= 4 * q <==> n <= 3 * q
  {
  }

  /** A sync request is readable iff its document and its twice-encoded keys fit: in
      terms of the sizes that an operator knows, iff the Base64 forms of the keys leave
      room for the document. */
  lemma ReadableIff(docLen: nat, k: RawKeys)
    ensures MaxReadLen() == 21848
    ensures Fits(docLen, k) <==>
      && EncodedLen(docLen) <= 21812
      && KeysLen(k) + SEAL_OVERHEAD <= 3 * ((21812 - EncodedLen(docLen)) / 4)
  {
    var room := 21812 - EncodedLen(docLen);
    assert EncodedLen(docLen) % 4 == 0 by { assert EncodedLen(docLen) == 4 * ((docLen + 2) / 3); }
    if room >= 0 {
      assert room == 4 * (room / 4);
      EncodedLenFits(KeysLen(k) + SEAL_OVERHEAD, room / 4);
    }
    assert EncodedLen(KeysLen(k) + SEAL_OVERHEAD) % 4 == 0 by {
      assert EncodedLen(KeysLen(k) + SEAL_OVERHEAD) == 4 * ((KeysLen(k) + SEAL_OVERHEAD + 2) / 3);
    }
  }

  /** No application keys of more than 12192 bytes can be synced, whatever the document
      and the other keys, although PUT takes up to a megabyte of them. */
  lemma LargeAppKeysCannotSync(docLen: nat, k: RawKeys)
    requires k.appKeys.Some? && |k.appKeys.value| > 12192
    ensures !Fits(docLen, k)
  {
    ReadableIff(docLen, k);
    EncodedLenMonotone(12193, |k.appKeys.value|);
  }

  /** Nothing is easier to send than empty application keys. */
  lemma EmptyAppKeysFitBest(docLen: nat, k: RawKeys)
    requires Fits(docLen, k)
    ensures Fits(docLen, k.(appKeys := Some([])))
  {
    var least := k.(appKeys := Some([]));
    assert KeysLen(least) <= KeysLen(k);
    EncodedLenMonotone(KeysLen(least) + SEAL_OVERHEAD, KeysLen(k) + SEAL_OVERHEAD);
  }

  /** The worker's limited reader refuses a request that does not fit, however it arrives,
      before it looks at anything in it. */
  method LargeRequestIsRefused(body: Bytes, stutters: nat, breaks: bool, docLen: nat, k: RawKeys)
    returns (r: Result)
    requires |body| == PostLen(docLen, k) && !Fits(docLen, k)
    ensures r == TooMuch
  {
    var s := new Stream(body, stutters, breaks);
    var l := new LimitReader(s, MaxReadLen());
    r := ReadAll(l);
  }
}
