/** Bytes and options shared by every part of the model. */
module Common {

  datatype Option<+T> = None | Some(value: T)

  newtype byte = x: int | 0 <= x < 256

  type Bytes = seq<byte>

  /** The three pieces of key material that a leader shares with its workers. */
  datatype KeySet = KeySet(nitridingKey: Bytes, nitridingCert: Bytes, appKeys: Bytes)

  /** The byte string that is hashed to compare key sets: certificate, key and
      application keys, one after the other. */
  function HashedBytes(k: KeySet): Bytes {
    k.nitridingCert + k.nitridingKey + k.appKeys
  }
}
