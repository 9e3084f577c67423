/** Symbolic cryptography: HKDF and HMAC are free constructors, X25519 is a
    commutative one, and an AEAD ciphertext opens only under its own key and
    associated data. A secret key is named by its public half, so "the holder
    of the secret for `p`" is written `p`. */
module Keys {
  import opened Wire

  const X25519_PUBLIC_LEN := 32
  const MLKEM_CIPHERTEXT_LEN := 1568

  /** Outputs of a key agreement. The Diffie-Hellman one is the unordered pair
      of public keys. The KEM one depends on the target key and the whole
      ciphertext, which is how implicit rejection looks symbolically. */
  datatype Secret =
    | DhShared(pair: set<Bytes>)
    | KemShared(publicKey: Bytes, ciphertext: Bytes)

  /** X25519 refuses public keys of low order; the all-zero one stands for them. */
  predicate Degenerate(publicKey: Bytes) {
    forall b :: b in publicKey ==> b == 0
  }

  /** The secret for `own` combined with the public key `peer`. */
  function Agreement(own: Bytes, peer: Bytes): Secret {
    DhShared({own, peer})
  }

  /** A key pair the generator may return. */
  predicate GoodKey(publicKey: Bytes) {
    |publicKey| == X25519_PUBLIC_LEN && !Degenerate(publicKey)
  }

  /** Thirty-two bytes, not all of them zero. */
  lemma GoodKeyIff(publicKey: Bytes)
    ensures GoodKey(publicKey) <==> |publicKey| == 32 && exists i :: 0 <= i < |publicKey| && publicKey[i] != 0
  {
    if GoodKey(publicKey) {
      var b :| b in publicKey && b != 0;
    }
    forall i | 0 <= i < |publicKey| ensures publicKey[i] in publicKey {}
  }

  datatype Key =
    | Handshake(secrets: seq<Secret>, transcript: Bytes)  // HKDF over the handshake secrets
    | RootStep(root: Key, dh: Secret)                     // first half of the root-chain HKDF
    | ChainStart(root: Key, dh: Secret)                   // second half
    | NextChain(chain: Key)                               // HMAC with the next-key seed
    | MessageKey(chain: Key)                              // HMAC with the message-key seed

  /** `Forged` is any byte string that is not the AEAD output under some key. */
  datatype Ciphertext =
    | Sealed(key: Key, associatedData: Bytes, plaintext: Bytes)
    | Forged(bytes: Bytes)

  function Open(key: Key, ciphertext: Ciphertext, associatedData: Bytes): Option<Bytes> {
    if ciphertext.Sealed? && ciphertext.key == key && ciphertext.associatedData == associatedData
    then Some(ciphertext.plaintext) else None
  }

  /** The name of a zero-filled secret key. No generator returns it. */
  const WIPED: Bytes := []

  lemma WipedIsNoGoodKey()
    ensures !GoodKey(WIPED)
  {
  }

  /** A key pair as the source holds it: one object, with a secret half that
      whoever holds the object can zero-fill for all other holders. `secretKey`
      names the public half the secret belongs to. */
  class SharedKeyPair {
    const publicKey: Bytes
    var secretKey: Bytes

    constructor (publicKey: Bytes)
      ensures this.publicKey == publicKey == secretKey
    {
      this.publicKey, secretKey := publicKey, publicKey;
    }

    method Wipe()
      modifies this
      ensures secretKey == WIPED
    {
      secretKey := WIPED;
    }
  }

  // -------------------------------------------------------------------------
  // Three measures of a key term
  // -------------------------------------------------------------------------

  /** How many root-chain steps lie under a key. */
  function Depth(k: Key): nat {
    match k
    case Handshake(_, _) => 0
    case RootStep(r, _) => Depth(r) + 1
    case ChainStart(r, _) => Depth(r) + 1
    case NextChain(c) => Depth(c)
    case MessageKey(c) => Depth(c)
  }

  /** How many symmetric steps were taken since the chain started. */
  function Steps(k: Key): nat {
    match k
    case NextChain(c) => Steps(c) + 1
    case MessageKey(c) => Steps(c)
    case _ => 0
  }

  /** The handshake secret at the bottom. */
  function Seed(k: Key): Key {
    match k
    case Handshake(_, _) => k
    case RootStep(r, _) => Seed(r)
    case ChainStart(r, _) => Seed(r)
    case NextChain(c) => Seed(c)
    case MessageKey(c) => Seed(c)
  }

  /** A chain key after `n` symmetric steps. */
  function Advance(chain: Key, n: nat): Key {
    if n == 0 then chain else NextChain(Advance(chain, n - 1))
  }

  lemma {:induction false} AdvanceMeasures(chain: Key, n: nat)
    ensures Depth(Advance(chain, n)) == Depth(chain)
    ensures Steps(Advance(chain, n)) == Steps(chain) + n
    ensures Seed(Advance(chain, n)) == Seed(chain)
  {
    if n > 0 {
      AdvanceMeasures(chain, n - 1);
    }
  }

  lemma {:induction false} AdvanceSum(chain: Key, m: nat, n: nat)
    ensures Advance(Advance(chain, m), n) == Advance(chain, m + n)
  {
    if n > 0 {
      AdvanceSum(chain, m, n - 1);
    }
  }
}
