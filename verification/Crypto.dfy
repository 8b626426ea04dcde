/** Ideal cryptography. Signatures and digests are terms that name what they
    cover, so they are deterministic and collision free; sealing takes its
    randomness as an argument, and only the recipient's key and the same info
    open a sealed value. */
module Crypto {
  import opened Basics

  datatype SecretKey = SecretKey(seed: nat)

  /** A weak key is one the libraries refuse: of small order. */
  datatype PublicKey = PublicKey(seed: nat) | WeakKey(n: nat)

  function PublicOf(key: SecretKey): PublicKey {
    PublicKey(key.seed)
  }

  datatype Signature<M> = Signature(signer: PublicKey, message: M) | Forged(n: nat)

  function Sign<M>(key: SecretKey, message: M): Signature<M> {
    Signature.Signature(PublicOf(key), message)
  }

  predicate Verify<M(==)>(key: PublicKey, message: M, signature: Signature<M>) {
    key.PublicKey? && signature == Signature.Signature(key, message)
  }

  datatype Digest<T> = Sha256(preimage: T) | OtherDigest(text: string)

  datatype Ciphertext<I, P> =
    | Sealed(recipient: PublicKey, info: I, plaintext: P, randomness: nat)
    | Garbage(n: nat)

  function Seal<I, P>(recipient: PublicKey, info: I, plaintext: P, randomness: nat): Option<Ciphertext<I, P>> {
    if recipient.PublicKey? then Some(Sealed(recipient, info, plaintext, randomness)) else None
  }

  function Open<I(==), P>(key: SecretKey, info: I, sealed: Ciphertext<I, P>): Option<P> {
    if sealed.Sealed? && sealed.recipient == PublicOf(key) && sealed.info == info
    then Some(sealed.plaintext) else None
  }
}
