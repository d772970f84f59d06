/**
 Symbolic cryptography. A key pair is known by its secret number; an operation
 with the wrong key fails instead of returning noise.
 */
module Crypto {
  import opened Wrappers

  /** A public key field: the public half of a secret, or text that is no key (or a degenerate one). */
  datatype PublicKey = Pub(secret: nat) | NotAKey(text: string)

  /** The output of a Diffie-Hellman exchange: the unordered pair of the two secrets behind it. */
  datatype Shared = Shared(ends: multiset<nat>)

  function Dh(secret: nat, key: PublicKey): Option<Shared> {
    if key.Pub? then Some(Shared(multiset{secret, key.secret})) else None
  }

  lemma DhCommutes(a: nat, b: nat)
    ensures Dh(a, Pub(b)) == Dh(b, Pub(a))
  {
    assert multiset{a, b} == multiset{b, a};
  }

  /** An exchange determines the unordered pair of secrets behind it. */
  lemma {:induction false} DhBinds(a: nat, b: nat, c: nat, d: nat)
    requires Dh(a, Pub(b)) == Dh(c, Pub(d))
    ensures (a == c && b == d) || (a == d && b == c)
  {
  }

  /** A detached signature over a signed prekey's identifier and public key. */
  datatype Signature = Signed(secret: nat, id: nat, key: PublicKey) | NotASignature

  /** HKDF over the concatenation of equally long exchange outputs, so over their list. */
  datatype MessageKey = Hkdf(outputs: seq<Shared>)

  /** The context that authenticates a message. */
  datatype AssociatedData = AssociatedData(
    conversationId: nat, senderId: nat, recipientId: nat,
    senderIdentityKey: PublicKey, senderEphemeralKey: PublicKey, recipientIdentityKey: PublicKey,
    signedPreKeyId: nat, oneTimePreKeyId: Option<nat>)

  /** An authenticated ciphertext, or bytes that no key opens. */
  datatype Ciphertext =
    | Sealed(key: MessageKey, nonce: nat, aad: AssociatedData, plaintext: string)
    | Junk(tooShort: bool)

  function Open(key: MessageKey, nonce: nat, aad: AssociatedData, c: Ciphertext): Option<string> {
    if c.Sealed? && c.key == key && c.nonce == nonce && c.aad == aad then Some(c.plaintext) else None
  }
}
