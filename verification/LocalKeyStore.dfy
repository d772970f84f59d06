/**
 A user's keys on the user's own machine: creating and reloading them,
 encrypting for a published bundle and decrypting with the matching secrets,
 after sections 3.2 to 3.4 of "The X3DH Key Agreement Protocol".
 */
module LocalKeyStore {
  import opened Wrappers
  import opened Crypto
  import opened Bundles

  datatype LocalPreKey = LocalPreKey(id: nat, publicKey: PublicKey, privateKey: nat)

  datatype Identity = Identity(
    publicKey: PublicKey, privateKey: nat,
    signingPublicKey: PublicKey, signingSecretKey: nat,
    signedPreKey: LocalPreKey,
    oneTimePreKeys: seq<LocalPreKey>)

  /** A message payload object, or other text; `supported` covers its version and algorithm. */
  datatype Payload =
    | Payload(supported: bool, senderIdentityKey: PublicKey, senderEphemeralKey: PublicKey,
              signedPreKeyId: nat, oneTimePreKeyId: Option<nat>, nonce: nat, ciphertext: Ciphertext)
    | NotAPayload

  datatype Failure =
    | BadBundle | BadPreKey | BadPayload | WrongSender | NoSignedPreKey | NoOneTimePreKey
    | DhFailed | TooShort | DecryptionFailed

  const BATCH_SIZE: nat := 20

  // ---------------------------------------------------------------------------
  // Sign-up: fresh keys and the bundle published for them
  // ---------------------------------------------------------------------------

  function MakePreKey(id: nat, secret: nat): LocalPreKey {
    LocalPreKey(id, Pub(secret), secret)
  }

  function MakePreKeys(count: nat, secret: nat): (keys: seq<LocalPreKey>)
    ensures |keys| == count && forall i :: 0 <= i < count ==> keys[i] == MakePreKey(i + 1, secret + i)
  {
    seq(count, i requires 0 <= i < count => MakePreKey(i + 1, secret + i))
  }

  /** How many fresh secrets a sign-up draws. */
  const SECRETS_PER_USER: nat := BATCH_SIZE + 3

  /** The identity made from the secrets `secret`, `secret + 1`, ... */
  function NewIdentity(secret: nat): Identity {
    Identity(Pub(secret), secret, Pub(secret + 1), secret + 1, MakePreKey(1, secret + 2),
             MakePreKeys(BATCH_SIZE, secret + 3))
  }

  method CreateIdentity(secret: nat) returns (identity: Identity)
    ensures identity == NewIdentity(secret)
  {
    var keys := [];
    for i := 0 to BATCH_SIZE
      invariant keys == MakePreKeys(i, secret + 3)
    {
      keys := keys + [MakePreKey(i + 1, secret + 3 + i)];
    }
    identity := Identity(Pub(secret), secret, Pub(secret + 1), secret + 1, MakePreKey(1, secret + 2), keys);
  }

  function PublicKeys(keys: seq<LocalPreKey>): (r: seq<BundleKey>)
    ensures |r| == |keys| && forall i :: 0 <= i < |r| ==> r[i] == PreKey(keys[i].id, keys[i].publicKey)
  {
    seq(|keys|, i requires 0 <= i < |keys| => PreKey(keys[i].id, keys[i].publicKey))
  }

  function BundleOf(identity: Identity, keys: seq<BundleKey>): KeyText {
    var spk := identity.signedPreKey;
    BundleText(Bundle(
      true, Some(identity.publicKey), Some(identity.signingPublicKey),
      Some(SignedPreKey(spk.id, spk.publicKey, Signed(identity.signingSecretKey, spk.id, spk.publicKey))),
      Keys(keys)))
  }

  method PublicBundle(identity: Identity) returns (text: KeyText)
    ensures text == BundleOf(identity, PublicKeys(identity.oneTimePreKeys))
  {
    var keys := [];
    for i := 0 to |identity.oneTimePreKeys|
      invariant keys == PublicKeys(identity.oneTimePreKeys)[..i]
    {
      keys := keys + [PreKey(identity.oneTimePreKeys[i].id, identity.oneTimePreKeys[i].publicKey)];
    }
    assert keys == PublicKeys(identity.oneTimePreKeys);
    text := BundleOf(identity, keys);
  }

  predicate IsPair(k: LocalPreKey) { k.publicKey == Pub(k.privateKey) }

  /** The public halves belong to the private ones. */
  predicate IsConsistent(identity: Identity) {
    && identity.publicKey == Pub(identity.privateKey)
    && identity.signingPublicKey == Pub(identity.signingSecretKey)
    && IsPair(identity.signedPreKey)
    && forall k :: k in identity.oneTimePreKeys ==> IsPair(k)
  }

  predicate DistinctIds(keys: seq<LocalPreKey>) {
    forall i, j :: 0 <= i < j < |keys| ==> keys[i].id != keys[j].id
  }

  /** What sign-up publishes: a valid bundle whose prekeys are numbered 1 to 20. */
  lemma SignUpBundle(secret: nat)
    ensures var identity := NewIdentity(secret);
            && IsConsistent(identity) && DistinctIds(identity.oneTimePreKeys)
            && |identity.oneTimePreKeys| == BATCH_SIZE
            && (forall i :: 0 <= i < BATCH_SIZE ==> identity.oneTimePreKeys[i].id == i + 1)
            && (forall keys :: IsValidText(BundleOf(identity, keys)))
  {
  }

  /** All secrets of an identity, in the order they are drawn. */
  function Secrets(identity: Identity): (r: seq<nat>)
    ensures |r| == |identity.oneTimePreKeys| + 3
  {
    [identity.privateKey, identity.signingSecretKey, identity.signedPreKey.privateKey]
    + seq(|identity.oneTimePreKeys|,
          i requires 0 <= i < |identity.oneTimePreKeys| => identity.oneTimePreKeys[i].privateKey)
  }

  /** A new identity uses each of its fresh secrets once. */
  lemma SecretsAreDistinct(secret: nat)
    ensures var r := Secrets(NewIdentity(secret));
            |r| == SECRETS_PER_USER && forall i :: 0 <= i < |r| ==> r[i] == secret + i
  {
  }

  // ---------------------------------------------------------------------------
  // Encryption
  // ---------------------------------------------------------------------------

  /** The exchanges in order, unless one of them fails. */
  function Exchanges(a: Option<Shared>, b: Option<Shared>, c: Option<Shared>,
                     d: Option<Option<Shared>>): Option<MessageKey> {
    if a.None? || b.None? || c.None? || (d.Some? && d.value.None?) then None
    else Some(Hkdf([a.value, b.value, c.value] + if d.Some? then [d.value.value] else []))
  }

  /** The front of the recipient's prekey list, when there is a list and it is not empty. */
  function FrontPreKey(t: KeyText): Option<BundleKey> {
    if PreKeys(t) == [] then None else Some(PreKeys(t)[0])
  }

  /** The sender's side of the key agreement; the fourth exchange needs a one-time prekey. */
  function SenderKey(identity: nat, ephemeral: nat, recipientIdentity: PublicKey, spk: PublicKey,
                     opk: Option<PublicKey>): Option<MessageKey> {
    Exchanges(Dh(identity, spk), Dh(ephemeral, recipientIdentity), Dh(ephemeral, spk),
              if opk.None? then None else Some(Dh(ephemeral, opk.value)))
  }

  function EncryptMessage(plaintext: string, sender: Identity, recipientKey: KeyText,
                          conversationId: nat, senderId: nat, recipientId: nat,
                          ephemeral: nat, nonce: nat): Result<Payload, Failure>
  {
    if !IsValidText(recipientKey) then Err(BadBundle)
    else
      var bundle, front := recipientKey.bundle, FrontPreKey(recipientKey);
      if front.Some? && front.value.NotAPreKey? then Err(BadPreKey)
      else
        var identityKey, spk := bundle.identityKey.value, bundle.signedPreKey.value;
        var key := SenderKey(sender.privateKey, ephemeral, identityKey, spk.publicKey,
                             if front.None? then None else Some(front.value.publicKey));
        if key.None? then Err(DhFailed)
        else
          var preKeyId := if front.None? then None else Some(front.value.id);
          var aad := AssociatedData(conversationId, senderId, recipientId, sender.publicKey, Pub(ephemeral),
                                    identityKey, spk.id, preKeyId);
          Ok(Payload(true, sender.publicKey, Pub(ephemeral), spk.id, preKeyId, nonce,
                     Sealed(key.value, nonce, aad, plaintext)))
  }

  // ---------------------------------------------------------------------------
  // Decryption
  // ---------------------------------------------------------------------------

  function FindPreKey(keys: seq<LocalPreKey>, id: nat): (r: Option<LocalPreKey>)
    ensures r.Some? ==> r.value in keys && r.value.id == id
    ensures r.None? <==> forall k :: k in keys ==> k.id != id
  {
    if keys == [] then None
    else if keys[0].id == id then Some(keys[0])
    else FindPreKey(keys[1..], id)
  }

  /** The recipient's side of the same agreement. */
  function RecipientKey(identity: nat, spk: nat, opk: Option<nat>, senderIdentity: PublicKey,
                        ephemeral: PublicKey): Option<MessageKey> {
    Exchanges(Dh(spk, senderIdentity), Dh(identity, ephemeral), Dh(spk, ephemeral),
              if opk.None? then None else Some(Dh(opk.value, ephemeral)))
  }

  function DecryptMessage(payload: Payload, recipient: Identity, senderKey: KeyText,
                          conversationId: nat, senderId: nat, recipientId: nat): Result<string, Failure>
  {
    if payload.NotAPayload? || !payload.supported then Err(BadPayload)
    else if !IsValidText(senderKey) then Err(BadBundle)
    else if senderKey.bundle.identityKey.value != payload.senderIdentityKey then Err(WrongSender)
    else if recipient.signedPreKey.id != payload.signedPreKeyId then Err(NoSignedPreKey)
    else
      var preKey := if payload.oneTimePreKeyId.None? then None
                    else FindPreKey(recipient.oneTimePreKeys, payload.oneTimePreKeyId.value);
      if payload.oneTimePreKeyId.Some? && preKey.None? then Err(NoOneTimePreKey)
      else
        var key := RecipientKey(recipient.privateKey, recipient.signedPreKey.privateKey,
                                if preKey.None? then None else Some(preKey.value.privateKey),
                                payload.senderIdentityKey, payload.senderEphemeralKey);
        if key.None? then Err(DhFailed)
        else if payload.ciphertext.Junk? && payload.ciphertext.tooShort then Err(TooShort)
        else
          var aad := AssociatedData(conversationId, senderId, recipientId, payload.senderIdentityKey,
                                    payload.senderEphemeralKey, recipient.publicKey, payload.signedPreKeyId,
                                    payload.oneTimePreKeyId);
          var plain := Open(key.value, payload.nonce, aad, payload.ciphertext);
          if plain.None? then Err(DecryptionFailed) else Ok(plain.value)
  }

  function EraseFirst(keys: seq<LocalPreKey>, id: nat): seq<LocalPreKey> {
    if keys == [] then []
    else if keys[0].id == id then keys[1..]
    else [keys[0]] + EraseFirst(keys[1..], id)
  }

  lemma {:induction false} ErasedAt(keys: seq<LocalPreKey>, id: nat, i: nat)
    requires i < |keys| && keys[i].id == id && forall j :: 0 <= j < i ==> keys[j].id != id
    ensures EraseFirst(keys, id) == keys[..i] + keys[i + 1..]
    ensures FindPreKey(keys, id) == Some(keys[i])
  {
    if i > 0 {
      ErasedAt(keys[1..], id, i - 1);
    }
  }

  /** The keys after an attempt to decrypt: one prekey fewer if it succeeded with one. */
  function AfterDecrypt(identity: Identity, payload: Payload, result: Result<string, Failure>): Identity {
    if result.Ok? && payload.Payload? && payload.oneTimePreKeyId.Some?
    then identity.(oneTimePreKeys := EraseFirst(identity.oneTimePreKeys, payload.oneTimePreKeyId.value))
    else identity
  }

  /** The used list after an attempt: the prekey's identifier is recorded once. */
  function Recorded(used: seq<nat>, id: nat): seq<nat> {
    if id in used then used else used + [id]
  }

  function AfterDecryptUsed(used: seq<nat>, payload: Payload, result: Result<string, Failure>): seq<nat> {
    if result.Ok? && payload.Payload? && payload.oneTimePreKeyId.Some?
    then Recorded(used, payload.oneTimePreKeyId.value) else used
  }

  /** The stored prekeys a login keeps: those whose identifier is not recorded as used. */
  function Unused(stored: seq<LocalPreKey>, used: seq<nat>): (keys: seq<LocalPreKey>)
    ensures forall k :: k in keys <==> k in stored && k.id !in used
  {
    if stored == [] then []
    else (if stored[0].id in used then [] else [stored[0]]) + Unused(stored[1..], used)
  }

  lemma UnusedTail(kept: seq<LocalPreKey>, stored: seq<LocalPreKey>, used: seq<nat>, i: nat)
    requires i < |stored|
    ensures kept + Unused(stored[i..], used)
         == (if stored[i].id in used then kept else kept + [stored[i]]) + Unused(stored[i + 1..], used)
  {
  }

  method KeepUnused(stored: seq<LocalPreKey>, used: seq<nat>) returns (kept: seq<LocalPreKey>)
    ensures kept == Unused(stored, used)
  {
    kept := [];
    ghost var all := Unused(stored, used);
    assert stored[0..] == stored;
    for i := 0 to |stored|
      invariant kept + Unused(stored[i..], used) == all
    {
      UnusedTail(kept, stored, used, i);
      if stored[i].id !in used {
        kept := kept + [stored[i]];
      }
    }
  }

  /** The key file: the material written at sign-up, and the list of used prekeys (absent, or not a list). */
  class KeyFile {
    const material: Identity
    var usedOneTimePreKeyIds: Option<seq<nat>>

    constructor (material: Identity)
      ensures this.material == material && usedOneTimePreKeyIds == Some([])
    {
      this.material := material;
      usedOneTimePreKeyIds := Some([]);
    }

    function Used(): seq<nat>
      reads this
    {
      if usedOneTimePreKeyIds.Some? then usedOneTimePreKeyIds.value else []
    }
  }

  /** The keys in memory during a session; `keyFile` is null for keys that were never stored. */
  class LocalIdentity {
    var keys: Identity
    const keyFile: KeyFile?

    constructor InMemory(keys: Identity)
      ensures this.keys == keys && keyFile == null
    {
      this.keys := keys;
      keyFile := null;
    }

    /** Reads the stored material, leaving out the prekeys already used. */
    constructor LoadForLogin(file: KeyFile)
      ensures keyFile == file
      ensures keys == file.material.(oneTimePreKeys := Unused(file.material.oneTimePreKeys, file.Used()))
    {
      var kept := KeepUnused(file.material.oneTimePreKeys, file.Used());
      keys := file.material.(oneTimePreKeys := kept);
      keyFile := file;
    }

    /** Drops the prekey from memory and records it in the file. */
    method EraseOneTimePreKey(id: nat) returns (erased: bool)
      modifies this`keys, keyFile
      ensures erased <==> FindPreKey(old(keys).oneTimePreKeys, id).Some?
      ensures !erased ==> keys == old(keys) && (keyFile != null ==> keyFile.Used() == old(keyFile.Used()))
      ensures erased ==> keys == old(keys).(oneTimePreKeys := EraseFirst(old(keys).oneTimePreKeys, id))
      ensures erased && keyFile != null ==> keyFile.Used() == Recorded(old(keyFile.Used()), id)
    {
      var list := keys.oneTimePreKeys;
      var i := 0;
      while i < |list| && list[i].id != id
        invariant 0 <= i <= |list|
        invariant forall j :: 0 <= j < i ==> list[j].id != id
      {
        i := i + 1;
      }
      if i == |list| {
        return false;
      }
      ErasedAt(list, id, i);
      keys := keys.(oneTimePreKeys := list[..i] + list[i + 1..]);
      if keyFile != null {
        var used := keyFile.Used();
        if id !in used {
          keyFile.usedOneTimePreKeyIds := Some(used + [id]);
        }
      }
      erased := true;
    }

    /** Decrypts, and forgets the one-time prekey the payload used. */
    method Decrypt(payload: Payload, senderKey: KeyText, conversationId: nat, senderId: nat, recipientId: nat)
      returns (result: Result<string, Failure>)
      modifies this`keys, keyFile
      ensures result == DecryptMessage(payload, old(keys), senderKey, conversationId, senderId, recipientId)
      ensures keys == AfterDecrypt(old(keys), payload, result)
      ensures keyFile != null ==> keyFile.Used() == AfterDecryptUsed(old(keyFile.Used()), payload, result)
    {
      result := DecryptMessage(payload, keys, senderKey, conversationId, senderId, recipientId);
      if result.Ok? && payload.oneTimePreKeyId.Some? {
        var _ := EraseOneTimePreKey(payload.oneTimePreKeyId.value);
      }
    }
  }
}
