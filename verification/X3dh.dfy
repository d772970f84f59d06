/**
 What encryption and decryption promise together: who can read a payload, in
 which context, how often, and that the keys in memory follow the key file.
 */
module X3dh {
  import opened Wrappers
  import opened Crypto
  import opened Bundles
  import opened LocalKeyStore

  datatype Context = Context(conversationId: nat, senderId: nat, recipientId: nat)

  function Encrypt(text: string, sender: Identity, key: KeyText, c: Context, ephemeral: nat,
                   nonce: nat): Result<Payload, Failure> {
    EncryptMessage(text, sender, key, c.conversationId, c.senderId, c.recipientId, ephemeral, nonce)
  }

  function Decrypt(p: Payload, recipient: Identity, senderKey: KeyText, c: Context): Result<string, Failure> {
    DecryptMessage(p, recipient, senderKey, c.conversationId, c.senderId, c.recipientId)
  }

  /** The secrets in memory are those behind a published bundle and the prekey at its front. */
  predicate HoldsSecretsOf(recipient: Identity, key: KeyText)
    requires IsValidText(key)
  {
    var spk, front := key.bundle.signedPreKey.value, FrontPreKey(key);
    && Some(recipient.publicKey) == key.bundle.identityKey
    && recipient.signedPreKey.id == spk.id && recipient.signedPreKey.publicKey == spk.publicKey
    && (front.Some? && front.value.PreKey? ==>
          var own := FindPreKey(recipient.oneTimePreKeys, front.value.id);
          own.Some? && own.value.publicKey == front.value.publicKey)
  }

  /** Encryption succeeds for every valid bundle whose front entry, if any, is a prekey with a proper key. */
  lemma EncryptSucceedsIff(text: string, sender: Identity, key: KeyText, c: Context, ephemeral: nat, nonce: nat)
    ensures Encrypt(text, sender, key, c, ephemeral, nonce).Ok? <==>
      && IsValidText(key)
      && (FrontPreKey(key).Some? ==> FrontPreKey(key).value.PreKey? && FrontPreKey(key).value.publicKey.Pub?)
  {
  }

  lemma SameExchanges(a: Option<Shared>, b: Option<Shared>, c: Option<Shared>, d: Option<Option<Shared>>,
                      a': Option<Shared>, b': Option<Shared>, c': Option<Shared>, d': Option<Option<Shared>>)
    requires Exchanges(a, b, c, d).Some? && Exchanges(a, b, c, d) == Exchanges(a', b', c', d')
    ensures a == a' && b == b' && c == c' && d == d'
  {
    var m, n := Exchanges(a, b, c, d).value.outputs, Exchanges(a', b', c', d').value.outputs;
    assert m[0] == n[0] && m[1] == n[1] && m[2] == n[2] && |m| == |n|;
    assert |m| == 4 ==> m[3] == n[3];
  }

  /** The two sides' message keys, from different secrets, agree exactly when the secrets match pairwise. */
  lemma KeysAgreeIff(sender: nat, ephemeral: nat, identity: nat, spk: nat, opk: Option<PublicKey>,
                     ownIdentity: nat, ownSpk: nat, ownOpk: Option<nat>)
    requires opk.Some? <==> ownOpk.Some?
    requires opk.Some? ==> opk.value.Pub?
    ensures SenderKey(sender, ephemeral, Pub(identity), Pub(spk), opk).Some?
    ensures SenderKey(sender, ephemeral, Pub(identity), Pub(spk), opk)
            == RecipientKey(ownIdentity, ownSpk, ownOpk, Pub(sender), Pub(ephemeral))
      <==> identity == ownIdentity && spk == ownSpk && (opk.Some? ==> opk.value == Pub(ownOpk.value))
  {
    DhCommutes(sender, spk);
    DhCommutes(ephemeral, identity);
    DhCommutes(ephemeral, spk);
    if opk.Some? {
      DhCommutes(ephemeral, opk.value.secret);
    }
    if SenderKey(sender, ephemeral, Pub(identity), Pub(spk), opk)
       == RecipientKey(ownIdentity, ownSpk, ownOpk, Pub(sender), Pub(ephemeral)) {
      SameExchanges(Dh(sender, Pub(spk)), Dh(ephemeral, Pub(identity)), Dh(ephemeral, Pub(spk)),
                    if opk.None? then None else Some(Dh(ephemeral, opk.value)),
                    Dh(ownSpk, Pub(sender)), Dh(ownIdentity, Pub(ephemeral)), Dh(ownSpk, Pub(ephemeral)),
                    if ownOpk.None? then None else Some(Dh(ownOpk.value, Pub(ephemeral))));
      DhBinds(sender, spk, ownSpk, sender);
      DhBinds(ephemeral, identity, ownIdentity, ephemeral);
      if opk.Some? {
        DhBinds(ephemeral, opk.value.secret, ownOpk.value, ephemeral);
      }
    }
  }

  lemma ReadsIff(p: Payload, recipient: Identity, senderKey: KeyText, d: Context, own: Option<LocalPreKey>)
    requires p.Payload? && p.supported && p.ciphertext.Sealed? && p.nonce == p.ciphertext.nonce
    requires IsValidText(senderKey) && senderKey.bundle.identityKey == Some(p.senderIdentityKey)
    requires recipient.signedPreKey.id == p.signedPreKeyId
    requires own == if p.oneTimePreKeyId.None? then None
                    else FindPreKey(recipient.oneTimePreKeys, p.oneTimePreKeyId.value)
    requires p.oneTimePreKeyId.Some? ==> own.Some?
    ensures Decrypt(p, recipient, senderKey, d)
         == var key := RecipientKey(recipient.privateKey, recipient.signedPreKey.privateKey,
                                    if own.None? then None else Some(own.value.privateKey),
                                    p.senderIdentityKey, p.senderEphemeralKey);
            if key.None? then Err(DhFailed)
            else if p.ciphertext.key == key.value
                 && p.ciphertext.aad == AssociatedData(d.conversationId, d.senderId, d.recipientId, p.senderIdentityKey,
                                                       p.senderEphemeralKey, recipient.publicKey, p.signedPreKeyId,
                                                       p.oneTimePreKeyId)
            then Ok(p.ciphertext.plaintext) else Err(DecryptionFailed)
  {
  }

  /**
   Decryption of an encrypted message succeeds exactly for the holder of the
   bundle's secrets, in the context it was encrypted for, against the sender's
   own identity; and then it gives back the text. This covers the form with and
   the form without a one-time prekey, and every wrong context and wrong reader.
   */
  lemma DecryptSucceedsIff(text: string, sender: Identity, key: KeyText, c: Context, ephemeral: nat, nonce: nat,
                           recipient: Identity, senderKey: KeyText, d: Context)
    requires IsConsistent(sender) && IsConsistent(recipient)
    requires Encrypt(text, sender, key, c, ephemeral, nonce).Ok?
    ensures var result := Decrypt(Encrypt(text, sender, key, c, ephemeral, nonce).value, recipient, senderKey, d);
            && (result.Ok? <==>
                  && d == c
                  && IsValidText(senderKey) && senderKey.bundle.identityKey == Some(sender.publicKey)
                  && HoldsSecretsOf(recipient, key))
            && (result.Ok? ==> result.value == text)
  {
    var p := Encrypt(text, sender, key, c, ephemeral, nonce).value;
    var front, spk := FrontPreKey(key), key.bundle.signedPreKey.value;
    assert p.senderIdentityKey == sender.publicKey && p.signedPreKeyId == spk.id;
    assert p.oneTimePreKeyId == if front.None? then None else Some(front.value.id);
    if !IsValidText(senderKey) || senderKey.bundle.identityKey.value != sender.publicKey
       || recipient.signedPreKey.id != spk.id {
      return;
    }
    var own := if front.None? then None else FindPreKey(recipient.oneTimePreKeys, front.value.id);
    if front.Some? && own.None? {
      return;
    }
    KeysAgreeIff(sender.privateKey, ephemeral, key.bundle.identityKey.value.secret, spk.publicKey.secret,
                 if front.None? then None else Some(front.value.publicKey),
                 recipient.privateKey, recipient.signedPreKey.privateKey,
                 if own.None? then None else Some(own.value.privateKey));
    ReadsIff(p, recipient, senderKey, d, own);
  }

  // ---------------------------------------------------------------------------
  // What a payload is, field by field
  // ---------------------------------------------------------------------------

  /** The exchange between two secrets, whoever computes it. */
  function Between(a: nat, b: nat): Shared {
    Shared(multiset{a, b})
  }

  /**
   An encrypted message names a fresh ephemeral key and carries the text under
   the key of section 3.3 of the X3DH description: sender's identity with signed
   prekey, ephemeral with identity, ephemeral with signed prekey, and ephemeral
   with the one-time prekey at the front. Nothing is encrypted for a bundle
   whose own signing key did not sign exactly this prekey.
   */
  lemma EncryptedIsX3dh(text: string, sender: Identity, key: KeyText, c: Context, ephemeral: nat, nonce: nat)
    requires Encrypt(text, sender, key, c, ephemeral, nonce).Ok?
    ensures key.BundleText? && key.bundle.supported
    ensures var b := key.bundle;
            && b.identityKey.Some? && b.identityKey.value.Pub? && b.signingKey.Some? && b.signingKey.value.Pub?
            && b.signedPreKey.Some? && b.signedPreKey.value.publicKey.Pub? && !b.oneTimePreKeys.Missing?
            && var spk := b.signedPreKey.value;
               spk.signature == Signed(b.signingKey.value.secret, spk.id, spk.publicKey)
    ensures var b, spk := key.bundle, key.bundle.signedPreKey.value;
            var keys := if b.oneTimePreKeys.Keys? then b.oneTimePreKeys.keys else [];
            var id := if keys == [] then None else Some(keys[0].id);
            var outputs := [Between(sender.privateKey, spk.publicKey.secret),
                            Between(ephemeral, b.identityKey.value.secret),
                            Between(ephemeral, spk.publicKey.secret)]
                           + if keys == [] then [] else [Between(ephemeral, keys[0].publicKey.secret)];
            && (keys != [] ==> keys[0].PreKey? && keys[0].publicKey.Pub?)
            && Encrypt(text, sender, key, c, ephemeral, nonce).value
               == Payload(true, sender.publicKey, Pub(ephemeral), spk.id, id, nonce,
                          Sealed(Hkdf(outputs), nonce,
                                 AssociatedData(c.conversationId, c.senderId, c.recipientId, sender.publicKey,
                                                Pub(ephemeral), b.identityKey.value, spk.id, id),
                                 text))
  {
  }

  /** The bundle is complete, and its signing key signed exactly this signed prekey. */
  predicate IsSignedBundle(key: KeyText) {
    && key.BundleText? && key.bundle.supported && !key.bundle.oneTimePreKeys.Missing?
    && key.bundle.identityKey.Some? && key.bundle.identityKey.value.Pub?
    && key.bundle.signingKey.Some? && key.bundle.signingKey.value.Pub?
    && key.bundle.signedPreKey.Some? && key.bundle.signedPreKey.value.publicKey.Pub?
    && var spk := key.bundle.signedPreKey.value;
       spk.signature == Signed(key.bundle.signingKey.value.secret, spk.id, spk.publicKey)
  }

  /** What every readable payload fulfils, for the exchange outputs `outputs`. */
  predicate IsSealedFor(p: Payload, recipient: Identity, senderKey: KeyText, d: Context, text: string,
                        outputs: seq<Shared>)
  {
    && p.Payload? && p.supported && IsSignedBundle(senderKey)
    && senderKey.bundle.identityKey.value == p.senderIdentityKey && p.signedPreKeyId == recipient.signedPreKey.id
    && p.ciphertext
       == Sealed(Hkdf(outputs), p.nonce,
                 AssociatedData(d.conversationId, d.senderId, d.recipientId, p.senderIdentityKey,
                                p.senderEphemeralKey, recipient.publicKey, p.signedPreKeyId, p.oneTimePreKeyId),
                 text)
  }

  /** The outputs the recipient shares with the two keys a payload names. */
  function OutputsOf(p: Payload, recipient: Identity): seq<Shared>
    requires p.Payload? && p.senderIdentityKey.Pub? && p.senderEphemeralKey.Pub?
  {
    [Between(recipient.signedPreKey.privateKey, p.senderIdentityKey.secret),
     Between(recipient.privateKey, p.senderEphemeralKey.secret),
     Between(recipient.signedPreKey.privateKey, p.senderEphemeralKey.secret)]
  }

  /**
   Any payload, whoever made it: without a one-time prekey it reads as a text
   exactly if that text is sealed in this context under the three exchanges with
   the recipient's secrets, and the sender's bundle is signed and names its key.
   */
  lemma ReadsWithoutPreKeyIff(p: Payload, recipient: Identity, senderKey: KeyText, d: Context, text: string)
    requires p.Payload? && p.oneTimePreKeyId.None?
    ensures Decrypt(p, recipient, senderKey, d) == Ok(text) <==>
      && p.senderIdentityKey.Pub? && p.senderEphemeralKey.Pub?
      && IsSealedFor(p, recipient, senderKey, d, text, OutputsOf(p, recipient))
  {
  }

  /** With one, exactly if there is a fourth exchange, with the first prekey of that identifier. */
  lemma ReadsWithPreKeyIff(p: Payload, recipient: Identity, senderKey: KeyText, d: Context, text: string, i: nat)
    requires p.Payload? && i < |recipient.oneTimePreKeys| && p.oneTimePreKeyId == Some(recipient.oneTimePreKeys[i].id)
    requires forall j :: 0 <= j < i ==> recipient.oneTimePreKeys[j].id != recipient.oneTimePreKeys[i].id
    ensures Decrypt(p, recipient, senderKey, d) == Ok(text) <==>
      && p.senderIdentityKey.Pub? && p.senderEphemeralKey.Pub?
      && IsSealedFor(p, recipient, senderKey, d, text,
                     OutputsOf(p, recipient)
                     + [Between(recipient.oneTimePreKeys[i].privateKey, p.senderEphemeralKey.secret)])
  {
    ErasedAt(recipient.oneTimePreKeys, recipient.oneTimePreKeys[i].id, i);
  }

  // ---------------------------------------------------------------------------
  // Memory against the key file, over sessions
  // ---------------------------------------------------------------------------

  datatype Attempt = Attempt(payload: Payload, senderKey: KeyText, context: Context)

  datatype Event = Try(attempt: Attempt) | Login

  datatype KeyState = KeyState(keys: Identity, used: seq<nat>)

  function Load(stored: Identity, used: seq<nat>): Identity {
    stored.(oneTimePreKeys := Unused(stored.oneTimePreKeys, used))
  }

  function Outcome(keys: Identity, a: Attempt): Result<string, Failure> {
    Decrypt(a.payload, keys, a.senderKey, a.context)
  }

  function Apply(stored: Identity, st: KeyState, e: Event): KeyState {
    match e
    case Login => KeyState(Load(stored, st.used), st.used)
    case Try(a) =>
      var result := Outcome(st.keys, a);
      KeyState(AfterDecrypt(st.keys, a.payload, result), AfterDecryptUsed(st.used, a.payload, result))
  }

  function Run(stored: Identity, events: seq<Event>): KeyState {
    if events == [] then KeyState(Load(stored, []), [])
    else Apply(stored, Run(stored, events[..|events| - 1]), events[|events| - 1])
  }

  /** A failed attempt changes neither the keys in memory nor the file. */
  lemma FailureChangesNothing(stored: Identity, st: KeyState, a: Attempt)
    requires Outcome(st.keys, a).Err?
    ensures Apply(stored, st, Try(a)) == st
  {
  }

  lemma {:induction false} UnusedTwice(stored: seq<LocalPreKey>, used: seq<nat>, id: nat)
    ensures Unused(stored, Recorded(used, id)) == Unused(Unused(stored, used), [id])
  {
    if stored != [] {
      var first, rest := stored[0], Unused(stored[1..], used);
      UnusedTwice(stored[1..], used, id);
      RecordedMembers(used, id, first.id);
      var once := Unused(stored, used);
      if first.id in used {
        assert once == rest;
      } else {
        assert once[0] == first && once[1..] == rest;
        assert Unused(once, [id]) == (if first.id in [id] then [] else [first]) + Unused(rest, [id]);
      }
    }
  }

  lemma RecordedMembers(used: seq<nat>, id: nat, x: nat)
    ensures x in Recorded(used, id) <==> x in used || x in [id]
  {
  }

  lemma {:induction false} EraseAgainstFilter(keys: seq<LocalPreKey>, id: nat)
    ensures FindPreKey(EraseFirst(keys, id), id).None? ==> EraseFirst(keys, id) == Unused(keys, [id])
  {
    if keys != [] && keys[0].id != id {
      EraseAgainstFilter(keys[1..], id);
      var e := EraseFirst(keys, id);
      assert e[1..] == EraseFirst(keys[1..], id);
    } else if keys != [] && FindPreKey(keys[1..], id).None? {
      NothingToFilter(keys[1..], id);
    }
  }

  lemma {:induction false} NothingToFilter(keys: seq<LocalPreKey>, id: nat)
    requires FindPreKey(keys, id).None?
    ensures Unused(keys, [id]) == keys
  {
    if keys != [] {
      assert keys[0] in keys;
      NothingToFilter(keys[1..], id);
    }
  }

  /** No two of the keys have this identifier. */
  predicate OccursOnce(keys: seq<LocalPreKey>, id: nat) {
    forall i, j :: 0 <= i < j < |keys| && keys[i].id == id ==> keys[j].id != id
  }

  lemma {:induction false} NoneLeftIff(keys: seq<LocalPreKey>, id: nat)
    ensures FindPreKey(EraseFirst(keys, id), id).None? <==> OccursOnce(keys, id)
  {
    if keys != [] && keys[0].id != id {
      NoneLeftIff(keys[1..], id);
      var e := EraseFirst(keys, id);
      assert e[1..] == EraseFirst(keys[1..], id);
      assert OccursOnce(keys[1..], id) ==> OccursOnce(keys, id);
    }
  }

  /**
   Erasing a prekey from memory matches the filter of the next login exactly if
   no other prekey in memory has its identifier.
   */
  lemma EraseMatchesReloadIff(stored: seq<LocalPreKey>, used: seq<nat>, id: nat)
    requires FindPreKey(Unused(stored, used), id).Some?
    ensures EraseFirst(Unused(stored, used), id) == Unused(stored, Recorded(used, id)) <==>
      OccursOnce(Unused(stored, used), id)
  {
    UnusedTwice(stored, used, id);
    EraseAgainstFilter(Unused(stored, used), id);
    NoneLeftIff(Unused(stored, used), id);
  }

  lemma {:induction false} DistinctKept(stored: seq<LocalPreKey>, used: seq<nat>)
    requires DistinctIds(stored)
    ensures DistinctIds(Unused(stored, used))
  {
    if stored != [] {
      DistinctKept(stored[1..], used);
      var u := Unused(stored[1..], used);
      forall j | 0 <= j < |u| ensures u[j].id != stored[0].id {
        assert u[j] in stored[1..];
      }
    }
  }

  /** One attempt keeps memory and file in step. */
  lemma AttemptKeepsStep(stored: Identity, st: KeyState, a: Attempt)
    requires DistinctIds(stored.oneTimePreKeys) && st.keys == Load(stored, st.used)
    ensures var after := Apply(stored, st, Try(a)); after.keys == Load(stored, after.used)
  {
    if Outcome(st.keys, a).Ok? && a.payload.oneTimePreKeyId.Some? {
      var id := a.payload.oneTimePreKeyId.value;
      DistinctKept(stored.oneTimePreKeys, st.used);
      EraseMatchesReloadIff(stored.oneTimePreKeys, st.used, id);
    }
  }

  /** The events without the attempts that failed. */
  function WithoutFailures(stored: Identity, events: seq<Event>): seq<Event> {
    if events == [] then []
    else
      var before, last := events[..|events| - 1], events[|events| - 1];
      WithoutFailures(stored, before)
      + if last.Try? && Outcome(Run(stored, before).keys, last.attempt).Err? then [] else [last]
  }

  lemma RunOne(stored: Identity, events: seq<Event>, e: Event)
    ensures Run(stored, events + [e]) == Apply(stored, Run(stored, events), e)
  {
    assert (events + [e])[..|events|] == events;
  }

  /** A run ends as the same run without its failed attempts: whatever fails leaves no trace for later. */
  lemma {:induction false} FailuresLeaveNoTrace(stored: Identity, events: seq<Event>)
    ensures Run(stored, WithoutFailures(stored, events)) == Run(stored, events)
  {
    if events != [] {
      var before, last := events[..|events| - 1], events[|events| - 1];
      FailuresLeaveNoTrace(stored, before);
      RunOne(stored, WithoutFailures(stored, before), last);
      if last.Try? && Outcome(Run(stored, before).keys, last.attempt).Err? {
        FailureChangesNothing(stored, Run(stored, before), last.attempt);
        assert WithoutFailures(stored, events) == WithoutFailures(stored, before);
      }
    }
  }

  /** After any successful and failed attempts and any logins, memory is what a login would rebuild. */
  lemma {:induction false} MemoryMatchesFile(stored: Identity, events: seq<Event>)
    requires DistinctIds(stored.oneTimePreKeys)
    ensures Run(stored, events).keys == Load(stored, Run(stored, events).used)
  {
    if events != [] {
      var n := |events| - 1;
      MemoryMatchesFile(stored, events[..n]);
      if events[n].Try? {
        AttemptKeepsStep(stored, Run(stored, events[..n]), events[n].attempt);
      }
    }
  }

  lemma {:induction false} UsedStaysUsed(stored: Identity, events: seq<Event>, more: seq<Event>, id: nat)
    requires id in Run(stored, events).used
    ensures id in Run(stored, events + more).used
  {
    if more == [] {
      assert events + more == events;
    } else {
      var n := |more| - 1;
      UsedStaysUsed(stored, events, more[..n], id);
      assert (events + more)[..|events + more| - 1] == events + more[..n];
    }
  }

  lemma SuccessIsRecorded(stored: Identity, st: KeyState, a: Attempt)
    requires Outcome(st.keys, a).Ok? && a.payload.oneTimePreKeyId.Some?
    ensures a.payload.oneTimePreKeyId.value in Apply(stored, st, Try(a)).used
  {
  }

  lemma UsedPreKeyFails(stored: Identity, used: seq<nat>, b: Attempt)
    requires b.payload.Payload? && b.payload.oneTimePreKeyId.Some? && b.payload.oneTimePreKeyId.value in used
    ensures Outcome(Load(stored, used), b).Err?
  {
    assert FindPreKey(Unused(stored.oneTimePreKeys, used), b.payload.oneTimePreKeyId.value).None?;
  }

  /** A one-time prekey decrypts once: afterwards, in this session or any later one, every payload naming it fails. */
  lemma {:induction false} PreKeyDecryptsOnce(stored: Identity, before: seq<Event>, a: Attempt, after: seq<Event>,
                                              b: Attempt)
    requires DistinctIds(stored.oneTimePreKeys)
    requires Outcome(Run(stored, before).keys, a).Ok?
    requires a.payload.oneTimePreKeyId.Some?
    requires b.payload.Payload? && b.payload.oneTimePreKeyId == a.payload.oneTimePreKeyId
    ensures Outcome(Run(stored, before + [Try(a)] + after).keys, b).Err?
  {
    var id, events := a.payload.oneTimePreKeyId.value, before + [Try(a)];
    assert events[..|events| - 1] == before;
    SuccessIsRecorded(stored, Run(stored, before), a);
    UsedStaysUsed(stored, events, after, id);
    MemoryMatchesFile(stored, events + after);
    UsedPreKeyFails(stored, Run(stored, events + after).used, b);
  }

  // ---------------------------------------------------------------------------
  // The bytes a signed prekey's signature covers
  // ---------------------------------------------------------------------------

  function Power256(i: nat): (p: nat)
    ensures p >= 1
  {
    if i == 0 then 1 else 256 * Power256(i - 1)
  }

  function LittleEndian(value: nat, width: nat): (bytes: seq<nat>)
    ensures |bytes| == width
    decreases width
  {
    if width == 0 then [] else [value % 256] + LittleEndian(value / 256, width - 1)
  }

  lemma LowByteFirst(bytes: seq<nat>, value: nat, width: nat)
    requires width > 0
    ensures bytes + LittleEndian(value, width) == (bytes + [value % 256]) + LittleEndian(value / 256, width - 1)
  {
  }

  /** Appends the eight bytes of a 64-bit value, least significant first. */
  method AppendUint64Le(bytes: seq<nat>, value: nat) returns (extended: seq<nat>)
    ensures extended == bytes + LittleEndian(value, 8)
  {
    extended := bytes;
    var rest := value;
    ghost var all := bytes + LittleEndian(value, 8);
    for i := 0 to 8
      invariant extended + LittleEndian(rest, 8 - i) == all
    {
      LowByteFirst(extended, rest, 8 - i);
      extended := extended + [rest % 256];
      rest := rest / 256;
    }
    assert extended + [] == extended;
  }

  /** The number that bytes stand for when the first one counts least. */
  function NumberOf(bytes: seq<nat>): nat {
    if bytes == [] then 0 else bytes[0] + 256 * NumberOf(bytes[1..])
  }

  lemma {:induction false} LowestByteFirst(value: nat, width: nat)
    requires value < Power256(width)
    ensures var bytes := LittleEndian(value, width);
            NumberOf(bytes) == value && forall i :: 0 <= i < width ==> bytes[i] < 256
    decreases width
  {
    if width > 0 {
      LowestByteFirst(value / 256, width - 1);
      var bytes := LittleEndian(value, width);
      assert bytes[1..] == LittleEndian(value / 256, width - 1);
      assert forall i :: 0 < i < width ==> bytes[i] == bytes[1..][i - 1];
    }
  }

  function SignatureInput(info: seq<nat>, id: nat, publicKey: seq<nat>): seq<nat> {
    info + LittleEndian(id, 8) + publicKey
  }

  lemma {:induction false} LittleEndianInjective(a: nat, b: nat, width: nat)
    requires a < Power256(width) && b < Power256(width)
    requires LittleEndian(a, width) == LittleEndian(b, width)
    ensures a == b
    decreases width
  {
    if width > 0 {
      var x, y := LittleEndian(a, width), LittleEndian(b, width);
      assert x[0] == a % 256 && y[0] == b % 256;
      assert x[1..] == LittleEndian(a / 256, width - 1) && y[1..] == LittleEndian(b / 256, width - 1);
      LittleEndianInjective(a / 256, b / 256, width - 1);
      assert a == 256 * (a / 256) + a % 256 && b == 256 * (b / 256) + b % 256;
    }
  }

  /** The signed bytes determine the prekey's 64-bit identifier and its key bytes. */
  lemma SignatureInputBinds(info: seq<nat>, a: nat, key: seq<nat>, b: nat, other: seq<nat>)
    requires a < Power256(8) && b < Power256(8)
    requires SignatureInput(info, a, key) == SignatureInput(info, b, other)
    ensures a == b && key == other
  {
    var x, y := SignatureInput(info, a, key), SignatureInput(info, b, other);
    assert x[|info|..|info| + 8] == LittleEndian(a, 8) && y[|info|..|info| + 8] == LittleEndian(b, 8);
    assert x[|info| + 8..] == key && y[|info| + 8..] == other;
    LittleEndianInjective(a, b, 8);
  }
}
