/**
 One user's program during a session: showing a message means finding its text
 in the cache, or decrypting it and caching the text before it is needed again.
 */
module Session {
  import opened Wrappers
  import opened Crypto
  import opened Bundles
  import opened LocalKeyStore
  import opened Pinning
  import Database
  import X3dh

  type Row = Database.Message<Payload>

  /**
   What one user's machine holds: the stored keys and the used list of the key
   file, the keys in memory, the text cache, the sender keys seen in this
   session, and the pinned identities.
   */
  datatype Client = Client(stored: Identity, used: seq<nat>, keys: Identity,
                           cache: map<nat, string>, senderKeys: map<nat, KeyText>, pins: Pins)

  datatype Displayed = Displayed(id: nat, text: string, forwardable: bool)

  const FAILED := "[decryption failed]"

  /** The sender's key: from this session's cache, or from the server's answer if it passes the pin. */
  function KeyForSender(c: Client, senderId: nat, served: Option<KeyText>): Option<KeyText> {
    if senderId in c.senderKeys then Some(c.senderKeys[senderId])
    else if served.None? || Accept(c.pins, senderId, served.value).Err? then None
    else served
  }

  function PinsAfter(c: Client, senderId: nat, served: Option<KeyText>): Pins {
    if senderId in c.senderKeys || served.None? then c.pins else Remember(c.pins, senderId, served.value)
  }

  function TryDecrypt(c: Client, msg: Row, recipientId: nat, key: KeyText): Result<string, Failure> {
    DecryptMessage(msg.payload, c.keys, key, msg.conversationId, msg.senderId, recipientId)
  }

  /** The text to show for a message, if there is one. */
  function Shown(c: Client, id: nat, msg: Row, recipientId: nat, served: Option<KeyText>): Option<string> {
    if id in c.cache then Some(c.cache[id])
    else
      var key := KeyForSender(c, msg.senderId, served);
      if key.None? then None
      else
        var result := TryDecrypt(c, msg, recipientId, key.value);
        if result.Ok? then Some(result.value) else None
  }

  /** The client after showing it. */
  function View(c: Client, id: nat, msg: Row, recipientId: nat, served: Option<KeyText>): Client {
    if id in c.cache then c
    else
      var key, pins := KeyForSender(c, msg.senderId, served), PinsAfter(c, msg.senderId, served);
      if key.None? then c.(pins := pins)
      else
        var result := TryDecrypt(c, msg, recipientId, key.value);
        c.(keys := AfterDecrypt(c.keys, msg.payload, result),
           used := AfterDecryptUsed(c.used, msg.payload, result),
           cache := if result.Ok? then c.cache[id := result.value] else c.cache,
           senderKeys := c.senderKeys[msg.senderId := key.value],
           pins := pins)
  }

  /** The client after the server's answer for another user's key has been pinned or compared. */
  function AfterFetch(c: Client, userId: nat, served: KeyText): Client {
    c.(pins := Remember(c.pins, userId, served))
  }

  /** The payload to post, unless the key is refused or cannot be encrypted for. */
  function Prepared(c: Client, text: string, context: X3dh.Context, served: KeyText, ephemeral: nat,
                    nonce: nat): Option<Payload> {
    if Accept(c.pins, context.recipientId, served).Err? then None
    else
      var payload := X3dh.Encrypt(text, c.keys, served, context, ephemeral, nonce);
      if payload.Err? then None else Some(payload.value)
  }

  /** The client after the server has confirmed a message of its own. */
  function Caching(c: Client, id: nat, text: string): Client {
    c.(cache := c.cache[id := text])
  }

  /** Own messages were encrypted for the conversation's other side, the rest for this user. */
  function AddressedTo(userId: nat, active: Option<nat>, msg: Row): nat {
    if msg.senderId == userId && active.Some? then active.value else userId
  }

  /** One item of a listing: the message and the server's answer about its sender, should it be asked. */
  datatype Item = Item(id: nat, msg: Row, served: Option<KeyText>)

  function Display(c: Client, userId: nat, active: Option<nat>, item: Item): Displayed {
    var text := Shown(c, item.id, item.msg, AddressedTo(userId, active, item.msg), item.served);
    if text.Some? then Displayed(item.id, text.value, true) else Displayed(item.id, FAILED, false)
  }

  function ViewItem(c: Client, userId: nat, active: Option<nat>, item: Item): Client {
    View(c, item.id, item.msg, AddressedTo(userId, active, item.msg), item.served)
  }

  function ViewAll(c: Client, userId: nat, active: Option<nat>, items: seq<Item>): (Client, seq<Displayed>) {
    if items == [] then (c, [])
    else
      var (before, shown) := ViewAll(c, userId, active, items[..|items| - 1]);
      var item := items[|items| - 1];
      (ViewItem(before, userId, active, item), shown + [Display(before, userId, active, item)])
  }

  class MainWindow {
    const userId: nat
    const identity: LocalIdentity
    const keyFile: KeyFile
    const known: KnownKeys
    var cache: map<nat, string>
    var senderKeys: map<nat, KeyText>
    var visibleMessages: seq<Displayed>

    ghost predicate Valid()
      reads this, identity, known, keyFile
    {
      identity.keyFile == keyFile
    }

    ghost function State(): Client
      reads this, identity, known, keyFile
    {
      Client(keyFile.material, keyFile.Used(), identity.keys, cache, senderKeys, known.pins)
    }

    constructor (userId: nat, identity: LocalIdentity, keyFile: KeyFile, known: KnownKeys, cache: map<nat, string>)
      requires identity.keyFile == keyFile
      ensures this.userId == userId && this.identity == identity && this.keyFile == keyFile && this.known == known
      ensures Valid()
      ensures State() == Client(keyFile.material, keyFile.Used(), identity.keys, cache, map[], known.pins)
    {
      this.userId, this.identity, this.keyFile, this.known := userId, identity, keyFile, known;
      this.cache := cache;
      senderKeys := map[];
      visibleMessages := [];
    }

    /** `served` is what the server would answer for the sender's key. */
    method DecryptPlaintext(id: nat, msg: Row, recipientId: nat, served: Option<KeyText>) returns (text: Option<string>)
      requires Valid()
      modifies this`cache, this`senderKeys, identity, keyFile, known
      ensures Valid()
      ensures text == Shown(old(State()), id, msg, recipientId, served)
      ensures State() == View(old(State()), id, msg, recipientId, served)
    {
      if id in cache {
        return Some(cache[id]);
      }
      var key;
      if msg.senderId in senderKeys {
        key := senderKeys[msg.senderId];
      } else {
        if served.None? {
          return None;
        }
        var pinned := known.PinPublicKey(msg.senderId, served.value);
        if pinned.Err? {
          return None;
        }
        key := pinned.value;
      }
      senderKeys := senderKeys[msg.senderId := key];
      var result := identity.Decrypt(msg.payload, key, msg.conversationId, msg.senderId, recipientId);
      if result.Err? {
        return None;
      }
      cache := cache[id := result.value];
      text := Some(result.value);
    }

    /**
     A send up to the request: nothing happens without text, recipient and the
     server's answer for the recipient's key.
     */
    method BeginSend(text: string, conversationId: nat, recipientId: Option<nat>, served: Option<KeyText>,
                     ephemeral: nat, nonce: nat) returns (payload: Option<Payload>)
      requires Valid()
      modifies known
      ensures Valid()
      ensures text == "" || recipientId.None? || served.None? ==> payload == None && State() == old(State())
      ensures text != "" && recipientId.Some? && served.Some? ==>
        && payload == Prepared(old(State()), text, X3dh.Context(conversationId, userId, recipientId.value),
                               served.value, ephemeral, nonce)
        && State() == AfterFetch(old(State()), recipientId.value, served.value)
    {
      if text == "" || recipientId.None? || served.None? {
        return None;
      }
      var key := known.PinPublicKey(recipientId.value, served.value);
      if key.Err? {
        return None;
      }
      var result := EncryptMessage(text, identity.keys, key.value, conversationId, userId, recipientId.value,
                                   ephemeral, nonce);
      payload := if result.Ok? then Some(result.value) else None;
    }

    /** A send after the server's answer. */
    method FinishSend(id: nat, text: string)
      requires Valid()
      modifies this`cache, this`visibleMessages
      ensures Valid()
      ensures State() == Caching(old(State()), id, text)
      ensures visibleMessages == old(visibleMessages) + [Displayed(id, text, true)]
    {
      cache := cache[id := text];
      visibleMessages := visibleMessages + [Displayed(id, text, true)];
    }

    /** Clears and refills the message list from a listing. */
    method LoadMessages(items: seq<Item>, active: Option<nat>)
      requires Valid()
      modifies this`cache, this`senderKeys, this`visibleMessages, identity, keyFile, known
      ensures Valid()
      ensures (State(), visibleMessages) == ViewAll(old(State()), userId, active, items)
    {
      visibleMessages := [];
      for i := 0 to |items|
        invariant Valid()
        invariant (State(), visibleMessages) == ViewAll(old(State()), userId, active, items[..i])
      {
        assert items[..i + 1][..i] == items[..i];
        var item := items[i];
        var text := DecryptPlaintext(item.id, item.msg, AddressedTo(userId, active, item.msg), item.served);
        var shown := if text.Some? then Displayed(item.id, text.value, true) else Displayed(item.id, FAILED, false);
        visibleMessages := visibleMessages + [shown];
      }
      assert items[..|items|] == items;
    }
  }

  /**
   Nothing is encrypted for a key that changed its identity; and whatever a server
   answers for a user whose keys are pinned, a payload made from it is sealed for
   that user's own identity and own signed prekey, as long as no one else can
   sign with the user's signing key.
   */
  lemma PinnedUserIsEncryptedFor(c: Client, text: string, context: X3dh.Context, owner: Identity, served: KeyText,
                                 ephemeral: nat, nonce: nat)
    requires context.recipientId in c.pins && IsConsistent(owner)
    requires c.pins[context.recipientId] == Pinned(Identities(owner.publicKey, owner.signingPublicKey))
    requires served.BundleText? && served.bundle.signedPreKey.Some? ==>
      var spk := served.bundle.signedPreKey.value;
      spk.signature.Signed? && spk.signature.secret == owner.signingSecretKey ==>
        spk.signature == Signed(owner.signingSecretKey, owner.signedPreKey.id, owner.signedPreKey.publicKey)
    ensures var payload := Prepared(c, text, context, served, ephemeral, nonce);
            payload.Some? ==>
              && served.BundleText? && served.bundle.identityKey == Some(owner.publicKey)
              && served.bundle.signingKey == Some(owner.signingPublicKey)
              && payload.value.Payload? && payload.value.signedPreKeyId == owner.signedPreKey.id
              && payload.value.ciphertext.Sealed? && |payload.value.ciphertext.key.outputs| >= 3
              && payload.value.ciphertext.key.outputs[..3]
                 == [X3dh.Between(c.keys.privateKey, owner.signedPreKey.privateKey),
                     X3dh.Between(ephemeral, owner.privateKey),
                     X3dh.Between(ephemeral, owner.signedPreKey.privateKey)]
  {
    PinnedPairAcceptsIff(c.pins, context.recipientId, owner.publicKey, owner.signingPublicKey, served);
    if Prepared(c, text, context, served, ephemeral, nonce).Some? {
      X3dh.EncryptedIsX3dh(text, c.keys, served, context, ephemeral, nonce);
    }
  }

  /**
   A message not yet cached, from a sender not yet asked for: the served key is
   pinned if it is the first, and one with other keys than the pinned ones shows
   nothing and changes nothing.
   */
  lemma SenderIsPinned(c: Client, id: nat, msg: Row, recipientId: nat, served: KeyText)
    requires id !in c.cache && msg.senderId !in c.senderKeys && served.BundleText?
    requires served.bundle.identityKey.Some? && served.bundle.signingKey.Some?
    ensures var own := Pinned(Identities(served.bundle.identityKey.value, served.bundle.signingKey.value));
            var after := View(c, id, msg, recipientId, Some(served));
            && (msg.senderId !in c.pins ==> after.pins == c.pins[msg.senderId := own])
            && (msg.senderId in c.pins ==> after.pins == c.pins)
            && (msg.senderId in c.pins && c.pins[msg.senderId] != own ==>
                  after == c && Shown(c, id, msg, recipientId, Some(served)).None?)
  {
  }

  /** What cannot be read is marked as such and cannot be forwarded; what can be read is shown as it is. */
  lemma UnreadableIsMarked(c: Client, userId: nat, active: Option<nat>, item: Item)
    ensures var text := Shown(c, item.id, item.msg, AddressedTo(userId, active, item.msg), item.served);
            && (text.None? ==> Display(c, userId, active, item) == Displayed(item.id, "[decryption failed]", false))
            && (text.Some? ==> Display(c, userId, active, item) == Displayed(item.id, text.value, true))
  {
  }

  /** Showing a message again gives the same text, whatever the server answers then. */
  lemma ShownAgain(c: Client, id: nat, msg: Row, recipientId: nat, served: Option<KeyText>,
                   again: Row, recipient: nat, later: Option<KeyText>)
    requires Shown(c, id, msg, recipientId, served).Some?
    ensures var after := View(c, id, msg, recipientId, served);
            Shown(after, id, again, recipient, later) == Shown(c, id, msg, recipientId, served)
            && View(after, id, again, recipient, later) == after
  {
  }

  /** A message that cannot be shown costs no key and no cached text. */
  lemma FailureKeepsKeys(c: Client, id: nat, msg: Row, recipientId: nat, served: Option<KeyText>)
    requires Shown(c, id, msg, recipientId, served).None?
    ensures var after := View(c, id, msg, recipientId, served);
            after.keys == c.keys && after.used == c.used && after.cache == c.cache
  {
  }
}
