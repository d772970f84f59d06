/**
 What every step of the messenger keeps: the keys of clients against the
 bundles on the server, the prekeys and texts of posted messages, and what
 clients know of one another.
 */
module DeliveryInvariant {
  import opened Wrappers
  import opened Crypto
  import opened Bundles
  import opened LocalKeyStore
  import opened Pinning
  import opened Database
  import opened Transactions
  import opened Session
  import opened X3dh
  import opened Delivery

  function FrontList(preKey: Option<LocalPreKey>): seq<BundleKey> {
    if preKey.None? then [] else [PreKey(preKey.value.id, preKey.value.publicKey)]
  }

  /** The payload an honest sender makes for this recipient. */
  function Sealing(sender: Identity, recipient: Identity, s: Sent): Result<Payload, Failure> {
    Encrypt(s.text, sender, BundleOf(recipient, FrontList(s.preKey)), s.context, s.ephemeral, s.nonce)
  }

  /** Keys in order: consistent, distinct, and in memory what a login would load. */
  predicate ClientOk(c: Client, secrets: nat) {
    && IsConsistent(c.stored) && DistinctIds(c.stored.oneTimePreKeys)
    && c.stored.privateKey < secrets
    && c.keys == Load(c.stored, c.used)
  }

  /** The column holds the client's own bundle, offering only prekeys the client still has. */
  predicate Published(c: Client, column: KeyText) {
    && column == BundleOf(c.stored, PreKeys(column))
    && forall k :: k in PreKeys(column) ==>
         k.PreKey? && FindPreKey(Live(c), k.id).Some? && FindPreKey(Live(c), k.id).value.publicKey == k.publicKey
  }

  /** Both ends exist and differ, and the prekey is one the recipient made. */
  predicate Genuine(clients: map<nat, Client>, s: Sent) {
    && s.context.senderId in clients && s.context.recipientId in clients && s.context.senderId != s.context.recipientId
    && (s.preKey.Some? ==> s.preKey.value in clients[s.context.recipientId].stored.oneTimePreKeys)
  }

  predicate IsSealed(clients: map<nat, Client>, s: Sent, payload: Payload) {
    && Genuine(clients, s)
    && Sealing(clients[s.context.senderId].stored, clients[s.context.recipientId].stored, s) == Ok(payload)
  }

  /** The row is the logged message. */
  predicate IsLogged(clients: map<nat, Client>, log: map<nat, Sent>, id: nat, msg: Row) {
    && id in log && IsSealed(clients, log[id], msg.payload)
    && msg.conversationId == log[id].context.conversationId && msg.senderId == log[id].context.senderId
  }

  ghost predicate AllHold(clients: map<nat, Client>, secrets: nat) {
    forall u {:trigger ClientOk(clients[u], secrets)} :: u in clients ==> ClientOk(clients[u], secrets)
  }

  predicate SameIdentity(a: Client, b: Client) {
    a.stored.publicKey == b.stored.publicKey
  }

  ghost predicate OwnIdentities(clients: map<nat, Client>) {
    forall u, v {:trigger SameIdentity(clients[u], clients[v])} ::
      u in clients && v in clients && u != v ==> !SameIdentity(clients[u], clients[v])
  }

  ghost predicate AllPublished(clients: map<nat, Client>, users: map<nat, KeyText>) {
    && clients.Keys <= users.Keys
    && forall u {:trigger Published(clients[u], users[u])} :: u in clients ==> Published(clients[u], users[u])
  }

  ghost predicate ClientsOk(w: World) {
    AllHold(w.clients, w.nextSecret) && OwnIdentities(w.clients) && AllPublished(w.clients, w.tables.users)
  }

  /** The reader is the message's recipient and still has its prekey, if it uses one. */
  predicate HasKeyFor(clients: map<nat, Client>, reader: nat, s: Sent) {
    reader in clients && reader == s.context.recipientId && (s.preKey.Some? ==> s.preKey.value in Live(clients[reader]))
  }

  /** The anchor of a client's own bundle. */
  function OwnAnchor(c: Client): Anchor {
    Identities(c.stored.publicKey, c.stored.signingPublicKey)
  }

  predicate OwnKey(c: Client, key: KeyText) {
    IsValidText(key) && AnchorOf(key) == OwnAnchor(c)
  }

  predicate PinsOk(clients: map<nat, Client>, pins: Pins) {
    forall v :: v in pins ==> v in clients && pins[v] == Pinned(OwnAnchor(clients[v]))
  }

  predicate PeersOk(clients: map<nat, Client>, c: Client) {
    && PinsOk(clients, c.pins)
    && (forall v :: v in c.senderKeys ==> v in clients && OwnKey(clients[v], c.senderKeys[v]))
  }

  ghost predicate AllPeersOk(clients: map<nat, Client>) {
    forall u {:trigger PeersOk(clients, clients[u])} :: u in clients ==> PeersOk(clients, clients[u])
  }

  /** The rows of the table, or of one inbox, are logged messages. */
  ghost predicate AllLogged(clients: map<nat, Client>, log: map<nat, Sent>, rows: map<nat, Row>) {
    forall m {:trigger IsLogged(clients, log, m, rows[m])} :: m in rows ==> IsLogged(clients, log, m, rows[m])
  }

  ghost predicate InboxesOk(w: World) {
    forall u {:trigger AllLogged(w.clients, w.log, w.inboxes[u])} :: u in w.inboxes ==>
      AllLogged(w.clients, w.log, w.inboxes[u])
  }

  ghost predicate DraftsOk(clients: map<nat, Client>, drafts: map<nat, Draft>) {
    forall d {:trigger IsSealed(clients, drafts[d].sent, drafts[d].payload)} ::
      d in drafts ==> IsSealed(clients, drafts[d].sent, drafts[d].payload)
  }

  ghost predicate LogOk(clients: map<nat, Client>, log: map<nat, Sent>, nextMessageId: nat) {
    && (forall m :: m in log ==> m < nextMessageId)
    && (forall m {:trigger Genuine(clients, log[m])} :: m in log ==> Genuine(clients, log[m]))
  }

  ghost predicate MessagesOk(w: World) {
    && AllLogged(w.clients, w.log, w.tables.messages) && InboxesOk(w)
    && DraftsOk(w.clients, w.drafts) && LogOk(w.clients, w.log, w.tables.nextMessageId)
  }

  /** The message's recipient still has its prekey, or already has its text. */
  predicate Deliverable(clients: map<nat, Client>, id: nat, s: Sent) {
    && s.context.recipientId in clients
    && var c := clients[s.context.recipientId];
       s.preKey.Some? ==> id in c.cache || s.preKey.value in Live(c)
  }

  ghost predicate AllDeliverable(clients: map<nat, Client>, log: map<nat, Sent>) {
    forall m {:trigger Deliverable(clients, m, log[m])} :: m in log ==> Deliverable(clients, m, log[m])
  }

  /** The prekey of a posted message is offered to no one else. */
  predicate Withdrawn(users: map<nat, KeyText>, s: Sent) {
    s.preKey.Some? && s.context.recipientId in users ==> !Offers(users[s.context.recipientId], s.preKey.value.id)
  }

  ghost predicate AllWithdrawn(users: map<nat, KeyText>, log: map<nat, Sent>) {
    forall m {:trigger Withdrawn(users, log[m])} :: m in log ==> Withdrawn(users, log[m])
  }

  predicate SharePreKey(s: Sent, t: Sent) {
    && s.preKey.Some? && t.preKey.Some?
    && s.context.recipientId == t.context.recipientId && s.preKey.value.id == t.preKey.value.id
  }

  ghost predicate NoneShared(log: map<nat, Sent>) {
    forall m, n {:trigger SharePreKey(log[m], log[n])} ::
      m in log && n in log && m != n ==> !SharePreKey(log[m], log[n])
  }

  ghost predicate KeysOk(w: World) {
    AllDeliverable(w.clients, w.log) && AllWithdrawn(w.tables.users, w.log) && NoneShared(w.log)
  }

  predicate IsEnd(u: nat, s: Sent) {
    u == s.context.senderId || u == s.context.recipientId
  }

  /** A cache holds texts as they were sent, and only of messages this user sent or was sent. */
  predicate CacheOk(u: nat, c: Client, log: map<nat, Sent>) {
    forall m :: m in c.cache ==> m in log && c.cache[m] == log[m].text && IsEnd(u, log[m])
  }

  ghost predicate CachesOk(clients: map<nat, Client>, log: map<nat, Sent>) {
    forall u {:trigger CacheOk(u, clients[u], log)} :: u in clients ==> CacheOk(u, clients[u], log)
  }

  ghost predicate Good(w: World) {
    && FreshIds(w.tables) && ClientsOk(w) && AllPeersOk(w.clients) && MessagesOk(w) && KeysOk(w)
    && CachesOk(w.clients, w.log)
  }

  // ---------------------------------------------------------------------------
  // Facts about keys
  // ---------------------------------------------------------------------------

  lemma FoundById(keys: seq<LocalPreKey>, k: LocalPreKey)
    requires DistinctIds(keys) && k in keys
    ensures FindPreKey(keys, k.id) == Some(k)
  {
  }

  lemma FoundLive(c: Client, k: LocalPreKey)
    requires DistinctIds(c.stored.oneTimePreKeys) && k in Live(c)
    ensures FindPreKey(Live(c), k.id) == Some(k) && FindPreKey(c.stored.oneTimePreKeys, k.id) == Some(k)
  {
    DistinctKept(c.stored.oneTimePreKeys, c.used);
    FoundById(Live(c), k);
    FoundById(c.stored.oneTimePreKeys, k);
  }

  /** Only the front of the prekey list and the sender's own key pair enter a payload. */
  lemma EncryptUsesFront(text: string, a: Identity, b: Identity, recipient: Identity, keys: seq<BundleKey>,
                         other: seq<BundleKey>, c: Context, ephemeral: nat, nonce: nat)
    requires a.privateKey == b.privateKey && a.publicKey == b.publicKey
    requires FrontPreKey(BundleOf(recipient, keys)) == FrontPreKey(BundleOf(recipient, other))
    ensures Encrypt(text, a, BundleOf(recipient, keys), c, ephemeral, nonce)
         == Encrypt(text, b, BundleOf(recipient, other), c, ephemeral, nonce)
  {
  }

  lemma SealingNamesPreKey(sender: Identity, recipient: Identity, s: Sent)
    requires Sealing(sender, recipient, s).Ok?
    ensures var p := Sealing(sender, recipient, s).value;
            p.Payload? && p.oneTimePreKeyId == if s.preKey.None? then None else Some(s.preKey.value.id)
  {
  }

  lemma OwnBundleIsOwn(c: Client, keys: seq<BundleKey>)
    requires IsConsistent(c.stored)
    ensures OwnKey(c, BundleOf(c.stored, keys))
  {
  }

  // ---------------------------------------------------------------------------
  // Showing one message
  // ---------------------------------------------------------------------------

  /** Who can read a sealed payload: its recipient, while the prekey is there, and no one else. */
  lemma ReaderOf(clients: map<nat, Client>, secrets: nat, s: Sent, payload: Payload, reader: nat, key: KeyText,
                 d: Context)
    requires IsSealed(clients, s, payload) && AllHold(clients, secrets) && OwnIdentities(clients)
    requires reader in clients && OwnKey(clients[s.context.senderId], key)
    ensures var result := Decrypt(payload, clients[reader].keys, key, d);
            && (result.Ok? <==> d == s.context && HasKeyFor(clients, reader, s))
            && (result.Ok? ==> result.value == s.text)
  {
    var sender, recipient, c := clients[s.context.senderId], clients[s.context.recipientId], clients[reader];
    assert ClientOk(sender, secrets) && ClientOk(recipient, secrets) && ClientOk(c, secrets);
    assert reader != s.context.recipientId ==> !SameIdentity(c, recipient);
    var bundle := BundleOf(recipient.stored, FrontList(s.preKey));
    DecryptSucceedsIff(s.text, sender.stored, bundle, s.context, s.ephemeral, s.nonce, c.keys, key, d);
    assert key.bundle.identityKey == Some(sender.stored.publicKey);
    if reader == s.context.recipientId && s.preKey.Some? {
      if s.preKey.value in Live(c) {
        FoundLive(c, s.preKey.value);
      }
    }
  }

  /** The key a client uses for a sender is the sender's own: no honest update is ever refused. */
  lemma SenderKeyIsOwn(w: World, userId: nat, senderId: nat)
    requires ClientsOk(w) && AllPeersOk(w.clients) && userId in w.clients && senderId in w.clients
    ensures var c := w.clients[userId];
            var key := KeyForSender(c, senderId, Served(w, senderId));
            && key.Some? && OwnKey(w.clients[senderId], key.value)
            && (senderId !in c.senderKeys ==> Accept(c.pins, senderId, w.tables.users[senderId]).Ok?)
            && PinsOk(w.clients, PinsAfter(c, senderId, Served(w, senderId)))
  {
    var sender := w.clients[senderId];
    assert ClientOk(sender, w.nextSecret) && Published(sender, w.tables.users[senderId])
        && PeersOk(w.clients, w.clients[userId]);
    OwnBundleIsOwn(sender, PreKeys(w.tables.users[senderId]));
  }

  /** What showing a message comes to, for a client in a good world. */
  lemma ShowOutcome(w: World, userId: nat, id: nat, msg: Row, active: Option<nat>)
    requires ClientsOk(w) && AllPeersOk(w.clients) && userId in w.clients && IsLogged(w.clients, w.log, id, msg)
    requires id !in w.clients[userId].cache
    ensures var s, c := w.log[id], w.clients[userId];
            var assumed := AddressedTo(userId, active, msg);
            var key := KeyForSender(c, msg.senderId, Served(w, msg.senderId));
            && key.Some?
            && var result := TryDecrypt(c, msg, assumed, key.value);
               && (result.Ok? <==> HasKeyFor(w.clients, userId, s))
               && (result.Ok? ==> result.value == s.text)
  {
    var s, c := w.log[id], w.clients[userId];
    SenderKeyIsOwn(w, userId, msg.senderId);
    var key := KeyForSender(c, msg.senderId, Served(w, msg.senderId)).value;
    var d := Context(msg.conversationId, msg.senderId, AddressedTo(userId, active, msg));
    assert HasKeyFor(w.clients, userId, s) ==> d == s.context;
    ReaderOf(w.clients, w.nextSecret, s, msg.payload, userId, key, d);
  }

  // ---------------------------------------------------------------------------
  // Frames
  // ---------------------------------------------------------------------------

  /** No client disappears or changes its stored keys. */
  ghost predicate SameStored(clients: map<nat, Client>, after: map<nat, Client>) {
    forall u :: u in clients ==> u in after && after[u].stored == clients[u].stored
  }

  ghost predicate LogGrows(log: map<nat, Sent>, longer: map<nat, Sent>) {
    forall m :: m in log ==> m in longer && longer[m] == log[m]
  }

  lemma LoggedStays(clients: map<nat, Client>, after: map<nat, Client>, log: map<nat, Sent>, longer: map<nat, Sent>,
                    rows: map<nat, Row>)
    requires AllLogged(clients, log, rows) && SameStored(clients, after) && LogGrows(log, longer)
    ensures AllLogged(after, longer, rows)
  {
    forall m | m in rows ensures IsLogged(after, longer, m, rows[m]) {
      assert IsLogged(clients, log, m, rows[m]);
    }
  }

  lemma DraftsStay(clients: map<nat, Client>, after: map<nat, Client>, drafts: map<nat, Draft>)
    requires DraftsOk(clients, drafts) && SameStored(clients, after)
    ensures DraftsOk(after, drafts)
  {
    forall d | d in drafts ensures IsSealed(after, drafts[d].sent, drafts[d].payload) {
      assert IsSealed(clients, drafts[d].sent, drafts[d].payload);
    }
  }

  lemma InboxesStay(w: World, x: World)
    requires InboxesOk(w) && SameStored(w.clients, x.clients) && LogGrows(w.log, x.log) && x.inboxes == w.inboxes
    ensures InboxesOk(x)
  {
    forall u | u in w.inboxes ensures AllLogged(x.clients, x.log, w.inboxes[u]) {
      LoggedStays(w.clients, x.clients, w.log, x.log, w.inboxes[u]);
    }
  }

  /** Messages stay as they are when only what clients learn changes. */
  lemma MessagesStay(w: World, x: World)
    requires MessagesOk(w) && SameStored(w.clients, x.clients)
    requires x.log == w.log && x.inboxes == w.inboxes && x.drafts == w.drafts
    requires x.tables.messages == w.tables.messages && x.tables.nextMessageId == w.tables.nextMessageId
    ensures MessagesOk(x)
  {
    LoggedStays(w.clients, x.clients, w.log, x.log, w.tables.messages);
    InboxesStay(w, x);
    DraftsStay(w.clients, x.clients, w.drafts);
    forall m | m in w.log ensures Genuine(x.clients, w.log[m]) {
      assert Genuine(w.clients, w.log[m]);
    }
  }

  /** What one client may become, its stored keys aside. */
  ghost predicate MayBecome(w: World, u: nat, c: Client) {
    && u in w.clients && u in w.tables.users && c.stored == w.clients[u].stored
    && ClientOk(c, w.nextSecret) && Published(c, w.tables.users[u]) && PeersOk(w.clients, c) && CacheOk(u, c, w.log)
    && forall m :: m in w.log && w.log[m].context.recipientId == u && w.log[m].preKey.Some? ==>
         m in c.cache || w.log[m].preKey.value in Live(c)
  }

  lemma PeersStay(clients: map<nat, Client>, after: map<nat, Client>, u: nat)
    requires AllPeersOk(clients) && SameStored(clients, after) && after.Keys == clients.Keys + {u}
    requires forall v :: v in clients && v != u ==> after[v] == clients[v]
    requires PeersOk(after, after[u])
    ensures AllPeersOk(after)
  {
    forall v | v in after && v != u ensures PeersOk(after, after[v]) {
      assert PeersOk(clients, clients[v]);
    }
  }

  lemma IdentitiesStay(clients: map<nat, Client>, u: nat, c: Client)
    requires OwnIdentities(clients) && u in clients && c.stored == clients[u].stored
    ensures OwnIdentities(clients[u := c])
  {
    var x := clients[u := c];
    forall a, b | a in x && b in x && a != b ensures !SameIdentity(x[a], x[b]) {
      assert !SameIdentity(clients[a], clients[b]);
    }
  }

  lemma ClientsStay(w: World, u: nat, c: Client)
    requires ClientsOk(w) && AllPeersOk(w.clients) && MayBecome(w, u, c)
    ensures ClientsOk(WithClient(w, u, c)) && AllPeersOk(WithClient(w, u, c).clients)
  {
    var x := WithClient(w, u, c);
    PeersStay(w.clients, x.clients, u);
    forall v | v in x.clients
      ensures ClientOk(x.clients[v], w.nextSecret) && Published(x.clients[v], w.tables.users[v])
    {
      assert v in w.clients;
      assert v != u ==> ClientOk(w.clients[v], w.nextSecret) && Published(w.clients[v], w.tables.users[v]);
    }
    IdentitiesStay(w.clients, u, c);
  }

  lemma KeysStay(w: World, u: nat, c: Client)
    requires KeysOk(w) && MayBecome(w, u, c)
    ensures KeysOk(WithClient(w, u, c))
  {
    var x := WithClient(w, u, c);
    forall m | m in w.log ensures Deliverable(x.clients, m, w.log[m]) {
      assert Deliverable(w.clients, m, w.log[m]);
    }
  }

  lemma ClientChanges(w: World, u: nat, c: Client)
    requires Good(w) && MayBecome(w, u, c)
    ensures Good(WithClient(w, u, c))
  {
    ClientsStay(w, u, c);
    KeysStay(w, u, c);
    MessagesStay(w, WithClient(w, u, c));
  }

  /** For a client that keeps its keys and its cache. */
  lemma MayLearn(w: World, u: nat, c: Client)
    requires Good(w) && u in w.clients && PeersOk(w.clients, c)
    requires c == w.clients[u].(keys := c.keys, senderKeys := c.senderKeys, pins := c.pins)
    requires c.keys == Load(c.stored, c.used)
    ensures MayBecome(w, u, c)
  {
    assert ClientOk(w.clients[u], w.nextSecret) && Published(w.clients[u], w.tables.users[u])
        && CacheOk(u, w.clients[u], w.log);
    forall m | m in w.log && w.log[m].context.recipientId == u && w.log[m].preKey.Some?
      ensures m in c.cache || w.log[m].preKey.value in Live(c)
    {
      assert Deliverable(w.clients, m, w.log[m]);
    }
  }

  // ---------------------------------------------------------------------------
  // Signing up
  // ---------------------------------------------------------------------------

  lemma NewClientOk(secret: nat)
    ensures var c := NewClient(secret);
            && ClientOk(c, secret + SECRETS_PER_USER) && c.stored.publicKey == Pub(secret)
            && Published(c, BundleOf(c.stored, PublicKeys(c.stored.oneTimePreKeys)))
  {
  }

  lemma HoldMore(clients: map<nat, Client>, secrets: nat, u: nat, c: Client, more: nat)
    requires AllHold(clients, secrets) && secrets <= more && ClientOk(c, more)
    ensures AllHold(clients[u := c], more)
  {
    forall v | v in clients && v != u ensures ClientOk(clients[v], more) {
      assert ClientOk(clients[v], secrets);
    }
  }

  lemma NewIdentityIsOwn(clients: map<nat, Client>, secrets: nat, u: nat, c: Client)
    requires AllHold(clients, secrets) && OwnIdentities(clients) && u !in clients && c.stored.publicKey == Pub(secrets)
    ensures OwnIdentities(clients[u := c])
  {
    forall v | v in clients ensures !SameIdentity(clients[v], c) && !SameIdentity(c, clients[v]) {
      assert ClientOk(clients[v], secrets);
    }
  }

  lemma SignUpKeepsClients(w: World)
    requires FreshIds(w.tables) && ClientsOk(w) && AllPeersOk(w.clients)
    ensures ClientsOk(SignUpStep(w)) && AllPeersOk(SignUpStep(w).clients)
    ensures w.tables.nextUserId !in w.clients
  {
    var x, id, c := SignUpStep(w), w.tables.nextUserId, NewClient(w.nextSecret);
    NewClientOk(w.nextSecret);
    assert id !in w.clients;
    HoldMore(w.clients, w.nextSecret, id, c, x.nextSecret);
    NewIdentityIsOwn(w.clients, w.nextSecret, id, c);
    PeersStay(w.clients, x.clients, id);
  }

  lemma SignUpKeepsKeys(w: World, u: nat, c: Client, column: KeyText)
    requires KeysOk(w) && u !in w.clients
    requires LogOk(w.clients, w.log, w.tables.nextMessageId)
    ensures AllDeliverable(w.clients[u := c], w.log) && AllWithdrawn(w.tables.users[u := column], w.log)
  {
    forall m | m in w.log
      ensures Deliverable(w.clients[u := c], m, w.log[m]) && Withdrawn(w.tables.users[u := column], w.log[m])
    {
      assert Genuine(w.clients, w.log[m]) && Deliverable(w.clients, m, w.log[m]) && Withdrawn(w.tables.users, w.log[m]);
    }
  }

  lemma SignUpKeepsGood(w: World)
    requires Good(w)
    ensures Good(SignUpStep(w))
  {
    var c := NewClient(w.nextSecret);
    SignUpKeepsClients(w);
    MessagesStay(w, SignUpStep(w));
    SignUpKeepsKeys(w, w.tables.nextUserId, c, BundleOf(c.stored, PublicKeys(c.stored.oneTimePreKeys)));
  }

  // ---------------------------------------------------------------------------
  // Sessions, polls and other people's transactions
  // ---------------------------------------------------------------------------

  lemma LoginKeepsGood(w: World, userId: nat)
    requires Good(w)
    ensures Good(LoginStep(w, userId))
  {
    if userId in w.clients {
      var c := w.clients[userId];
      var next := c.(keys := Load(c.stored, c.used), senderKeys := map[]);
      assert PeersOk(w.clients, c);
      MayLearn(w, userId, next);
      ClientChanges(w, userId, next);
      OnlineIsFree(WithClient(w, userId, next), w.online + {userId});
    }
  }

  lemma OnlineIsFree(w: World, online: set<nat>)
    requires Good(w)
    ensures Good(w.(online := online))
  {
  }

  lemma FetchKeepsGood(w: World, userId: nat, conversationId: nat)
    requires Good(w)
    ensures Good(FetchStep(w, userId, conversationId))
  {
  }

  /** Deletions, revocations, digests, conversations and restarts leave bundles alone and add no message. */
  lemma OtherTransaction(t: Tables<Payload>, txn: Txn<Payload>)
    requires FreshIds(t) && !txn.Create? && !txn.AddUser?
    ensures var r := Commit(t, txn);
            && FreshIds(r) && r.users == t.users && r.nextMessageId == t.nextMessageId
            && r.messages.Keys <= t.messages.Keys
            && forall m :: m in r.messages ==> r.messages[m] == t.messages[m].(digest := r.messages[m].digest)
  {
  }

  lemma OtherKeepsGood(w: World, txn: Txn<Payload>)
    requires Good(w) && !txn.Create? && !txn.AddUser?
    ensures Good(w.(tables := Commit(w.tables, txn)))
  {
    var x := w.(tables := Commit(w.tables, txn));
    OtherTransaction(w.tables, txn);
    forall m | m in x.tables.messages ensures IsLogged(x.clients, x.log, m, x.tables.messages[m]) {
      assert IsLogged(w.clients, w.log, m, w.tables.messages[m]);
    }
    InboxesStay(w, x);
  }

  // ---------------------------------------------------------------------------
  // Composing
  // ---------------------------------------------------------------------------

  /** A draft made for the bundle as it was served is sealed for the recipient's own keys. */
  lemma ComposedIsSealed(w: World, c: Context, text: string, nonce: nat)
    requires ClientsOk(w) && c.senderId in w.clients && c.recipientId in w.clients && c.senderId != c.recipientId
    requires Composed(w, c, text, nonce).Some?
    ensures var d := Composed(w, c, text, nonce).value; IsSealed(w.clients, d.sent, d.payload)
  {
    var r, column := w.clients[c.recipientId], w.tables.users[c.recipientId];
    assert Published(r, column) && ClientOk(r, w.nextSecret) && ClientOk(w.clients[c.senderId], w.nextSecret);
    var front, preKey := FrontPreKey(column), Composed(w, c, text, nonce).value.sent.preKey;
    if front.Some? {
      assert front.value in PreKeys(column);
      FoundLive(r, FindPreKey(Live(r), front.value.id).value);
    }
    assert FrontPreKey(BundleOf(r.stored, FrontList(preKey))) == front;
    EncryptUsesFront(text, w.clients[c.senderId].keys, w.clients[c.senderId].stored, r.stored,
                     PreKeys(column), FrontList(preKey), c, w.nextSecret, nonce);
  }

  /** What a compose adds besides the pin. */
  lemma DraftKeepsGood(w: World, draft: nat, d: Draft)
    requires Good(w) && IsSealed(w.clients, d.sent, d.payload)
    ensures Good(WithDraft(w, draft, d))
  {
    var x := WithDraft(w, draft, d);
    forall u | u in x.clients ensures ClientOk(x.clients[u], x.nextSecret) {
      assert ClientOk(w.clients[u], w.nextSecret);
    }
    assert InboxesOk(x);
  }

  lemma FetchedKeyIsOwn(w: World, s: nat, r: nat)
    requires ClientsOk(w) && AllPeersOk(w.clients) && s in w.clients && r in w.clients
    ensures PeersOk(w.clients, FetchedKey(w, s, r).clients[s])
  {
    assert PeersOk(w.clients, w.clients[s]);
    assert ClientOk(w.clients[r], w.nextSecret) && Published(w.clients[r], w.tables.users[r]);
    OwnBundleIsOwn(w.clients[r], PreKeys(w.tables.users[r]));
  }

  lemma FetchedKeyKeepsGood(w: World, s: nat, r: nat)
    requires Good(w) && s in w.clients && r in w.clients
    ensures Good(FetchedKey(w, s, r))
  {
    var c := FetchedKey(w, s, r).clients[s];
    FetchedKeyIsOwn(w, s, r);
    assert ClientOk(w.clients[s], w.nextSecret);
    MayLearn(w, s, c);
    ClientChanges(w, s, c);
  }

  lemma SealedStays(clients: map<nat, Client>, after: map<nat, Client>, d: Draft)
    requires IsSealed(clients, d.sent, d.payload) && SameStored(clients, after)
    ensures IsSealed(after, d.sent, d.payload)
  {
  }

  lemma DraftAfterFetch(w: World, s: nat, r: nat, draft: nat, d: Draft)
    requires Good(w) && s in w.clients && r in w.clients && r in w.tables.users
    requires IsSealed(w.clients, d.sent, d.payload)
    ensures Good(FetchedKey(w, s, r)) && Good(WithDraft(FetchedKey(w, s, r), draft, d))
  {
    FetchedKeyKeepsGood(w, s, r);
    SealedStays(w.clients, FetchedKey(w, s, r).clients, d);
    DraftKeepsGood(FetchedKey(w, s, r), draft, d);
  }

  lemma ComposeKeepsGood(w: World, draft: nat, c: Context, text: string, nonce: nat)
    requires Good(w)
    ensures Good(ComposeStep(w, draft, c, text, nonce))
  {
    if text == "" || !CanCompose(w, draft, c) {
    } else if Composed(w, c, text, nonce).None? {
      FetchedKeyKeepsGood(w, c.senderId, c.recipientId);
    } else {
      ComposedIsSealed(w, c, text, nonce);
      DraftAfterFetch(w, c.senderId, c.recipientId, draft, Composed(w, c, text, nonce).value);
    }
  }

  // ---------------------------------------------------------------------------
  // Sending
  // ---------------------------------------------------------------------------

  /** What a committed post does: the prekey was on offer and is withdrawn, and one fresh row appears. */
  lemma PostedTables(t: Tables<Payload>, clients: map<nat, Client>, d: Draft, timestamp: nat)
    requires FreshIds(t) && IsSealed(clients, d.sent, d.payload) && Insert(t, PostOf(d, timestamp)).Ok?
    ensures var c, preKey, (r, id) := d.sent.context, d.sent.preKey, Insert(t, PostOf(d, timestamp)).value;
            && FreshIds(r) && id == t.nextMessageId && r.nextMessageId == id + 1
            && r.messages == t.messages[id := Message(c.conversationId, c.senderId, d.payload, timestamp, "")]
            && (preKey.None? ==> r.users == t.users)
            && (preKey.Some? ==>
                  && c.recipientId in t.users && Offers(t.users[c.recipientId], preKey.value.id)
                  && Consume(t.users[c.recipientId], preKey.value.id).Some?
                  && r.users == t.users[c.recipientId := Consume(t.users[c.recipientId], preKey.value.id).value])
  {
    var s := d.sent;
    SealingNamesPreKey(clients[s.context.senderId].stored, clients[s.context.recipientId].stored, s);
    CommitKeepsFreshIds(t, Create(PostOf(d, timestamp)));
    if s.preKey.Some? && s.context.recipientId in t.users {
      ConsumeIffOffered(t.users[s.context.recipientId], s.preKey.value.id);
    }
  }

  lemma ConsumedIsPublished(c: Client, column: KeyText, id: nat)
    requires Published(c, column) && Consume(column, id).Some?
    ensures Published(c, Consume(column, id).value)
  {
  }

  lemma ConsumedArePublished(clients: map<nat, Client>, users: map<nat, KeyText>, r: nat, id: nat)
    requires AllPublished(clients, users) && r in clients && r in users && Consume(users[r], id).Some?
    ensures AllPublished(clients, users[r := Consume(users[r], id).value])
  {
    var after := users[r := Consume(users[r], id).value];
    forall u | u in clients ensures Published(clients[u], after[u]) {
      assert Published(clients[u], users[u]);
      if u == r {
        ConsumedIsPublished(clients[r], users[r], id);
      }
    }
  }

  /** A prekey on offer is still with its owner, and no posted message has it. */
  lemma OfferedIsLive(w: World, s: Sent)
    requires Good(w) && Genuine(w.clients, s) && s.preKey.Some?
    requires s.context.recipientId in w.tables.users && Offers(w.tables.users[s.context.recipientId], s.preKey.value.id)
    ensures s.preKey.value in Live(w.clients[s.context.recipientId])
    ensures forall m :: m in w.log ==> !SharePreKey(w.log[m], s) && !SharePreKey(s, w.log[m])
  {
    var c, column := w.clients[s.context.recipientId], w.tables.users[s.context.recipientId];
    assert ClientOk(c, w.nextSecret) && Published(c, column);
    var k :| k in PreKeys(column) && k.PreKey? && k.id == s.preKey.value.id;
    var own := FindPreKey(Live(c), k.id).value;
    FoundLive(c, own);
    FoundById(c.stored.oneTimePreKeys, s.preKey.value);
    forall m | m in w.log ensures !SharePreKey(w.log[m], s) && !SharePreKey(s, w.log[m]) {
      assert Withdrawn(w.tables.users, w.log[m]);
    }
  }

  lemma WithdrawnStays(users: map<nat, KeyText>, log: map<nat, Sent>, r: nat, id: nat)
    requires AllWithdrawn(users, log) && r in users && Consume(users[r], id).Some?
    ensures AllWithdrawn(users[r := Consume(users[r], id).value], log)
  {
    var after := users[r := Consume(users[r], id).value];
    ConsumeIffOffered(users[r], id);
    forall m | m in log ensures Withdrawn(after, log[m]) {
      assert Withdrawn(users, log[m]);
    }
  }

  lemma LogExtended(log: map<nat, Sent>, id: nat, s: Sent, clients: map<nat, Client>, users: map<nat, KeyText>)
    requires id !in log && AllDeliverable(clients, log) && AllWithdrawn(users, log) && NoneShared(log)
    requires Deliverable(clients, id, s) && Withdrawn(users, s)
    requires forall m :: m in log ==> !SharePreKey(log[m], s) && !SharePreKey(s, log[m])
    ensures AllDeliverable(clients, log[id := s]) && AllWithdrawn(users, log[id := s]) && NoneShared(log[id := s])
  {
  }

  lemma PostingKeepsKeys(w: World, d: Draft, timestamp: nat)
    requires Good(w) && IsSealed(w.clients, d.sent, d.payload) && Insert(w.tables, PostOf(d, timestamp)).Ok?
    ensures var x := Posting(w, d, timestamp); KeysOk(x) && AllPublished(x.clients, x.tables.users)
  {
    var s, x, id := d.sent, Posting(w, d, timestamp), w.tables.nextMessageId;
    PostedTables(w.tables, w.clients, d, timestamp);
    if s.preKey.Some? {
      var r := s.context.recipientId;
      OfferedIsLive(w, s);
      ConsumedArePublished(w.clients, w.tables.users, r, s.preKey.value.id);
      WithdrawnStays(w.tables.users, w.log, r, s.preKey.value.id);
      ConsumeIffOffered(w.tables.users[r], s.preKey.value.id);
    }
    LogExtended(w.log, id, s, w.clients, x.tables.users);
  }

  lemma PostingKeepsMessages(w: World, d: Draft, timestamp: nat)
    requires Good(w) && IsSealed(w.clients, d.sent, d.payload) && Insert(w.tables, PostOf(d, timestamp)).Ok?
    ensures var x := Posting(w, d, timestamp); FreshIds(x.tables) && MessagesOk(x) && CachesOk(x.clients, x.log)
  {
    var x, id := Posting(w, d, timestamp), w.tables.nextMessageId;
    PostedTables(w.tables, w.clients, d, timestamp);
    InboxesStay(w, x);
    LoggedStays(w.clients, x.clients, w.log, x.log, w.tables.messages);
    forall m | m in x.tables.messages ensures IsLogged(x.clients, x.log, m, x.tables.messages[m]) {
      assert m != id ==> IsLogged(x.clients, x.log, m, w.tables.messages[m]);
    }
    forall m | m in x.log ensures Genuine(x.clients, x.log[m]) {
      assert m != id ==> Genuine(w.clients, w.log[m]);
    }
    forall u | u in x.clients ensures CacheOk(u, x.clients[u], x.log) {
      assert CacheOk(u, w.clients[u], w.log);
    }
  }

  lemma PostingKeepsGood(w: World, d: Draft, timestamp: nat)
    requires Good(w) && IsSealed(w.clients, d.sent, d.payload) && Insert(w.tables, PostOf(d, timestamp)).Ok?
    ensures Good(Posting(w, d, timestamp))
  {
    PostingKeepsKeys(w, d, timestamp);
    PostingKeepsMessages(w, d, timestamp);
  }

  /** A client that adds the text of a logged message to its cache. */
  lemma MayCache(w: World, u: nat, id: nat)
    requires Good(w) && u in w.clients && id in w.log && IsEnd(u, w.log[id])
    ensures MayBecome(w, u, Caching(w.clients[u], id, w.log[id].text))
  {
    var c := w.clients[u];
    assert ClientOk(c, w.nextSecret) && Published(c, w.tables.users[u]) && CacheOk(u, c, w.log)
        && PeersOk(w.clients, c);
    forall m | m in w.log && w.log[m].context.recipientId == u && w.log[m].preKey.Some?
      ensures m in c.cache || w.log[m].preKey.value in Live(c)
    {
      assert Deliverable(w.clients, m, w.log[m]);
    }
  }

  lemma DroppingKeepsGood(w: World, draft: nat)
    requires Good(w)
    ensures Good(w.(drafts := w.drafts - {draft}))
  {
  }

  lemma SendKeepsGood(w: World, draft: nat, timestamp: nat, answered: bool)
    requires Good(w)
    ensures Good(SendStep(w, draft, timestamp, answered))
  {
    if draft in w.drafts {
      var d, rest := w.drafts[draft], w.(drafts := w.drafts - {draft});
      assert IsSealed(w.clients, d.sent, d.payload);
      DroppingKeepsGood(w, draft);
      if Insert(w.tables, PostOf(d, timestamp)).Ok? {
        var posted, s := Posting(rest, d, timestamp), d.sent.context.senderId;
        var id := Insert(w.tables, PostOf(d, timestamp)).value.1;
        PostingKeepsGood(rest, d, timestamp);
        MayCache(posted, s, id);
        ClientChanges(posted, s, Caching(posted.clients[s], id, d.sent.text));
      }
    }
  }

  // ---------------------------------------------------------------------------
  // Showing
  // ---------------------------------------------------------------------------

  /** Using a message's prekey leaves every other message of this user with its own. */
  lemma OthersKeepTheirPreKeys(w: World, id: nat, m: nat)
    requires KeysOk(w) && id in w.log && m in w.log && w.log[id].preKey.Some? && w.log[m].preKey.Some?
    requires w.log[m].context.recipientId == w.log[id].context.recipientId && w.log[m].context.recipientId in w.clients
    ensures var c := w.clients[w.log[m].context.recipientId];
            m == id || m in c.cache
            || w.log[m].preKey.value in Unused(c.stored.oneTimePreKeys, Recorded(c.used, w.log[id].preKey.value.id))
  {
    assert m != id ==> !SharePreKey(w.log[m], w.log[id]);
    assert Deliverable(w.clients, m, w.log[m]);
  }

  lemma PublishedAfterUse(c: Client, column: KeyText, id: nat, after: Client)
    requires DistinctIds(c.stored.oneTimePreKeys) && Published(c, column) && !Offers(column, id)
    requires after.stored == c.stored && after.used == Recorded(c.used, id)
    ensures Published(after, column)
  {
    DistinctKept(c.stored.oneTimePreKeys, after.used);
    forall k | k in PreKeys(column)
      ensures k.PreKey? && FindPreKey(Live(after), k.id).Some?
      ensures FindPreKey(Live(after), k.id).value.publicKey == k.publicKey
    {
      var own := FindPreKey(Live(c), k.id).value;
      assert own in Live(after);
      FoundById(Live(after), own);
    }
  }

  /** What one viewing does to the keys, for a message not yet cached. */
  lemma ViewKeys(w: World, userId: nat, id: nat, msg: Row, active: Option<nat>)
    requires Good(w) && userId in w.clients && IsLogged(w.clients, w.log, id, msg) && id !in w.clients[userId].cache
    ensures var s, c := w.log[id], w.clients[userId];
            var after := View(c, id, msg, AddressedTo(userId, active, msg), Served(w, msg.senderId));
            && after.stored == c.stored && after.keys == Load(after.stored, after.used)
            && (after.used == c.used
                || (userId == s.context.recipientId && s.preKey.Some? && id in after.cache
                    && after.used == Recorded(c.used, s.preKey.value.id)))
            && (after.cache == c.cache || (after.cache == c.cache[id := s.text] && userId == s.context.recipientId))
            && PeersOk(w.clients, after)
  {
    var s, c, assumed := w.log[id], w.clients[userId], AddressedTo(userId, active, msg);
    ShowOutcome(w, userId, id, msg, active);
    SenderKeyIsOwn(w, userId, msg.senderId);
    SealingNamesPreKey(w.clients[s.context.senderId].stored, w.clients[s.context.recipientId].stored, s);
    assert ClientOk(c, w.nextSecret) && PeersOk(w.clients, c);
    var key := KeyForSender(c, msg.senderId, Served(w, msg.senderId)).value;
    AttemptKeepsStep(c.stored, KeyState(c.keys, c.used),
                     Attempt(msg.payload, key, Context(msg.conversationId, msg.senderId, assumed)));
  }

  lemma ViewMayHappen(w: World, userId: nat, id: nat, msg: Row, active: Option<nat>)
    requires Good(w) && userId in w.clients && IsLogged(w.clients, w.log, id, msg) && id !in w.clients[userId].cache
    ensures MayBecome(w, userId,
                      View(w.clients[userId], id, msg, AddressedTo(userId, active, msg), Served(w, msg.senderId)))
  {
    var s, c := w.log[id], w.clients[userId];
    var after := View(c, id, msg, AddressedTo(userId, active, msg), Served(w, msg.senderId));
    ViewKeys(w, userId, id, msg, active);
    assert ClientOk(c, w.nextSecret) && Published(c, w.tables.users[userId]) && CacheOk(userId, c, w.log);
    if after.used != c.used {
      assert Withdrawn(w.tables.users, s);
      PublishedAfterUse(c, w.tables.users[userId], s.preKey.value.id, after);
    }
    forall m | m in w.log && w.log[m].context.recipientId == userId && w.log[m].preKey.Some?
      ensures m in after.cache || w.log[m].preKey.value in Live(after)
    {
      assert Deliverable(w.clients, m, w.log[m]);
      if after.used != c.used {
        OthersKeepTheirPreKeys(w, id, m);
      }
    }
  }

  lemma ShowKeepsGood(w: World, userId: nat, messageId: nat, active: Option<nat>)
    requires Good(w)
    ensures Good(ShowStep(w, userId, messageId, active))
  {
    if CanShow(w, userId, messageId) {
      var msg, c := w.inboxes[userId][messageId], w.clients[userId];
      var after := View(c, messageId, msg, AddressedTo(userId, active, msg), Served(w, msg.senderId));
      if messageId in c.cache {
        assert w.clients[userId := c] == w.clients;
      } else {
        assert AllLogged(w.clients, w.log, w.inboxes[userId]);
        assert IsLogged(w.clients, w.log, messageId, msg);
        ViewMayHappen(w, userId, messageId, msg, active);
        ClientChanges(w, userId, after);
      }
    }
  }

  // ---------------------------------------------------------------------------
  // Every reachable world
  // ---------------------------------------------------------------------------

  lemma StepKeepsGood(w: World, e: Delivery.Event)
    requires Good(w)
    ensures Good(Delivery.Step(w, e))
  {
    match e
    case SignUp => SignUpKeepsGood(w);
    case Login(u) => LoginKeepsGood(w, u);
    case Logout(u) => OnlineIsFree(w, w.online - {u});
    case Compose(d, c, text, nonce) => ComposeKeepsGood(w, d, c, text, nonce);
    case Send(d, timestamp, answered) => SendKeepsGood(w, d, timestamp, answered);
    case Fetch(u, c) => FetchKeepsGood(w, u, c);
    case Show(u, m, r) => ShowKeepsGood(w, u, m, r);
    case Other(txn) => if !txn.Create? && !txn.AddUser? { OtherKeepsGood(w, txn); }
  }

  lemma {:induction false} EveryWorldIsGood(events: seq<Delivery.Event>)
    ensures Good(Delivery.Run(events))
  {
    if events != [] {
      EveryWorldIsGood(events[..|events| - 1]);
      StepKeepsGood(Delivery.Run(events[..|events| - 1]), events[|events| - 1]);
    }
  }
}
