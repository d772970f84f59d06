/**
 The messenger end to end: any number of users signing up, logging in and out,
 composing for bundles that may be stale by the time they post, polling,
 deleting and revoking, with server restarts, in any interleaving.

 Local files are always read and written successfully, every client posts the
 recipient it encrypted for, and the server is honest.
 */
module Delivery {
  import opened Wrappers
  import opened Bundles
  import opened LocalKeyStore
  import opened Database
  import opened Transactions
  import opened Session
  import opened X3dh

  /** What a sender put into a message: history that no one but the sender knows. */
  datatype Sent = Sent(context: Context, text: string, ephemeral: nat, nonce: nat, preKey: Option<LocalPreKey>)

  /** A payload that is composed but not yet posted. */
  datatype Draft = Draft(sent: Sent, payload: Payload)

  /**
   `inboxes` holds every user's last listing; `log` is the history of all
   messages ever committed, `nextSecret` the first secret no one has drawn.
   */
  datatype World = World(
    tables: Tables<Payload>, clients: map<nat, Client>, online: set<nat>,
    drafts: map<nat, Draft>, inboxes: map<nat, map<nat, Row>>,
    log: map<nat, Sent>, nextSecret: nat)

  datatype Event =
    | SignUp
    | Login(userId: nat)
    | Logout(userId: nat)
    | Compose(draft: nat, context: Context, text: string, nonce: nat)
    | Send(draft: nat, timestamp: nat, answered: bool)
    | Fetch(userId: nat, conversationId: nat)
    | Show(userId: nat, messageId: nat, active: Option<nat>)
    | Other(txn: Txn<Payload>)

  const EMPTY: World := World(Tables(map[], 1, map[], 1, map[], 1, map[]), map[], {}, map[], map[], map[], 0)

  function NewClient(secret: nat): Client {
    Client(NewIdentity(secret), [], Load(NewIdentity(secret), []), map[], map[], map[])
  }

  function SignUpStep(w: World): World {
    var client := NewClient(w.nextSecret);
    var bundle := BundleOf(client.stored, PublicKeys(client.stored.oneTimePreKeys));
    w.(tables := CreateUser(w.tables, bundle),
       clients := w.clients[w.tables.nextUserId := client],
       nextSecret := w.nextSecret + SECRETS_PER_USER)
  }

  function WithClient(w: World, u: nat, c: Client): World {
    w.(clients := w.clients[u := c])
  }

  /** The stored prekeys not yet used. */
  function Live(c: Client): seq<LocalPreKey> {
    Unused(c.stored.oneTimePreKeys, c.used)
  }

  function LoginStep(w: World, userId: nat): World {
    if userId !in w.clients then w
    else
      var c := w.clients[userId];
      w.(clients := w.clients[userId := c.(keys := Load(c.stored, c.used), senderKeys := map[])],
         online := w.online + {userId})
  }

  predicate CanCompose(w: World, draft: nat, c: Context) {
    && draft !in w.drafts && c.senderId != c.recipientId && c.senderId in w.online
    && c.senderId in w.clients && c.recipientId in w.clients && c.recipientId in w.tables.users
  }

  /** The world after a client has fetched another user's bundle, and pinned it if it is the first one. */
  function FetchedKey(w: World, s: nat, r: nat): World
    requires s in w.clients && r in w.tables.users
  {
    WithClient(w, s, AfterFetch(w.clients[s], r, w.tables.users[r]))
  }

  /** The draft made from the bundle as it is served now. */
  function Composed(w: World, c: Context, text: string, nonce: nat): Option<Draft>
    requires c.senderId in w.clients && c.recipientId in w.clients && c.recipientId in w.tables.users
  {
    var served := w.tables.users[c.recipientId];
    var payload := Prepared(w.clients[c.senderId], text, c, served, w.nextSecret, nonce);
    if payload.None? then None
    else
      var front := FrontPreKey(served);
      var preKey := if front.None? then None
                    else FindPreKey(w.clients[c.recipientId].stored.oneTimePreKeys, front.value.id);
      Some(Draft(Sent(c, text, w.nextSecret, nonce, preKey), payload.value))
  }

  function WithDraft(w: World, draft: nat, d: Draft): World {
    w.(drafts := w.drafts[draft := d], nextSecret := w.nextSecret + 1)
  }

  /** Fetches the recipient's bundle and encrypts; nothing is posted yet. */
  function ComposeStep(w: World, draft: nat, c: Context, text: string, nonce: nat): World {
    if text == "" || !CanCompose(w, draft, c) then w
    else
      var fetched, made := FetchedKey(w, c.senderId, c.recipientId), Composed(w, c, text, nonce);
      if made.None? then fetched else WithDraft(fetched, draft, made.value)
  }

  function PostOf(d: Draft, timestamp: nat): Post<Payload> {
    var c := d.sent.context;
    Post(c.conversationId, c.senderId, d.payload, timestamp, Some(c.recipientId),
         if d.payload.Payload? then d.payload.oneTimePreKeyId else None)
  }

  /** The tables and the log after a post that commits. */
  function Posting(w: World, d: Draft, timestamp: nat): World
    requires Insert(w.tables, PostOf(d, timestamp)).Ok?
  {
    var (tables, id) := Insert(w.tables, PostOf(d, timestamp)).value;
    w.(tables := tables, log := w.log[id := d.sent])
  }

  /** Posts a draft; a refused post leaves nothing behind, and a lost answer leaves the sender without the text. */
  function SendStep(w: World, draft: nat, timestamp: nat, answered: bool): World {
    if draft !in w.drafts then w
    else
      var d, rest := w.drafts[draft], w.(drafts := w.drafts - {draft});
      var inserted, s := Insert(w.tables, PostOf(d, timestamp)), d.sent.context.senderId;
      if inserted.Err? then rest
      else
        var posted := Posting(rest, d, timestamp);
        if !answered || s !in posted.clients then posted
        else WithClient(posted, s, Caching(posted.clients[s], inserted.value.1, d.sent.text))
  }

  function FetchStep(w: World, userId: nat, conversationId: nat): World {
    if userId !in w.online then w
    else w.(inboxes := w.inboxes[userId := Visible(w.tables, conversationId, userId)])
  }

  /** What the server answers when asked for a user's key. */
  function Served(w: World, userId: nat): Option<KeyText> {
    if userId in w.tables.users then Some(w.tables.users[userId]) else None
  }

  predicate CanShow(w: World, userId: nat, messageId: nat) {
    userId in w.online && userId in w.clients && userId in w.inboxes && messageId in w.inboxes[userId]
  }

  function ShowStep(w: World, userId: nat, messageId: nat, active: Option<nat>): World {
    if !CanShow(w, userId, messageId) then w
    else
      var msg := w.inboxes[userId][messageId];
      w.(clients := w.clients[userId := View(w.clients[userId], messageId, msg, AddressedTo(userId, active, msg),
                                             Served(w, msg.senderId))])
  }

  function Step(w: World, e: Event): World {
    match e
    case SignUp => SignUpStep(w)
    case Login(u) => LoginStep(w, u)
    case Logout(u) => w.(online := w.online - {u})
    case Compose(d, c, text, nonce) => ComposeStep(w, d, c, text, nonce)
    case Send(d, timestamp, answered) => SendStep(w, d, timestamp, answered)
    case Fetch(u, c) => FetchStep(w, u, c)
    case Show(u, m, r) => ShowStep(w, u, m, r)
    case Other(txn) => if txn.Create? || txn.AddUser? then w else w.(tables := Commit(w.tables, txn))
  }

  function Run(events: seq<Event>): World {
    if events == [] then EMPTY else Step(Run(events[..|events| - 1]), events[|events| - 1])
  }
}
