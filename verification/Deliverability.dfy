/** The end-to-end promise: what was sent is what its recipient is shown, in every reachable world. */
module Deliverability {
  import opened Wrappers
  import opened Crypto
  import opened Bundles
  import opened LocalKeyStore
  import opened Database
  import opened Transactions
  import opened Session
  import opened X3dh
  import opened Delivery
  import opened DeliveryInvariant

  /** The row is stored on the server, or in the user's last listing. */
  predicate IsAtHand(w: World, userId: nat, id: nat, msg: Row) {
    || (id in w.tables.messages && w.tables.messages[id] == msg)
    || (userId in w.inboxes && id in w.inboxes[userId] && w.inboxes[userId][id] == msg)
  }

  lemma AtHandIsLogged(w: World, userId: nat, id: nat, msg: Row)
    requires Good(w) && IsAtHand(w, userId, id, msg)
    ensures IsLogged(w.clients, w.log, id, msg)
  {
    if userId in w.inboxes {
      assert AllLogged(w.clients, w.log, w.inboxes[userId]);
    }
  }

  /** In a good world, what a client shows for a logged message is decided by who it is for and the cache alone. */
  lemma ShownIff(w: World, userId: nat, id: nat, msg: Row, active: Option<nat>)
    requires Good(w) && userId in w.clients && IsLogged(w.clients, w.log, id, msg)
    ensures var s, c := w.log[id], w.clients[userId];
            var text := Shown(c, id, msg, AddressedTo(userId, active, msg), Served(w, msg.senderId));
            && (text.Some? <==> userId == s.context.recipientId || (userId == s.context.senderId && id in c.cache))
            && (text.Some? ==> text.value == s.text)
  {
    assert CacheOk(userId, w.clients[userId], w.log) && Deliverable(w.clients, id, w.log[id]);
    if id !in w.clients[userId].cache {
      ShowOutcome(w, userId, id, msg, active);
    }
  }

  /**
   The end-to-end promise. In every reachable world, a message that is stored
   or was listed shows its recipient exactly the text that was sent, at every
   poll; its sender the same text or nothing; and anyone else nothing.
   */
  lemma {:induction false} EveryPollShowsTheText(events: seq<Delivery.Event>, userId: nat, id: nat, msg: Row,
                                                 active: Option<nat>)
    ensures var w := Delivery.Run(events);
            userId in w.clients && IsAtHand(w, userId, id, msg) ==>
              && id in w.log
              && var s, c := w.log[id], w.clients[userId];
                 var text := Shown(c, id, msg, AddressedTo(userId, active, msg), Served(w, msg.senderId));
                 && s.context.senderId == msg.senderId && s.context.conversationId == msg.conversationId
                 && (userId == s.context.recipientId ==> text == Some(s.text))
                 && (userId == s.context.senderId ==> text == if id in c.cache then Some(s.text) else None)
                 && (!IsEnd(userId, s) ==> text == None)
  {
    EveryWorldIsGood(events);
    var w := Delivery.Run(events);
    if userId in w.clients && IsAtHand(w, userId, id, msg) {
      AtHandIsLogged(w, userId, id, msg);
      ShownIff(w, userId, id, msg, active);
    }
  }

  /**
   For every posted message with a prekey, deleted ones included: its recipient
   has the prekey or the text, never neither.
   */
  lemma {:induction false} PreKeyOrText(events: seq<Delivery.Event>, id: nat)
    requires id in Delivery.Run(events).log && Delivery.Run(events).log[id].preKey.Some?
    ensures var w := Delivery.Run(events);
            var s := w.log[id];
            && s.context.recipientId in w.clients
            && (s.preKey.value in w.clients[s.context.recipientId].keys.oneTimePreKeys
                || (id in w.clients[s.context.recipientId].cache
                    && w.clients[s.context.recipientId].cache[id] == s.text))
  {
    EveryWorldIsGood(events);
    var w := Delivery.Run(events);
    var r := w.log[id].context.recipientId;
    assert Deliverable(w.clients, id, w.log[id]);
    assert ClientOk(w.clients[r], w.nextSecret) && CacheOk(r, w.clients[r], w.log);
  }

  /** An item of a listing, with what the server says now about its sender. */
  predicate IsItem(w: World, item: Item) {
    IsLogged(w.clients, w.log, item.id, item.msg) && item.served == Served(w, item.msg.senderId)
  }

  /** An item for this user is displayed with the text that was sent. */
  predicate IsAsSent(w: World, userId: nat, item: Item, d: Displayed) {
    && item.id in w.log
    && (w.log[item.id].context.recipientId == userId ==> d == Displayed(item.id, w.log[item.id].text, true))
  }

  ghost predicate AreItems(w: World, items: seq<Item>) {
    forall i {:trigger IsItem(w, items[i])} :: 0 <= i < |items| ==> IsItem(w, items[i])
  }

  ghost predicate AreAsSent(w: World, userId: nat, items: seq<Item>, shown: seq<Displayed>) {
    && |shown| == |items|
    && forall i {:trigger IsAsSent(w, userId, items[i], shown[i])} :: 0 <= i < |items| ==>
      IsAsSent(w, userId, items[i], shown[i])
  }

  lemma ItemShows(w: World, userId: nat, active: Option<nat>, item: Item)
    requires Good(w) && userId in w.clients && IsItem(w, item)
    ensures Good(WithClient(w, userId, ViewItem(w.clients[userId], userId, active, item)))
    ensures IsAsSent(w, userId, item, Display(w.clients[userId], userId, active, item))
  {
    ShownIff(w, userId, item.id, item.msg, active);
    if item.id in w.clients[userId].cache {
      assert w.clients[userId := w.clients[userId]] == w.clients;
    } else {
      ViewMayHappen(w, userId, item.id, item.msg, active);
      ClientChanges(w, userId, ViewItem(w.clients[userId], userId, active, item));
    }
  }

  lemma ItemStays(w: World, userId: nat, c: Client, item: Item)
    requires IsItem(w, item) && userId in w.clients && c.stored == w.clients[userId].stored
    ensures IsItem(WithClient(w, userId, c), item)
  {
  }

  lemma ListingContinues(w: World, userId: nat, active: Option<nat>, before: Client, item: Item)
    requires Good(WithClient(w, userId, before)) && userId in w.clients && before.stored == w.clients[userId].stored
    requires IsItem(w, item)
    ensures Good(WithClient(w, userId, ViewItem(before, userId, active, item)))
    ensures IsAsSent(w, userId, item, Display(before, userId, active, item))
  {
    var x := WithClient(w, userId, before);
    ItemStays(w, userId, before, item);
    ItemShows(x, userId, active, item);
    var after := ViewItem(before, userId, active, item);
    assert WithClient(x, userId, after) == WithClient(w, userId, after);
  }

  lemma AppendAsSent(w: World, userId: nat, items: seq<Item>, item: Item, shown: seq<Displayed>, d: Displayed)
    requires AreAsSent(w, userId, items, shown) && IsAsSent(w, userId, item, d)
    ensures AreAsSent(w, userId, items + [item], shown + [d])
  {
  }

  lemma ButLast(w: World, items: seq<Item>)
    requires AreItems(w, items) && items != []
    ensures AreItems(w, items[..|items| - 1]) && IsItem(w, items[|items| - 1])
  {
  }

  lemma {:induction false} ListingKeepsGood(w: World, userId: nat, active: Option<nat>, items: seq<Item>)
    requires Good(w) && userId in w.clients && AreItems(w, items)
    ensures var after := ViewAll(w.clients[userId], userId, active, items).0;
            after.stored == w.clients[userId].stored && Good(WithClient(w, userId, after))
  {
    if items == [] {
      assert w.clients[userId := w.clients[userId]] == w.clients;
    } else {
      var rest := items[..|items| - 1];
      ButLast(w, items);
      ListingKeepsGood(w, userId, active, rest);
      ListingContinues(w, userId, active, ViewAll(w.clients[userId], userId, active, rest).0, items[|items| - 1]);
    }
  }

  /**
   A whole listing, shown one message after the other with the keys each one
   leaves: no message for this user is lost to an earlier one in the list.
   */
  lemma {:induction false} ListingShowsEveryText(w: World, userId: nat, active: Option<nat>, items: seq<Item>)
    requires Good(w) && userId in w.clients && AreItems(w, items)
    ensures AreAsSent(w, userId, items, ViewAll(w.clients[userId], userId, active, items).1)
  {
    if items != [] {
      var rest, item := items[..|items| - 1], items[|items| - 1];
      var (before, shown) := ViewAll(w.clients[userId], userId, active, rest);
      ButLast(w, items);
      ListingShowsEveryText(w, userId, active, rest);
      ListingKeepsGood(w, userId, active, rest);
      ListingContinues(w, userId, active, before, item);
      AppendAsSent(w, userId, rest, item, shown, Display(before, userId, active, item));
      assert rest + [item] == items;
    }
  }

  // ---------------------------------------------------------------------------
  // Composing and sending get through
  // ---------------------------------------------------------------------------

  lemma ServedCanBeEncryptedFor(r: Client, secrets: nat, column: KeyText, text: string, sender: Identity, c: Context,
                                ephemeral: nat, nonce: nat)
    requires ClientOk(r, secrets) && Published(r, column)
    ensures Encrypt(text, sender, column, c, ephemeral, nonce).Ok?
  {
    OwnBundleIsOwn(r, PreKeys(column));
    var front := FrontPreKey(column);
    if front.Some? {
      assert front.value in PreKeys(column);
      FoundLive(r, FindPreKey(Live(r), front.value.id).value);
    }
    EncryptSucceedsIff(text, sender, column, c, ephemeral, nonce);
  }

  lemma ComposesIn(w: World, c: Context, text: string, nonce: nat)
    requires ClientsOk(w) && AllPeersOk(w.clients)
    requires c.senderId in w.clients && c.recipientId in w.clients && c.senderId != c.recipientId
    ensures Composed(w, c, text, nonce).Some?
  {
    var r, column := w.clients[c.recipientId], w.tables.users[c.recipientId];
    assert PeersOk(w.clients, w.clients[c.senderId]) && ClientOk(r, w.nextSecret) && Published(r, column);
    OwnBundleIsOwn(r, PreKeys(column));
    ServedCanBeEncryptedFor(r, w.nextSecret, column, text, w.clients[c.senderId].keys, c, w.nextSecret, nonce);
  }

  /** Whatever others have taken meanwhile, a bundle served to another user passes the pin and can be encrypted for. */
  lemma {:induction false} ComposeSucceeds(events: seq<Delivery.Event>, c: Context, text: string, nonce: nat)
    requires var w := Delivery.Run(events);
             c.senderId in w.clients && c.recipientId in w.clients && c.senderId != c.recipientId
    ensures var w := Delivery.Run(events);
            && c.recipientId in w.tables.users
            && Composed(w, c, text, nonce).Some?
  {
    EveryWorldIsGood(events);
    ComposesIn(Delivery.Run(events), c, text, nonce);
  }

  lemma SendsIffIn(w: World, draft: nat, timestamp: nat)
    requires Good(w) && draft in w.drafts
    ensures var s := w.drafts[draft].sent;
            && s.context.recipientId in w.tables.users
            && (Insert(w.tables, PostOf(w.drafts[draft], timestamp)).Ok? <==>
                  && s.context.conversationId in w.tables.conversations
                  && (s.preKey.Some? ==> Offers(w.tables.users[s.context.recipientId], s.preKey.value.id)))
  {
    var d := w.drafts[draft];
    assert IsSealed(w.clients, d.sent, d.payload);
    SealingNamesPreKey(w.clients[d.sent.context.senderId].stored, w.clients[d.sent.context.recipientId].stored, d.sent);
    CommitsIff(w.tables, PostOf(d, timestamp));
  }

  /** A draft can be posted exactly while its conversation exists and its prekey, if it has one, is still on offer. */
  lemma {:induction false} SendSucceedsIff(events: seq<Delivery.Event>, draft: nat, timestamp: nat)
    requires draft in Delivery.Run(events).drafts
    ensures var w := Delivery.Run(events);
            var s := w.drafts[draft].sent;
            && s.context.recipientId in w.tables.users
            && (Insert(w.tables, PostOf(w.drafts[draft], timestamp)).Ok? <==>
                  && s.context.conversationId in w.tables.conversations
                  && (s.preKey.Some? ==> Offers(w.tables.users[s.context.recipientId], s.preKey.value.id)))
  {
    EveryWorldIsGood(events);
    SendsIffIn(Delivery.Run(events), draft, timestamp);
  }

  // ---------------------------------------------------------------------------
  // What was shown once
  // ---------------------------------------------------------------------------

  /** The world keeps every cached text and every logged message of another. */
  ghost predicate Remembers(w: World, x: World) {
    && LogGrows(w.log, x.log)
    && forall u, id :: u in w.clients && id in w.clients[u].cache ==>
         u in x.clients && id in x.clients[u].cache && x.clients[u].cache[id] == w.clients[u].cache[id]
  }

  lemma CacheKept(w: World, x: World, u: nat, c: Client)
    requires u in w.clients && x.clients == w.clients[u := c] && LogGrows(w.log, x.log)
    requires forall id :: id in w.clients[u].cache ==> id in c.cache && c.cache[id] == w.clients[u].cache[id]
    ensures Remembers(w, x)
  {
  }

  lemma SendRemembers(w: World, draft: nat, timestamp: nat, answered: bool)
    requires Good(w) && draft in w.drafts && Insert(w.tables, PostOf(w.drafts[draft], timestamp)).Ok?
    ensures Remembers(w, SendStep(w, draft, timestamp, answered))
  {
    var d, x := w.drafts[draft], SendStep(w, draft, timestamp, answered);
    var s, id := d.sent.context.senderId, w.tables.nextMessageId;
    assert IsSealed(w.clients, d.sent, d.payload);
    assert CacheOk(s, w.clients[s], w.log);
    assert id !in w.log;
    assert x.log == w.log[id := d.sent];
    CacheKept(w, x, s, x.clients[s]);
  }

  lemma ShowRemembers(w: World, userId: nat, messageId: nat, active: Option<nat>)
    ensures Remembers(w, ShowStep(w, userId, messageId, active))
  {
    if CanShow(w, userId, messageId) {
      var x := ShowStep(w, userId, messageId, active);
      CacheKept(w, x, userId, x.clients[userId]);
    }
  }

  lemma ComposeRemembers(w: World, draft: nat, c: Context, text: string, nonce: nat)
    ensures Remembers(w, ComposeStep(w, draft, c, text, nonce))
  {
    if CanCompose(w, draft, c) {
      CacheKept(w, ComposeStep(w, draft, c, text, nonce), c.senderId,
                ComposeStep(w, draft, c, text, nonce).clients[c.senderId]);
    }
  }

  lemma StepRemembers(w: World, e: Delivery.Event)
    requires Good(w)
    ensures Remembers(w, Delivery.Step(w, e))
  {
    match e
    case SignUp => assert w.tables.nextUserId !in w.clients;
    case Send(d, timestamp, answered) =>
      if d in w.drafts && Insert(w.tables, PostOf(w.drafts[d], timestamp)).Ok? {
        SendRemembers(w, d, timestamp, answered);
      }
    case Show(u, m, active) => ShowRemembers(w, u, m, active);
    case Compose(d, c, text, nonce) => ComposeRemembers(w, d, c, text, nonce);
    case Login(_) =>
    case Logout(_) =>
    case Fetch(_, _) =>
    case Other(_) =>
  }

  lemma {:induction false} RunRemembers(before: seq<Delivery.Event>, after: seq<Delivery.Event>)
    ensures Remembers(Delivery.Run(before), Delivery.Run(before + after))
  {
    if after == [] {
      assert before + after == before;
    } else {
      var n := |after| - 1;
      RunRemembers(before, after[..n]);
      assert (before + after)[..|before + after| - 1] == before + after[..n];
      EveryWorldIsGood(before + after[..n]);
      StepRemembers(Delivery.Run(before + after[..n]), after[n]);
    }
  }

  /** What a row would show a user in this world. */
  function ShownIn(w: World, userId: nat, id: nat, msg: Row, active: Option<nat>): Option<string>
    requires userId in w.clients
  {
    Shown(w.clients[userId], id, msg, AddressedTo(userId, active, msg), Served(w, msg.senderId))
  }

  /**
   A row at hand that shows a user a text once shows that text in every later
   world, to senders and recipients alike.
   */
  lemma {:induction false} OnceShownStaysShown(before: seq<Delivery.Event>, after: seq<Delivery.Event>, userId: nat,
                                               id: nat, msg: Row, active: Option<nat>, again: Row, later: Option<nat>)
    requires var w, x := Delivery.Run(before), Delivery.Run(before + after);
             && userId in w.clients && IsAtHand(w, userId, id, msg) && ShownIn(w, userId, id, msg, active).Some?
             && userId in x.clients && IsAtHand(x, userId, id, again)
    ensures var w, x := Delivery.Run(before), Delivery.Run(before + after);
            ShownIn(x, userId, id, again, later) == ShownIn(w, userId, id, msg, active)
  {
    var w, x := Delivery.Run(before), Delivery.Run(before + after);
    RunRemembers(before, after);
    EveryWorldIsGood(before);
    EveryWorldIsGood(before + after);
    AtHandIsLogged(w, userId, id, msg);
    AtHandIsLogged(x, userId, id, again);
    ShownIff(w, userId, id, msg, active);
    ShownIff(x, userId, id, again, later);
  }

  /** The message is in the log, and its sender has its text. */
  predicate SenderHas(w: World, id: nat, s: Sent) {
    && id in w.log && w.log[id] == s && s.context.senderId in w.clients
    && id in w.clients[s.context.senderId].cache && w.clients[s.context.senderId].cache[id] == s.text
  }

  lemma AnsweredSendCaches(w: World, draft: nat, timestamp: nat)
    requires Good(w) && draft in w.drafts && Insert(w.tables, PostOf(w.drafts[draft], timestamp)).Ok?
    ensures var id := Insert(w.tables, PostOf(w.drafts[draft], timestamp)).value.1;
            SenderHas(SendStep(w, draft, timestamp, true), id, w.drafts[draft].sent)
  {
    assert IsSealed(w.clients, w.drafts[draft].sent, w.drafts[draft].payload);
  }

  lemma RunOne(events: seq<Delivery.Event>, e: Delivery.Event)
    ensures Delivery.Run(events + [e]) == Delivery.Step(Delivery.Run(events), e)
  {
    assert (events + [e])[..|events|] == events;
  }

  lemma RememberedBySender(w: World, x: World, id: nat, s: Sent)
    requires Remembers(w, x) && SenderHas(w, id, s)
    ensures SenderHas(x, id, s)
  {
  }

  lemma {:induction false} AnsweredSendIsCached(before: seq<Delivery.Event>, draft: nat, timestamp: nat)
    requires var w := Delivery.Run(before);
             draft in w.drafts && Insert(w.tables, PostOf(w.drafts[draft], timestamp)).Ok?
    ensures var w := Delivery.Run(before);
            SenderHas(Delivery.Run(before + [Send(draft, timestamp, true)]),
                      Insert(w.tables, PostOf(w.drafts[draft], timestamp)).value.1, w.drafts[draft].sent)
  {
    EveryWorldIsGood(before);
    AnsweredSendCaches(Delivery.Run(before), draft, timestamp);
    RunOne(before, Send(draft, timestamp, true));
  }

  /** A sender whose post was answered has the message in its cache from then on. */
  lemma {:induction false} AnsweredSendIsKept(before: seq<Delivery.Event>, draft: nat, timestamp: nat,
                                              after: seq<Delivery.Event>)
    requires var w := Delivery.Run(before);
             draft in w.drafts && Insert(w.tables, PostOf(w.drafts[draft], timestamp)).Ok?
    ensures var w, x := Delivery.Run(before), Delivery.Run(before + [Send(draft, timestamp, true)] + after);
            SenderHas(x, Insert(w.tables, PostOf(w.drafts[draft], timestamp)).value.1, w.drafts[draft].sent)
  {
    var w, sending := Delivery.Run(before), before + [Send(draft, timestamp, true)];
    AnsweredSendIsCached(before, draft, timestamp);
    RunRemembers(sending, after);
    RememberedBySender(Delivery.Run(sending), Delivery.Run(sending + after),
                       Insert(w.tables, PostOf(w.drafts[draft], timestamp)).value.1, w.drafts[draft].sent);
  }

  // ---------------------------------------------------------------------------
  // Why the recipient has to be named
  // ---------------------------------------------------------------------------

  /** The handler takes the prekey identifier from the payload. */
  predicate NamesItsPreKey(p: Post<Payload>) {
    p.payload.Payload? && p.preKeyId == p.payload.oneTimePreKeyId
  }

  /**
   Of two messages made with one prekey of one user, the second is refused
   exactly if both posts name that user, and not the sender, as recipient.
   Otherwise both are stored, and once the user has read one of them, in this
   session or a later one, the other is unreadable.
   */
  lemma {:induction false} UnnamedRecipientsShareAPreKey(
      t: Tables<Payload>, p: Post<Payload>, q: Post<Payload>, stored: Identity,
      before: seq<X3dh.Event>, a: Attempt, between: seq<X3dh.Event>, b: Attempt)
    requires Insert(t, p).Ok? && Insert(t, q).Ok?
    requires NamesItsPreKey(p) && NamesItsPreKey(q) && p.preKeyId.Some? && q.preKeyId == p.preKeyId
    requires DistinctIds(stored.oneTimePreKeys) && a.payload == p.payload && b.payload == q.payload
    ensures Insert(Commit(t, Create(p)), q).Err? <==>
      && p.recipientId.Some? && q.recipientId == p.recipientId
      && p.recipientId.value != p.senderId && q.recipientId.value != q.senderId
    ensures Outcome(X3dh.Run(stored, before).keys, a).Ok? ==>
      Outcome(X3dh.Run(stored, before + [Try(a)] + between).keys, b).Err?
  {
    SecondCommitsIff(t, p, q);
    if Outcome(X3dh.Run(stored, before).keys, a).Ok? {
      PreKeyDecryptsOnce(stored, before, a, between, b);
    }
  }

  /** A message from user 1 to user 2 in conversation 1, made from the bundle user 2 signed up with. */
  function FirstMessage(text: string, ephemeral: nat): Result<Payload, Failure> {
    var recipient := NewIdentity(0);
    Encrypt(text, NewIdentity(SECRETS_PER_USER), BundleOf(recipient, PublicKeys(recipient.oneTimePreKeys)),
            Context(1, 1, 2), ephemeral, 0)
  }

  function SignedUp(secret: nat): KeyText {
    BundleOf(NewIdentity(secret), PublicKeys(NewIdentity(secret).oneTimePreKeys))
  }

  function TwoUsers(): Tables<Payload> {
    Tables(map[1 := SignedUp(SECRETS_PER_USER), 2 := SignedUp(0)], 3, map[1 := {1, 2}], 2, map[], 1, map[])
  }

  lemma FrontOfSignedUp(secret: nat)
    ensures FrontPreKey(SignedUp(secret)) == Some(PreKey(1, Pub(secret + 3))) && Offers(SignedUp(secret), 1)
    ensures FindPreKey(NewIdentity(secret).oneTimePreKeys, 1) == Some(MakePreKey(1, secret + 3))
  {
    assert PreKeys(SignedUp(secret))[0] == PreKey(1, Pub(secret + 3));
  }

  lemma FirstMessageReads(text: string, ephemeral: nat)
    ensures FirstMessage(text, ephemeral).Ok?
    ensures var p := FirstMessage(text, ephemeral).value;
            && p.Payload? && p.oneTimePreKeyId == Some(1)
            && Decrypt(p, NewIdentity(0), SignedUp(SECRETS_PER_USER), Context(1, 1, 2)) == Ok(text)
  {
    var sender, c := NewIdentity(SECRETS_PER_USER), Context(1, 1, 2);
    SignUpBundle(0);
    SignUpBundle(SECRETS_PER_USER);
    FrontOfSignedUp(0);
    EncryptSucceedsIff(text, sender, SignedUp(0), c, ephemeral, 0);
    DecryptSucceedsIff(text, sender, SignedUp(0), c, ephemeral, 0, NewIdentity(0), SignedUp(SECRETS_PER_USER), c);
  }

  lemma ReadOnce(text: string, ephemeral: nat, a: Payload)
    requires a.Payload? && a.oneTimePreKeyId == Some(1)
    ensures FirstMessage(text, ephemeral).Ok?
    ensures Decrypt(FirstMessage(text, ephemeral).value, AfterDecrypt(NewIdentity(0), a, Ok("a")),
                    SignedUp(SECRETS_PER_USER), Context(1, 1, 2)) == Err(NoOneTimePreKey)
  {
    FirstMessageReads(text, ephemeral);
    SignUpBundle(0);
    SignUpBundle(SECRETS_PER_USER);
    NoneLeftIff(NewIdentity(0).oneTimePreKeys, 1);
  }

  /**
   It does happen: user 1 sends "a" and "b" to user 2 from the same bundle. Posted
   without a recipient, or naming the sender, both are stored and only the first
   one read can be read; naming user 2, the second post is refused.
   */
  lemma {:induction false} UnnamedPairLosesOne(recipientId: Option<nat>)
    requires recipientId == None || recipientId == Some(1) || recipientId == Some(2)
    ensures FirstMessage("a", 100).Ok? && FirstMessage("b", 101).Ok?
    ensures var t, a, b := TwoUsers(), FirstMessage("a", 100).value, FirstMessage("b", 101).value;
            var p, q := Post(1, 1, a, 0, recipientId, Some(1)), Post(1, 1, b, 0, recipientId, Some(1));
            var keys, senderKey, c := NewIdentity(0), SignedUp(SECRETS_PER_USER), Context(1, 1, 2);
            && NamesItsPreKey(p) && NamesItsPreKey(q)
            && Insert(t, p).Ok? && (Insert(Commit(t, Create(p)), q).Ok? <==> recipientId != Some(2))
            && Decrypt(a, keys, senderKey, c) == Ok("a") && Decrypt(b, keys, senderKey, c) == Ok("b")
            && Decrypt(b, AfterDecrypt(keys, a, Ok("a")), senderKey, c) == Err(NoOneTimePreKey)
  {
    FirstMessageReads("a", 100);
    FirstMessageReads("b", 101);
    FrontOfSignedUp(0);
    var t, a, b := TwoUsers(), FirstMessage("a", 100).value, FirstMessage("b", 101).value;
    var p, q := Post(1, 1, a, 0, recipientId, Some(1)), Post(1, 1, b, 0, recipientId, Some(1));
    CommitsIff(t, p);
    CommitsIff(t, q);
    SecondCommitsIff(t, p, q);
    ReadOnce("b", 101, a);
  }
}
