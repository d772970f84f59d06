/**
 Messages do get through: from every reachable world one user can write to
 another, and a first run ends with a prekey message read by its recipient.
 */
module DeliveryRun {
  import opened Wrappers
  import opened Bundles
  import opened LocalKeyStore
  import opened Database
  import opened Transactions
  import opened Session
  import opened X3dh
  import opened Delivery
  import opened DeliveryInvariant
  import opened Deliverability

  /** The sender logs in, writes to the recipient and posts; the server answers. */
  function Writing(draft: nat, c: Context, text: string, nonce: nat, timestamp: nat): seq<Delivery.Event> {
    [Delivery.Login(c.senderId), Compose(draft, c, text, nonce), Send(draft, timestamp, true)]
  }

  /** The recipient logs in, polls the conversation and looks at the message. */
  function Reading(c: Context, id: nat, active: Option<nat>): seq<Delivery.Event> {
    [Delivery.Login(c.recipientId), Fetch(c.recipientId, c.conversationId), Show(c.recipientId, id, active)]
  }

  lemma Regrouped(events: seq<Delivery.Event>, more: seq<Delivery.Event>)
    requires |more| == 3
    ensures events + [more[0]] + [more[1]] + [more[2]] == events + more
  {
  }

  function Three(w: World, more: seq<Delivery.Event>): World
    requires |more| == 3
  {
    Delivery.Step(Delivery.Step(Delivery.Step(w, more[0]), more[1]), more[2])
  }

  lemma ThreeWriting(w: World, draft: nat, c: Context, text: string, nonce: nat, timestamp: nat)
    ensures Three(w, Writing(draft, c, text, nonce, timestamp))
         == SendStep(ComposeStep(LoginStep(w, c.senderId), draft, c, text, nonce), draft, timestamp, true)
  {
  }

  lemma ThreeReading(w: World, c: Context, id: nat, active: Option<nat>)
    ensures Three(w, Reading(c, id, active))
         == ShowStep(FetchStep(LoginStep(w, c.recipientId), c.recipientId, c.conversationId), c.recipientId, id, active)
  {
  }

  lemma RunThree(events: seq<Delivery.Event>, more: seq<Delivery.Event>)
    requires |more| == 3
    ensures Delivery.Run(events + more) == Three(Delivery.Run(events), more)
  {
    Regrouped(events, more);
    Deliverability.RunOne(events, more[0]);
    Deliverability.RunOne(events + [more[0]], more[1]);
    Deliverability.RunOne(events + [more[0]] + [more[1]], more[2]);
  }

  /** Both ends exist, the conversation exists, and the draft number is free. */
  predicate CanWrite(w: World, draft: nat, c: Context) {
    && c.senderId in w.clients && c.recipientId in w.clients && c.senderId != c.recipientId
    && c.conversationId in w.tables.conversations && draft !in w.drafts
  }

  /** The prekey at the front of the recipient's bundle, if there is one. */
  function NextPreKey(w: World, recipientId: nat): Option<nat>
    requires recipientId in w.tables.users
  {
    var front := FrontPreKey(w.tables.users[recipientId]);
    if front.Some? && front.value.PreKey? then Some(front.value.id) else None
  }

  /** The message is stored and listed for its recipient, whose next prekey it took. */
  predicate IsWritten(w: World, x: World, c: Context, text: string) {
    var id := w.tables.nextMessageId;
    && c.recipientId in w.tables.users
    && id in x.log && x.log[id].context == c && x.log[id].text == text
    && NextPreKey(w, c.recipientId) == (if x.log[id].preKey.None? then None else Some(x.log[id].preKey.value.id))
    && id in Visible(x.tables, c.conversationId, c.recipientId)
    && c.recipientId in x.clients
  }

  lemma FrontIsTaken(w: World, c: Context, text: string, nonce: nat)
    requires ClientsOk(w) && c.senderId in w.clients && c.recipientId in w.clients
    requires Composed(w, c, text, nonce).Some?
    ensures var k := Composed(w, c, text, nonce).value.sent.preKey;
            NextPreKey(w, c.recipientId) == if k.None? then None else Some(k.value.id)
  {
    var r, column := w.clients[c.recipientId], w.tables.users[c.recipientId];
    assert ClientOk(r, w.nextSecret) && Published(r, column);
    if FrontPreKey(column).Some? {
      assert FrontPreKey(column).value in PreKeys(column);
      FoundLive(r, FindPreKey(Live(r), FrontPreKey(column).value.id).value);
    }
  }

  /** The draft is for the message, and has the front prekey. */
  predicate IsDrafted(w: World, x: World, draft: nat, c: Context, text: string) {
    && c.recipientId in w.tables.users && x.tables == w.tables
    && draft in x.drafts && x.drafts[draft].sent.context == c && x.drafts[draft].sent.text == text
    && var k := x.drafts[draft].sent.preKey;
       NextPreKey(w, c.recipientId) == if k.None? then None else Some(k.value.id)
  }

  lemma Composes(w: World, draft: nat, c: Context, text: string, nonce: nat)
    requires Good(w) && CanWrite(w, draft, c) && c.senderId in w.online && text != ""
    ensures var x := ComposeStep(w, draft, c, text, nonce);
            Good(x) && IsDrafted(w, x, draft, c, text) && x.clients.Keys == w.clients.Keys
  {
    ComposesIn(w, c, text, nonce);
    FrontIsTaken(w, c, text, nonce);
    ComposeKeepsGood(w, draft, c, text, nonce);
  }

  // ---------------------------------------------------------------------------
  // Access rows of reachable worlds
  // ---------------------------------------------------------------------------

  ghost predicate RowsFresh(t: Tables<Payload>) {
    forall k :: k in t.access ==> k.0 < t.nextMessageId
  }

  lemma CommitKeepsRows(t: Tables<Payload>, txn: Txn<Payload>)
    requires FreshIds(t) && RowsFresh(t)
    ensures RowsFresh(Commit(t, txn))
  {
  }

  lemma StepKeepsRows(w: World, e: Delivery.Event)
    requires FreshIds(w.tables) && RowsFresh(w.tables)
    ensures RowsFresh(Delivery.Step(w, e).tables)
  {
    match e
    case Send(d, timestamp, _) =>
      if d in w.drafts {
        CommitKeepsRows(w.tables, Create(PostOf(w.drafts[d], timestamp)));
      }
    case Other(txn) => CommitKeepsRows(w.tables, txn);
    case SignUp =>
    case Login(_) =>
    case Logout(_) =>
    case Compose(_, _, _, _) =>
    case Fetch(_, _) =>
    case Show(_, _, _) =>
  }

  lemma {:induction false} RowsStayFresh(events: seq<Delivery.Event>)
    ensures RowsFresh(Delivery.Run(events).tables)
  {
    if events != [] {
      RowsStayFresh(events[..|events| - 1]);
      EveryWorldIsGood(events[..|events| - 1]);
      StepKeepsRows(Delivery.Run(events[..|events| - 1]), events[|events| - 1]);
    }
  }

  lemma PostIsListed(w: World, draft: nat, timestamp: nat)
    requires draft in w.drafts && Insert(w.tables, PostOf(w.drafts[draft], timestamp)).Ok? && RowsFresh(w.tables)
    ensures var x, c := SendStep(w, draft, timestamp, true), w.drafts[draft].sent.context;
            var id := w.tables.nextMessageId;
            && id in x.log && x.log[id] == w.drafts[draft].sent && w.clients.Keys <= x.clients.Keys
            && id in Visible(x.tables, c.conversationId, c.recipientId)
  {
    var c, id := w.drafts[draft].sent.context, w.tables.nextMessageId;
    assert (id, c.recipientId) !in w.tables.access;
    assert c.recipientId in Readers(w.tables, c.conversationId, c.senderId, Some(c.recipientId));
  }

  // ---------------------------------------------------------------------------
  // One user writes to another
  // ---------------------------------------------------------------------------

  lemma LoggingIn(w: World, userId: nat)
    requires Good(w) && userId in w.clients
    ensures var x := LoginStep(w, userId);
            && Good(x) && x.tables == w.tables && x.drafts == w.drafts && x.log == w.log
            && x.clients.Keys == w.clients.Keys && userId in x.online
  {
    LoginKeepsGood(w, userId);
  }

  lemma FrontIsOffered(w: World, recipientId: nat)
    requires recipientId in w.tables.users && NextPreKey(w, recipientId).Some?
    ensures Offers(w.tables.users[recipientId], NextPreKey(w, recipientId).value)
  {
    assert FrontPreKey(w.tables.users[recipientId]).value in PreKeys(w.tables.users[recipientId]);
  }

  lemma DraftCommits(w: World, x: World, draft: nat, c: Context, text: string, timestamp: nat)
    requires Good(x) && IsDrafted(w, x, draft, c, text) && c.conversationId in w.tables.conversations
    ensures Insert(x.tables, PostOf(x.drafts[draft], timestamp)).Ok?
  {
    SendsIffIn(x, draft, timestamp);
    if NextPreKey(w, c.recipientId).Some? {
      FrontIsOffered(w, c.recipientId);
    }
  }

  lemma Writes(w: World, draft: nat, c: Context, text: string, nonce: nat, timestamp: nat)
    requires Good(w) && RowsFresh(w.tables) && CanWrite(w, draft, c) && text != ""
    ensures var x := ComposeStep(LoginStep(w, c.senderId), draft, c, text, nonce);
            IsWritten(w, SendStep(x, draft, timestamp, true), c, text)
  {
    var y := LoginStep(w, c.senderId);
    LoggingIn(w, c.senderId);
    Composes(y, draft, c, text, nonce);
    var x := ComposeStep(y, draft, c, text, nonce);
    DraftCommits(y, x, draft, c, text, timestamp);
    PostIsListed(x, draft, timestamp);
  }

  /**
   From every reachable world: the message is composed, committed and listed for
   its recipient, and takes the prekey at the front of the recipient's bundle.
   */
  lemma {:induction false} WritingSucceeds(events: seq<Delivery.Event>, draft: nat, c: Context, text: string,
                                           nonce: nat, timestamp: nat)
    requires CanWrite(Delivery.Run(events), draft, c) && text != ""
    ensures IsWritten(Delivery.Run(events), Delivery.Run(events + Writing(draft, c, text, nonce, timestamp)), c, text)
  {
    var w, more := Delivery.Run(events), Writing(draft, c, text, nonce, timestamp);
    assert Good(w) && RowsFresh(w.tables) by {
      EveryWorldIsGood(events);
      RowsStayFresh(events);
    }
    assert Delivery.Run(events + more) == Three(w, more) by {
      RunThree(events, more);
    }
    assert IsWritten(w, Three(w, more), c, text) by {
      ThreeWriting(w, draft, c, text, nonce, timestamp);
      Writes(w, draft, c, text, nonce, timestamp);
    }
  }

  lemma Listed(w: World, userId: nat, conversationId: nat, id: nat)
    requires Good(w) && userId in w.clients && userId in w.online && id in Visible(w.tables, conversationId, userId)
    ensures var x := FetchStep(w, userId, conversationId);
            && Good(x) && CanShow(x, userId, id) && x.log == w.log && x.clients == w.clients
            && IsLogged(x.clients, x.log, id, x.inboxes[userId][id])
  {
    FetchKeepsGood(w, userId, conversationId);
    var x := FetchStep(w, userId, conversationId);
    AtHandIsLogged(x, userId, id, x.inboxes[userId][id]);
  }

  /** The client has the message's text in its cache. */
  predicate HasRead(w: World, userId: nat, id: nat, text: string) {
    userId in w.clients && id in w.clients[userId].cache && w.clients[userId].cache[id] == text
  }

  lemma ShowingCaches(w: World, userId: nat, id: nat, active: Option<nat>)
    requires Good(w) && CanShow(w, userId, id) && IsLogged(w.clients, w.log, id, w.inboxes[userId][id])
    requires w.log[id].context.recipientId == userId
    ensures HasRead(ShowStep(w, userId, id, active), userId, id, w.log[id].text)
  {
    assert CacheOk(userId, w.clients[userId], w.log);
    ShownIff(w, userId, id, w.inboxes[userId][id], active);
  }

  lemma Reads(w: World, c: Context, id: nat, active: Option<nat>)
    requires Good(w) && id in w.log && w.log[id].context == c && c.recipientId in w.clients
    requires id in Visible(w.tables, c.conversationId, c.recipientId)
    ensures var x := FetchStep(LoginStep(w, c.recipientId), c.recipientId, c.conversationId);
            HasRead(ShowStep(x, c.recipientId, id, active), c.recipientId, id, w.log[id].text)
  {
    var y := LoginStep(w, c.recipientId);
    LoggingIn(w, c.recipientId);
    Listed(y, c.recipientId, c.conversationId, id);
    ShowingCaches(FetchStep(y, c.recipientId, c.conversationId), c.recipientId, id, active);
  }

  /** And reading it then puts its text into the recipient's cache. */
  lemma {:induction false} ReadingSucceeds(events: seq<Delivery.Event>, c: Context, id: nat, active: Option<nat>)
    requires var w := Delivery.Run(events);
             && id in w.log && w.log[id].context == c && c.recipientId in w.clients
             && id in Visible(w.tables, c.conversationId, c.recipientId)
    ensures HasRead(Delivery.Run(events + Reading(c, id, active)), c.recipientId, id, Delivery.Run(events).log[id].text)
  {
    var w, more := Delivery.Run(events), Reading(c, id, active);
    assert Delivery.Run(events + more) == Three(w, more) by {
      RunThree(events, more);
    }
    assert HasRead(Three(w, more), c.recipientId, id, w.log[id].text) by {
      EveryWorldIsGood(events);
      ThreeReading(w, c, id, active);
      Reads(w, c, id, active);
    }
  }

  // ---------------------------------------------------------------------------
  // A first run
  // ---------------------------------------------------------------------------

  /** Two users sign up and share a conversation. */
  const FIRST: seq<Delivery.Event> := [SignUp, SignUp, Other(AddConversation({1, 2}))]

  lemma SigningUp(w: World)
    ensures var x, id := SignUpStep(w), w.tables.nextUserId;
            && x.clients.Keys == w.clients.Keys + {id} && x.tables.users == w.tables.users[id := SignedUp(w.nextSecret)]
            && x.tables.nextUserId == id + 1 && x.nextSecret == w.nextSecret + SECRETS_PER_USER
            && x.tables.nextConversationId == w.tables.nextConversationId
            && x.tables.nextMessageId == w.tables.nextMessageId && x.drafts == w.drafts && x.log == w.log
  {
  }

  lemma Conversing(w: World, participants: set<nat>)
    requires participants <= w.tables.users.Keys
    ensures var x := Delivery.Step(w, Other(AddConversation(participants)));
            && w.tables.nextConversationId in x.tables.conversations && x.tables.users == w.tables.users
            && x.tables.nextMessageId == w.tables.nextMessageId && x.clients == w.clients && x.drafts == w.drafts
            && x.log == w.log
  {
  }

  lemma {:induction false} AfterFirst()
    ensures var w, c := Delivery.Run(FIRST), Context(1, 1, 2);
            && CanWrite(w, 0, c) && w.tables.nextMessageId == 1
            && 2 in w.tables.users && NextPreKey(w, 2) == Some(1)
  {
    RunThree([], FIRST);
    assert [] + FIRST == FIRST;
    var w := SignUpStep(EMPTY);
    SigningUp(EMPTY);
    SigningUp(w);
    Conversing(SignUpStep(w), {1, 2});
    FrontOfSignedUp(SECRETS_PER_USER);
  }

  /**
   A run with a prekey message exists: the first message between two new users
   takes prekey 1 of its recipient, and once read its text is in the cache.
   */
  lemma {:induction false} FirstMessageArrives(text: string, nonce: nat, timestamp: nat, active: Option<nat>)
    requires text != ""
    ensures var c := Context(1, 1, 2);
            var sent := FIRST + Writing(0, c, text, nonce, timestamp);
            var w, x := Delivery.Run(sent), Delivery.Run(sent + Reading(c, 1, active));
            && 1 in w.log && w.log[1].context == c && w.log[1].text == text
            && w.log[1].preKey.Some? && w.log[1].preKey.value.id == 1
            && HasRead(x, 2, 1, text)
  {
    var c := Context(1, 1, 2);
    AfterFirst();
    WritingSucceeds(FIRST, 0, c, text, nonce, timestamp);
    ReadingSucceeds(FIRST + Writing(0, c, text, nonce, timestamp), c, 1, active);
  }
}
