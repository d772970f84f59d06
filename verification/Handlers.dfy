/**
 Request handlers whose checks and actions are separate transactions. Any
 number of them run at once; between two steps of one handler any other may
 act, and the server may restart.
 */
module Handlers {
  import opened Wrappers
  import opened Bundles
  import opened Database
  import opened Transactions

  datatype Request<P> =
    | CreateRequest(post: Post<P>)
    | DeleteRequest(conversationId: nat, messageId: nat, userId: nat)
    | RevokeRequest(conversationId: nat, messageId: nat, userId: nat, targetId: nat, at: nat)
    | ListRequest(conversationId: nat, userId: nat)

  /** A handler that has passed the first `passed` of its checks. */
  datatype Handler<P> = Handler(request: Request<P>, passed: nat)

  datatype Server<P> = Server(tables: Tables<P>, handlers: map<nat, Handler<P>>)

  function CheckCount<P>(r: Request<P>): nat {
    match r
    case CreateRequest(_) => 2
    case DeleteRequest(_, _, _) => 1
    case RevokeRequest(_, _, _, _, _) => 3
    case ListRequest(_, _) => 1
  }

  /** The check at position `i`, against the tables of its own transaction. */
  predicate Check<P>(t: Tables<P>, r: Request<P>, i: nat) {
    match r
    case CreateRequest(p) =>
      if i == 0 then IsParticipant(t, p.conversationId, p.senderId)
      else p.recipientId.Some? ==> IsParticipant(t, p.conversationId, p.recipientId.value)
    case DeleteRequest(c, _, u) => IsParticipant(t, c, u)
    case RevokeRequest(c, m, u, target, _) =>
      if i == 0 then IsParticipant(t, c, u)
      else if i == 1 then IsParticipant(t, c, target)
      else IsMessageSender(t, c, m, u)
    case ListRequest(c, u) => IsParticipant(t, c, u)
  }

  /** The transaction a handler runs after its checks; a listing changes nothing. */
  function Action<P>(r: Request<P>): Option<Txn<P>> {
    match r
    case CreateRequest(p) => Some(Create(p))
    case DeleteRequest(c, m, u) => Some(Delete(c, m, u))
    case RevokeRequest(c, m, u, target, at) => Some(Revoke(c, m, u, target, at))
    case ListRequest(_, _) => None
  }

  /** What a listing would return if its handler took its next step now. */
  function Listing<P>(s: Server<P>, id: nat): Option<map<nat, Message<P>>> {
    if id in s.handlers && s.handlers[id].request.ListRequest? && s.handlers[id].passed == 1
    then Some(Visible(s.tables, s.handlers[id].request.conversationId, s.handlers[id].request.userId))
    else None
  }

  datatype Event<P> =
    | Arrive(id: nat, request: Request<P>)
    | Advance(id: nat)
    | SignUp(publicKey: KeyText)
    | NewConversation(participants: set<nat>)
    | Record(messageId: nat, digest: string)
    | Reboot

  /** The transaction an event runs, if it runs one. */
  function Effect<P>(s: Server<P>, e: Event<P>): Option<Txn<P>> {
    match e
    case Arrive(_, _) => None
    case Advance(id) =>
      if id in s.handlers && s.handlers[id].passed >= CheckCount(s.handlers[id].request)
      then Action(s.handlers[id].request) else None
    case SignUp(key) => Some(AddUser(key))
    case NewConversation(ps) => Some(AddConversation(ps))
    case Record(m, d) => Some(SetDigest(m, d))
    case Reboot => Some(Restart)
  }

  function NextHandlers<P>(s: Server<P>, e: Event<P>): map<nat, Handler<P>> {
    match e
    case Arrive(id, r) => if id in s.handlers then s.handlers else s.handlers[id := Handler(r, 0)]
    case Advance(id) =>
      if id !in s.handlers then s.handlers
      else
        var h := s.handlers[id];
        if h.passed < CheckCount(h.request) && Check(s.tables, h.request, h.passed)
        then s.handlers[id := h.(passed := h.passed + 1)] else s.handlers - {id}
    case Reboot => map[]
    case _ => s.handlers
  }

  function Step<P>(s: Server<P>, e: Event<P>): Server<P> {
    var effect := Effect(s, e);
    Server(if effect.Some? then Commit(s.tables, effect.value) else s.tables, NextHandlers(s, e))
  }

  function Run<P>(s: Server<P>, events: seq<Event<P>>): Server<P> {
    if events == [] then s else Step(Run(s, events[..|events| - 1]), events[|events| - 1])
  }

  // ---------------------------------------------------------------------------
  // What every step keeps
  // ---------------------------------------------------------------------------

  /** The checks that cannot go stale, because no one ever leaves a conversation. */
  predicate LastingChecks<P>(t: Tables<P>, h: Handler<P>) {
    match h.request
    case CreateRequest(p) =>
      && (h.passed > 0 ==> IsParticipant(t, p.conversationId, p.senderId))
      && (h.passed > 1 && p.recipientId.Some? ==> IsParticipant(t, p.conversationId, p.recipientId.value))
    case DeleteRequest(c, _, u) => h.passed > 0 ==> IsParticipant(t, c, u)
    case RevokeRequest(c, _, u, target, _) =>
      (h.passed > 0 ==> IsParticipant(t, c, u)) && (h.passed > 1 ==> IsParticipant(t, c, target))
    case ListRequest(c, u) => h.passed > 0 ==> IsParticipant(t, c, u)
  }

  /** Every access row names an existing message and a participant of its conversation. */
  ghost predicate RowsBelongToParticipants<P>(t: Tables<P>) {
    forall k :: k in t.access ==> k.0 in t.messages && IsParticipant(t, t.messages[k.0].conversationId, k.1)
  }

  /** Every sender takes part in the conversation and can read the message. */
  ghost predicate SendersCanRead<P>(t: Tables<P>) {
    forall m :: m in t.messages ==>
      && IsParticipant(t, t.messages[m].conversationId, t.messages[m].senderId)
      && (m, t.messages[m].senderId) in t.access
      && t.access[(m, t.messages[m].senderId)].revokedAt.None?
  }

  ghost predicate GoodTables<P>(t: Tables<P>) {
    FreshIds(t) && RowsBelongToParticipants(t) && SendersCanRead(t)
  }

  ghost predicate Good<P>(s: Server<P>) {
    && GoodTables(s.tables)
    && (forall id :: id in s.handlers ==> LastingChecks(s.tables, s.handlers[id]))
  }

  /** Participants stay, so lasting checks last, over any transaction. */
  lemma ChecksLast<P>(t: Tables<P>, txn: Txn<P>, h: Handler<P>)
    requires FreshIds(t) && LastingChecks(t, h)
    ensures LastingChecks(Commit(t, txn), h)
  {
  }

  lemma CreatedRowsBelong<P>(t: Tables<P>, p: Post<P>)
    requires GoodTables(t) && LastingChecks(t, Handler(CreateRequest(p), 2)) && Insert(t, p).Ok?
    ensures RowsBelongToParticipants(Commit(t, Create(p)))
  {
    var r, id := Commit(t, Create(p)), t.nextMessageId;
    var readers := Readers(t, p.conversationId, p.senderId, p.recipientId);
    assert forall u :: u in readers ==> IsParticipant(t, p.conversationId, u);
    forall k | k in r.access ensures k.0 in r.messages && IsParticipant(r, r.messages[k.0].conversationId, k.1) {
      assert k in t.access || (k.0 == id && k.1 in readers);
    }
  }

  lemma CreatedSenderReads<P>(t: Tables<P>, p: Post<P>)
    requires GoodTables(t) && LastingChecks(t, Handler(CreateRequest(p), 2)) && Insert(t, p).Ok?
    ensures SendersCanRead(Commit(t, Create(p)))
  {
    assert (t.nextMessageId, p.senderId) !in t.access;
    assert p.senderId in Readers(t, p.conversationId, p.senderId, p.recipientId);
  }

  lemma CheckedCreate<P>(t: Tables<P>, p: Post<P>)
    requires GoodTables(t) && LastingChecks(t, Handler(CreateRequest(p), 2)) && Insert(t, p).Ok?
    ensures GoodTables(Commit(t, Create(p)))
  {
    CommitKeepsFreshIds(t, Create(p));
    CreatedRowsBelong(t, p);
    CreatedSenderReads(t, p);
  }

  lemma BackfillKeepsGood<P>(t: Tables<P>)
    requires GoodTables(t)
    ensures GoodTables(Backfill(t))
  {
    var r := Backfill(t);
    forall k | k in r.access ensures k.0 in r.messages && IsParticipant(r, r.messages[k.0].conversationId, k.1) {
      assert k in t.access || IsParticipant(t, t.messages[k.0].conversationId, k.1);
    }
  }

  lemma ConversationKeepsGood<P>(t: Tables<P>, participants: set<nat>)
    requires GoodTables(t)
    ensures GoodTables(Commit(t, AddConversation(participants)))
  {
    var r := Commit(t, AddConversation(participants));
    assert forall c, u :: IsParticipant(t, c, u) ==> IsParticipant(r, c, u);
  }

  lemma DeletionKeepsGood<P>(t: Tables<P>, conversationId: nat, messageId: nat, senderId: nat)
    requires GoodTables(t)
    ensures GoodTables(Commit(t, Delete(conversationId, messageId, senderId)))
  {
  }

  /** Every transaction but a creation and a restart. */
  lemma PlainCommit<P>(t: Tables<P>, txn: Txn<P>)
    requires GoodTables(t) && !txn.Create? && !txn.Restart?
    ensures GoodTables(Commit(t, txn))
  {
    match txn
    case AddConversation(ps) => ConversationKeepsGood(t, ps);
    case Delete(c, m, u) => DeletionKeepsGood(t, c, m, u);
    case AddUser(_) =>
    case Revoke(_, _, _, _, _) =>
    case SetDigest(_, _) =>
  }

  /** A checked transaction keeps the tables good; an unchecked creation need not. */
  lemma CheckedCommit<P>(t: Tables<P>, txn: Txn<P>)
    requires GoodTables(t)
    requires txn.Create? ==> LastingChecks(t, Handler(CreateRequest(txn.post), 2))
    ensures GoodTables(Commit(t, txn))
  {
    if txn.Create? {
      if Insert(t, txn.post).Ok? {
        CheckedCreate(t, txn.post);
      }
    } else if txn.Restart? {
      BackfillKeepsGood(t);
    } else {
      PlainCommit(t, txn);
    }
  }

  lemma StepKeepsGood<P>(s: Server<P>, e: Event<P>)
    requires Good(s)
    ensures Good(Step(s, e))
  {
    var effect := Effect(s, e);
    if effect.Some? {
      CheckedCommit(s.tables, effect.value);
    }
    var r, next := Step(s, e), NextHandlers(s, e);
    forall id | id in next ensures LastingChecks(r.tables, next[id]) {
      assert LastingChecks(s.tables, next[id]);
      if effect.Some? {
        ChecksLast(s.tables, effect.value, next[id]);
      }
    }
  }

  /**
   Over all interleavings of handler steps, sign-ups, new conversations, digest
   updates and restarts: rows belong to participants, and every sender keeps an
   unrevoked row for as long as the message exists.
   */
  lemma {:induction false} EveryStateIsGood<P>(s: Server<P>, events: seq<Event<P>>)
    requires Good(s)
    ensures Good(Run(s, events))
  {
    if events != [] {
      EveryStateIsGood(s, events[..|events| - 1]);
      StepKeepsGood(Run(s, events[..|events| - 1]), events[|events| - 1]);
    }
  }

  function EmptyServer<P>(): Server<P> {
    Server(Tables(map[], 1, map[], 1, map[], 1, map[]), map[])
  }

  lemma EmptyServerIsGood<P>()
    ensures Good(EmptyServer<P>())
  {
  }

  /** So it holds of every run of a new server. */
  lemma {:induction false} NewServerStaysGood<P>(events: seq<Event<P>>)
    ensures GoodTables(Run(EmptyServer<P>(), events).tables)
  {
    EmptyServerIsGood<P>();
    EveryStateIsGood(EmptyServer<P>(), events);
  }

  lemma {:induction false} HiddenThroughHandlers<P>(s: Server<P>, events: seq<Event<P>>, messageId: nat, userId: nat)
    requires Hidden(s.tables, messageId, userId)
    ensures Hidden(Run(s, events).tables, messageId, userId)
  {
    if events != [] {
      var before, last := Run(s, events[..|events| - 1]), events[|events| - 1];
      HiddenThroughHandlers(s, events[..|events| - 1], messageId, userId);
      if Effect(before, last).Some? {
        HiddenStep(before.tables, Effect(before, last).value, messageId, userId);
      }
    }
  }

  /** Once a row is revoked, no listing for that user ever returns the message again, however handlers interleave. */
  lemma RevokedIsNeverListed<P>(s: Server<P>, events: seq<Event<P>>, messageId: nat, userId: nat, id: nat)
    requires Good(s) && messageId in s.tables.messages
    requires (messageId, userId) in s.tables.access && s.tables.access[(messageId, userId)].revokedAt.Some?
    ensures var after := Run(s, events);
            Listing(after, id).Some? && after.handlers[id].request.userId == userId ==>
              messageId !in Listing(after, id).value
  {
    HiddenThroughHandlers(s, events, messageId, userId);
  }

  /**
   A listing goes to a participant, holds exactly the conversation's messages
   with an unrevoked row for it, and so all of the user's own messages there.
   */
  lemma {:induction false} ListingIsExact<P>(s: Server<P>, events: seq<Event<P>>, id: nat, messageId: nat)
    requires Good(s)
    requires Listing(Run(s, events), id).Some?
    ensures var after := Run(s, events);
            var r := after.handlers[id].request;
            && IsParticipant(after.tables, r.conversationId, r.userId)
            && (messageId in Listing(after, id).value <==>
                  IsVisible(after.tables, r.conversationId, r.userId, messageId))
            && (IsMessageSender(after.tables, r.conversationId, messageId, r.userId) ==>
                  messageId in Listing(after, id).value)
  {
    EveryStateIsGood(s, events);
  }

  /** A revocation that reaches its last step hides the message from its target in every listing from then on. */
  lemma {:induction false} RevokeRequestHidesForGood<P>(s: Server<P>, handler: nat, c: nat, m: nat, sender: nat, u: nat,
                                                        at: nat, events: seq<Event<P>>, id: nat)
    requires Good(s) && handler in s.handlers && s.handlers[handler] == Handler(RevokeRequest(c, m, sender, u, at), 3)
    requires Revocable(s.tables, c, m, sender, u)
    ensures var after := Run(Step(s, Advance(handler)), events);
            Listing(after, id).Some? && after.handlers[id].request.userId == u ==> m !in Listing(after, id).value
  {
    StepKeepsGood(s, Advance(handler));
    RevokedIsNeverListed(Step(s, Advance(handler)), events, m, u, id);
  }

  /** And a deletion hides it from everyone. */
  lemma {:induction false} DeleteRequestHidesForGood<P>(s: Server<P>, handler: nat, c: nat, m: nat, sender: nat,
                                                        events: seq<Event<P>>, id: nat)
    requires Good(s) && handler in s.handlers && s.handlers[handler] == Handler(DeleteRequest(c, m, sender), 1)
    requires IsMessageSender(s.tables, c, m, sender)
    ensures var after := Run(Step(s, Advance(handler)), events);
            Listing(after, id).Some? ==> m !in Listing(after, id).value
  {
    var after := Run(Step(s, Advance(handler)), events);
    if Listing(after, id).Some? {
      HiddenThroughHandlers(Step(s, Advance(handler)), events, m, after.handlers[id].request.userId);
    }
  }

  /** No step of any handler takes a message from a reader, but the last step of its sender's own request to do so. */
  lemma LostOnlyByRequest<P>(s: Server<P>, e: Event<P>, conversationId: nat, userId: nat, messageId: nat)
    requires Good(s) && IsVisible(s.tables, conversationId, userId, messageId)
    requires !IsVisible(Step(s, e).tables, conversationId, userId, messageId)
    ensures e.Advance? && e.id in s.handlers
    ensures var sender, r := s.tables.messages[messageId].senderId, s.handlers[e.id].request;
            || r == DeleteRequest(conversationId, messageId, sender)
            || (r.RevokeRequest? && r == RevokeRequest(conversationId, messageId, sender, userId, r.at))
  {
    LostOnlyToTheSender(s.tables, Effect(s, e).value, conversationId, userId, messageId);
  }

  // ---------------------------------------------------------------------------
  // Restart
  // ---------------------------------------------------------------------------

  /**
   After a restart a message is readable by exactly the participants whose row
   was not revoked, whoever it was addressed to.
   */
  lemma ReadableAfterRestartIff<P>(s: Server<P>, conversationId: nat, userId: nat, messageId: nat)
    requires Good(s)
    ensures IsVisible(Step(s, Reboot).tables, conversationId, userId, messageId) <==>
      && messageId in s.tables.messages && s.tables.messages[messageId].conversationId == conversationId
      && IsParticipant(s.tables, conversationId, userId)
      && !((messageId, userId) in s.tables.access && s.tables.access[(messageId, userId)].revokedAt.Some?)
  {
  }

  /** So a restart changes who may read a message exactly for participants that had no row at all. */
  lemma RestartWidensIff<P>(s: Server<P>, userId: nat, messageId: nat)
    requires Good(s) && messageId in s.tables.messages
    ensures var c := s.tables.messages[messageId].conversationId;
            IsVisible(Step(s, Reboot).tables, c, userId, messageId) != IsVisible(s.tables, c, userId, messageId)
            <==> IsParticipant(s.tables, c, userId) && (messageId, userId) !in s.tables.access
  {
  }

  /** It does happen: a message from 1 to 2 in a conversation of three is unreadable for 3 until a restart. */
  lemma {:induction false} RestartWidensGroupMessage(key: KeyText)
    ensures var t := Tables(map[1 := key, 2 := key, 3 := key], 4, map[1 := {1, 2, 3}], 2, map[], 1, map[]);
            var post := Post(1, 1, "hello", 0, Some(2), None);
            && LastingChecks(t, Handler(CreateRequest(post), 2)) && Insert(t, post).Ok?
            && var sent := Commit(t, Create(post));
               && IsVisible(sent, 1, 2, 1) && !IsVisible(sent, 1, 3, 1)
               && IsVisible(Commit(sent, Restart), 1, 3, 1)
  {
  }
}
