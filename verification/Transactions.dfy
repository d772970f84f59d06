/**
 Runs of committed and aborted server transactions in any order: what becomes
 of one-time prekeys and of revoked rows, whoever asked for the transactions.
 */
module Transactions {
  import opened Wrappers
  import opened Bundles
  import opened Database

  datatype Post<P> = Post(conversationId: nat, senderId: nat, payload: P, timestamp: nat,
                          recipientId: Option<nat>, preKeyId: Option<nat>)

  datatype Txn<P> =
    | AddUser(publicKey: KeyText)
    | AddConversation(participants: set<nat>)
    | Create(post: Post<P>)
    | Delete(conversationId: nat, messageId: nat, senderId: nat)
    | Revoke(conversationId: nat, messageId: nat, senderId: nat, targetId: nat, at: nat)
    | SetDigest(messageId: nat, digest: string)
    | Restart

  function Insert<P>(t: Tables<P>, p: Post<P>): Result<(Tables<P>, nat), DbError> {
    CreateMessage(t, p.conversationId, p.senderId, p.payload, p.timestamp, p.recipientId, p.preKeyId)
  }

  /** The tables after one transaction; an aborted one leaves them alone. */
  function Commit<P>(t: Tables<P>, txn: Txn<P>): Tables<P> {
    match txn
    case AddUser(key) => CreateUser(t, key)
    case AddConversation(ps) => (var r := CreateConversation(t, ps); if r.Ok? then r.value else t)
    case Create(post) => (var r := Insert(t, post); if r.Ok? then r.value.0 else t)
    case Delete(c, m, s) => DeleteMessage(t, c, m, s)
    case Revoke(c, m, s, u, at) => RevokeAccess(t, c, m, s, u, at)
    case SetDigest(m, d) => UpdateDigest(t, m, d)
    case Restart => Backfill(t)
  }

  function Run<P>(t: Tables<P>, txns: seq<Txn<P>>): Tables<P> {
    if txns == [] then t else Commit(Run(t, txns[..|txns| - 1]), txns[|txns| - 1])
  }

  /** The posts that were committed, in order; deleted messages included. */
  function Posted<P>(t: Tables<P>, txns: seq<Txn<P>>): seq<Post<P>> {
    if txns == [] then []
    else
      var before, last := txns[..|txns| - 1], txns[|txns| - 1];
      Posted(t, before) + if last.Create? && Insert(Run(t, before), last.post).Ok? then [last.post] else []
  }

  /** Identifiers below the sequences, so the next one is new. */
  predicate FreshIds<P>(t: Tables<P>) {
    && (forall u :: u in t.users ==> u < t.nextUserId)
    && (forall m :: m in t.messages ==> m < t.nextMessageId)
    && (forall c :: c in t.conversations ==> c < t.nextConversationId)
  }

  lemma CommitKeepsFreshIds<P>(t: Tables<P>, txn: Txn<P>)
    requires FreshIds(t)
    ensures FreshIds(Commit(t, txn))
    ensures t.users.Keys <= Commit(t, txn).users.Keys
    ensures t.nextUserId <= Commit(t, txn).nextUserId && t.nextMessageId <= Commit(t, txn).nextMessageId
  {
  }

  lemma {:induction false} RunKeepsFreshIds<P>(t: Tables<P>, txns: seq<Txn<P>>)
    requires FreshIds(t)
    ensures FreshIds(Run(t, txns)) && t.users.Keys <= Run(t, txns).users.Keys
  {
    if txns != [] {
      RunKeepsFreshIds(t, txns[..|txns| - 1]);
      CommitKeepsFreshIds(Run(t, txns[..|txns| - 1]), txns[|txns| - 1]);
    }
  }

  // ---------------------------------------------------------------------------
  // One-time prekeys
  // ---------------------------------------------------------------------------

  predicate Takes<P>(p: Post<P>, userId: nat, preKeyId: nat) {
    TakesPreKey(p.senderId, p.recipientId, p.preKeyId) && p.recipientId.value == userId && p.preKeyId.value == preKeyId
  }

  predicate OfferedIn<P>(t: Tables<P>, userId: nat, preKeyId: nat) {
    userId in t.users && Offers(t.users[userId], preKeyId)
  }

  /** One transaction: taking needs an offer and withdraws it, and nothing renews an offer to an existing user. */
  lemma OffersStep<P>(t: Tables<P>, txn: Txn<P>, userId: nat, preKeyId: nat)
    requires FreshIds(t) && userId in t.users
    ensures OfferedIn(Commit(t, txn), userId, preKeyId) ==> OfferedIn(t, userId, preKeyId)
    ensures txn.Create? && Insert(t, txn.post).Ok? && Takes(txn.post, userId, preKeyId) ==>
      OfferedIn(t, userId, preKeyId) && !OfferedIn(Commit(t, txn), userId, preKeyId)
  {
    if txn.Create? && TakesPreKey(txn.post.senderId, txn.post.recipientId, txn.post.preKeyId)
       && txn.post.recipientId.value in t.users {
      ConsumeIffOffered(t.users[txn.post.recipientId.value], txn.post.preKeyId.value);
    }
  }

  lemma {:induction false} TakenIsWithdrawn<P>(t: Tables<P>, txns: seq<Txn<P>>, userId: nat, preKeyId: nat, i: nat)
    requires FreshIds(t)
    requires i < |Posted(t, txns)| && Takes(Posted(t, txns)[i], userId, preKeyId)
    ensures userId in Run(t, txns).users && !OfferedIn(Run(t, txns), userId, preKeyId)
  {
    var before, last := txns[..|txns| - 1], txns[|txns| - 1];
    RunKeepsFreshIds(t, before);
    var s := Run(t, before);
    if i < |Posted(t, before)| {
      TakenIsWithdrawn(t, before, userId, preKeyId, i);
    } else {
      assert last.Create? && Posted(t, txns)[i] == last.post;
      CommitsIff(s, last.post);
    }
    OffersStep(s, last, userId, preKeyId);
    CommitKeepsFreshIds(s, last);
  }

  /** No two committed messages to another user ever name the same one-time prekey of that user. */
  lemma {:induction false} PreKeyUsedOnce<P>(t: Tables<P>, txns: seq<Txn<P>>, userId: nat, preKeyId: nat, i: nat,
                                             j: nat)
    requires FreshIds(t)
    requires i < j < |Posted(t, txns)|
    ensures !(Takes(Posted(t, txns)[i], userId, preKeyId) && Takes(Posted(t, txns)[j], userId, preKeyId))
  {
    var before, last := txns[..|txns| - 1], txns[|txns| - 1];
    if j < |Posted(t, before)| {
      PreKeyUsedOnce(t, before, userId, preKeyId, i, j);
    } else {
      RunKeepsFreshIds(t, before);
      if Takes(Posted(t, before)[i], userId, preKeyId) {
        TakenIsWithdrawn(t, before, userId, preKeyId, i);
        OffersStep(Run(t, before), last, userId, preKeyId);
      }
    }
  }

  function TakenFrom<P>(posts: seq<Post<P>>, userId: nat): nat {
    if posts == [] then 0
    else
      var last := posts[|posts| - 1];
      TakenFrom(posts[..|posts| - 1], userId)
      + if TakesPreKey(last.senderId, last.recipientId, last.preKeyId) && last.recipientId.value == userId then 1 else 0
  }

  /**
   With distinct identifiers, the prekeys a user published are those remaining
   plus those taken by committed messages.
   */
  lemma {:induction false} PreKeysConserved<P>(t: Tables<P>, txns: seq<Txn<P>>, userId: nat)
    requires FreshIds(t) && userId in t.users && Distinct(PreKeys(t.users[userId]))
    ensures userId in Run(t, txns).users
    ensures var left := PreKeys(Run(t, txns).users[userId]);
            Distinct(left) && |PreKeys(t.users[userId])| == |left| + TakenFrom(Posted(t, txns), userId)
  {
    if txns != [] {
      var before, last := txns[..|txns| - 1], txns[|txns| - 1];
      PreKeysConserved(t, before, userId);
      RunKeepsFreshIds(t, before);
      var s := Run(t, before);
      if last.Create? && Insert(s, last.post).Ok? {
        assert Posted(t, txns)[..|Posted(t, txns)| - 1] == Posted(t, before);
        if TakesPreKey(last.post.senderId, last.post.recipientId, last.post.preKeyId)
            && last.post.recipientId.value == userId {
          ConsumeIffOffered(s.users[userId], last.post.preKeyId.value);
        }
      } else {
        assert Posted(t, txns) == Posted(t, before);
      }
    }
  }

  /** A post commits exactly when its references exist and the prekey it takes, if it takes one, is still offered. */
  lemma CommitsIff<P>(t: Tables<P>, p: Post<P>)
    ensures Insert(t, p).Ok? <==>
      && p.conversationId in t.conversations
      && p.senderId in t.users
      && Readers(t, p.conversationId, p.senderId, p.recipientId) <= t.users.Keys
      && (TakesPreKey(p.senderId, p.recipientId, p.preKeyId) ==> OfferedIn(t, p.recipientId.value, p.preKeyId.value))
    ensures Insert(t, p).Err? ==> Commit(t, Create(p)) == t
  {
    if TakesPreKey(p.senderId, p.recipientId, p.preKeyId) && p.recipientId.value in t.users {
      ConsumeIffOffered(t.users[p.recipientId.value], p.preKeyId.value);
    }
  }

  /** Of two posts that could each be committed, the second can still be exactly if they do not take the same prekey. */
  lemma SecondCommitsIff<P>(t: Tables<P>, p: Post<P>, q: Post<P>)
    requires Insert(t, p).Ok? && Insert(t, q).Ok?
    ensures Insert(Commit(t, Create(p)), q).Ok? <==>
      !(&& TakesPreKey(p.senderId, p.recipientId, p.preKeyId) && TakesPreKey(q.senderId, q.recipientId, q.preKeyId)
        && p.recipientId == q.recipientId && p.preKeyId == q.preKeyId)
  {
    CommitsIff(t, p);
    CommitsIff(t, q);
    CommitsIff(Commit(t, Create(p)), q);
    if TakesPreKey(p.senderId, p.recipientId, p.preKeyId) {
      ConsumeIffOffered(t.users[p.recipientId.value], p.preKeyId.value);
    }
  }

  // ---------------------------------------------------------------------------
  // Revoked rows
  // ---------------------------------------------------------------------------

  /** The message is gone, or the user's row for it is revoked; either way its identifier is spent. */
  predicate Hidden<P>(t: Tables<P>, messageId: nat, userId: nat) {
    && messageId < t.nextMessageId
    && (messageId in t.messages ==>
          (messageId, userId) in t.access && t.access[(messageId, userId)].revokedAt.Some?)
  }

  lemma HiddenStep<P>(t: Tables<P>, txn: Txn<P>, messageId: nat, userId: nat)
    requires Hidden(t, messageId, userId)
    ensures Hidden(Commit(t, txn), messageId, userId)
  {
  }

  lemma {:induction false} HiddenStaysHidden<P>(t: Tables<P>, txns: seq<Txn<P>>, messageId: nat, userId: nat)
    requires Hidden(t, messageId, userId)
    ensures Hidden(Run(t, txns), messageId, userId)
  {
    if txns != [] {
      HiddenStaysHidden(t, txns[..|txns| - 1], messageId, userId);
      HiddenStep(Run(t, txns[..|txns| - 1]), txns[|txns| - 1], messageId, userId);
    }
  }

  /** A message whose row a user lost is never listed for that user again, restarts included. */
  lemma RevocationIsPermanent<P>(t: Tables<P>, txns: seq<Txn<P>>, messageId: nat, userId: nat, conversationId: nat)
    requires FreshIds(t) && messageId in t.messages
    requires (messageId, userId) in t.access && t.access[(messageId, userId)].revokedAt.Some?
    ensures messageId !in Visible(Run(t, txns), conversationId, userId)
  {
    HiddenStaysHidden(t, txns, messageId, userId);
  }

  /** A deleted message is never listed for anyone again: its identifier is not given out twice. */
  lemma DeletionIsPermanent<P>(t: Tables<P>, txns: seq<Txn<P>>, messageId: nat, userId: nat, conversationId: nat)
    requires messageId !in t.messages && messageId < t.nextMessageId
    ensures messageId !in Visible(Run(t, txns), conversationId, userId)
  {
    HiddenStaysHidden(t, txns, messageId, userId);
  }

  // ---------------------------------------------------------------------------
  // What each transaction shows and hides
  // ---------------------------------------------------------------------------

  /** The sender's own message, with another user's row for it unrevoked. */
  predicate Revocable<P>(t: Tables<P>, conversationId: nat, messageId: nat, senderId: nat, targetId: nat) {
    && messageId in t.messages && t.messages[messageId].conversationId == conversationId
    && t.messages[messageId].senderId == senderId && targetId != senderId
    && (messageId, targetId) in t.access && t.access[(messageId, targetId)].revokedAt.None?
  }

  /** Revoking hides the message from the user at once and over all later transactions and restarts. */
  lemma {:induction false} RevokeHidesForGood<P>(t: Tables<P>, c: nat, m: nat, s: nat, u: nat, at: nat,
                                                 txns: seq<Txn<P>>, conversationId: nat)
    requires FreshIds(t) && Revocable(t, c, m, s, u)
    ensures m !in Visible(Run(Commit(t, Revoke(c, m, s, u, at)), txns), conversationId, u)
  {
    var revoked := Commit(t, Revoke(c, m, s, u, at));
    CommitKeepsFreshIds(t, Revoke(c, m, s, u, at));
    RevocationIsPermanent(revoked, txns, m, u, conversationId);
  }

  /** It hides nothing else, and without the right to revoke it changes nothing. */
  lemma RevokeHidesOnly<P>(t: Tables<P>, c: nat, m: nat, s: nat, u: nat, at: nat)
    ensures var r := Commit(t, Revoke(c, m, s, u, at));
            && r.messages == t.messages
            && (forall c': nat, m': nat, u': nat :: (m', u') != (m, u) ==>
                  (IsVisible(r, c', u', m') <==> IsVisible(t, c', u', m')))
            && (!Revocable(t, c, m, s, u) ==> r == t)
  {
  }

  /** Deleting an own message hides it from everyone at once and for good. */
  lemma {:induction false} DeleteHidesForGood<P>(t: Tables<P>, c: nat, m: nat, s: nat, txns: seq<Txn<P>>,
                                                 conversationId: nat, userId: nat)
    requires FreshIds(t) && m in t.messages && t.messages[m].conversationId == c && t.messages[m].senderId == s
    ensures m !in Visible(Run(Commit(t, Delete(c, m, s)), txns), conversationId, userId)
  {
    DeletionIsPermanent(Commit(t, Delete(c, m, s)), txns, m, userId, conversationId);
  }

  /** It hides nothing else and leaves no row behind; for anyone but the sender it changes nothing. */
  lemma DeleteHidesOnly<P>(t: Tables<P>, c: nat, m: nat, s: nat)
    ensures var r := Commit(t, Delete(c, m, s));
            && (forall c': nat, m': nat, u': nat :: m' != m ==>
                  (IsVisible(r, c', u', m') <==> IsVisible(t, c', u', m')))
            && (r != t ==> m in t.messages && t.messages[m].senderId == s && t.messages[m].conversationId == c
                           && forall k :: k in r.access ==> k.0 != m)
  {
  }

  /**
   A committed post stores exactly what was posted, readable by exactly the
   sender and the recipient, or without a recipient by the sender if it takes
   part and by everyone else who does; no other message gets or loses a reader.
   */
  lemma PostedIsReadBy<P>(t: Tables<P>, p: Post<P>)
    requires FreshIds(t) && (forall k :: k in t.access ==> k.0 < t.nextMessageId) && Insert(t, p).Ok?
    ensures var r, id := Commit(t, Create(p)), t.nextMessageId;
            && id !in t.messages
            && r.messages == t.messages[id := Message(p.conversationId, p.senderId, p.payload, p.timestamp, "")]
            && (forall c, u :: IsVisible(r, c, u, id) <==>
                  c == p.conversationId && if p.recipientId.Some? then u == p.senderId || u == p.recipientId.value
                                           else u in t.conversations[p.conversationId])
            && (forall c, m, u :: m != id ==> (IsVisible(r, c, u, m) <==> IsVisible(t, c, u, m)))
  {
    var readers := Readers(t, p.conversationId, p.senderId, p.recipientId);
    assert Commit(t, Create(p)).access == Grant(t.access, t.nextMessageId, readers, p.senderId);
  }

  /** A digest update changes the digest of one message that exists, and nothing else. */
  lemma DigestChangesOnly<P>(t: Tables<P>, messageId: nat, digest: string)
    ensures var r := Commit(t, SetDigest(messageId, digest));
            && r == t.(messages := r.messages) && r.messages.Keys == t.messages.Keys
            && (messageId in t.messages ==> r.messages[messageId].digest == digest)
            && forall m :: m in t.messages ==>
                 r.messages[m] == if m == messageId then t.messages[m].(digest := r.messages[m].digest)
                                  else t.messages[m]
  {
  }

  /** A new conversation has exactly the given participants, all of them users, and leaves the others alone. */
  lemma ConversationHasExactly<P>(t: Tables<P>, participants: set<nat>)
    requires FreshIds(t)
    ensures var r := Commit(t, AddConversation(participants));
            && (participants <= t.users.Keys <==> r != t)
            && (forall c, u :: IsParticipant(r, c, u) <==>
                  IsParticipant(t, c, u) || (r != t && c == t.nextConversationId && u in participants))
  {
    var r := Commit(t, AddConversation(participants));
    assert participants <= t.users.Keys ==> r.nextConversationId != t.nextConversationId;
  }

  /** A user loses sight of a message only by its sender's deletion, or by its sender's revocation for that user. */
  lemma LostOnlyToTheSender<P>(t: Tables<P>, txn: Txn<P>, conversationId: nat, userId: nat, messageId: nat)
    requires FreshIds(t) && IsVisible(t, conversationId, userId, messageId)
    ensures IsVisible(Commit(t, txn), conversationId, userId, messageId) <==>
      && txn != Delete(conversationId, messageId, t.messages[messageId].senderId)
      && !(txn.Revoke? && txn.conversationId == conversationId && txn.messageId == messageId
           && txn.senderId == t.messages[messageId].senderId && txn.targetId == userId && userId != txn.senderId)
  {
    match txn
    case AddUser(_) =>
    case AddConversation(_) =>
    case Create(_) =>
    case Delete(_, _, _) =>
    case Revoke(_, _, _, _, _) =>
    case SetDigest(_, _) =>
    case Restart =>
  }
}
