/**
 The server's tables and the transactions on them. Every transaction runs under
 one mutex, so it is a function from tables to tables; one that throws aborts
 and leaves the tables as they were. Message payloads are of any type.
 */
module Database {
  import opened Wrappers
  import opened Bundles

  datatype Message<P> = Message(conversationId: nat, senderId: nat, payload: P, timestamp: nat, digest: string)

  datatype Access = Access(grantedBy: nat, revokedAt: Option<nat>)

  type Rows = map<(nat, nat), Access>

  /** `access` is keyed by message and user; the `next` fields are the id sequences. */
  datatype Tables<P> = Tables(
    users: map<nat, KeyText>, nextUserId: nat,
    conversations: map<nat, set<nat>>, nextConversationId: nat,
    messages: map<nat, Message<P>>, nextMessageId: nat,
    access: Rows)

  datatype DbError = PreKeyNotFound | ForeignKeyViolation

  const PENDING := "pending:"

  // ---------------------------------------------------------------------------
  // Transactions on values
  // ---------------------------------------------------------------------------

  predicate IsParticipant<P>(t: Tables<P>, conversationId: nat, userId: nat) {
    conversationId in t.conversations && userId in t.conversations[conversationId]
  }

  predicate IsMessageSender<P>(t: Tables<P>, conversationId: nat, messageId: nat, senderId: nat) {
    && messageId in t.messages
    && t.messages[messageId].conversationId == conversationId && t.messages[messageId].senderId == senderId
  }

  function CreateUser<P>(t: Tables<P>, publicKey: KeyText): Tables<P> {
    t.(users := t.users[t.nextUserId := publicKey], nextUserId := t.nextUserId + 1)
  }

  function CreateConversation<P>(t: Tables<P>, participants: set<nat>): Result<Tables<P>, DbError> {
    if participants <= t.users.Keys
    then Ok(t.(conversations := t.conversations[t.nextConversationId := participants],
               nextConversationId := t.nextConversationId + 1))
    else Err(ForeignKeyViolation)
  }

  /** Unrevoked rows for these users, where there is no row yet. */
  function Grant(rows: Rows, messageId: nat, users: set<nat>, grantedBy: nat): (r: Rows)
    ensures forall k :: k in r <==> k in rows || (k.0 == messageId && k.1 in users)
    ensures forall k :: k in r ==> r[k] == if k in rows then rows[k] else Access(grantedBy, None)
  {
    (map u | u in users :: (messageId, u) := Access(grantedBy, None)) + rows
  }

  /** Whether this message takes a one-time prekey of its recipient. */
  predicate TakesPreKey(senderId: nat, recipientId: Option<nat>, preKeyId: Option<nat>) {
    recipientId.Some? && preKeyId.Some? && recipientId.value != senderId
  }

  /** The users table after the prekey, if the message takes one, is consumed. */
  function TakePreKey(users: map<nat, KeyText>, senderId: nat, recipientId: Option<nat>,
                      preKeyId: Option<nat>): Option<map<nat, KeyText>> {
    if !TakesPreKey(senderId, recipientId, preKeyId) then Some(users)
    else if recipientId.value !in users then None
    else
      var left := Consume(users[recipientId.value], preKeyId.value);
      if left.None? then None else Some(users[recipientId.value := left.value])
  }

  /** Who may read a new message: sender and recipient, or everyone in the conversation. */
  function Readers<P>(t: Tables<P>, conversationId: nat, senderId: nat, recipientId: Option<nat>): set<nat> {
    if recipientId.Some? then {senderId, recipientId.value}
    else if conversationId in t.conversations then t.conversations[conversationId] else {}
  }

  function CreateMessage<P>(t: Tables<P>, conversationId: nat, senderId: nat, payload: P, timestamp: nat,
                            recipientId: Option<nat>, preKeyId: Option<nat>): Result<(Tables<P>, nat), DbError>
  {
    var users := TakePreKey(t.users, senderId, recipientId, preKeyId);
    if users.None? then Err(PreKeyNotFound)
    else if conversationId !in t.conversations
         || !(Readers(t, conversationId, senderId, recipientId) + {senderId} <= t.users.Keys)
    then Err(ForeignKeyViolation)
    else
      var id := t.nextMessageId;
      Ok((t.(users := users.value,
             messages := t.messages[id := Message(conversationId, senderId, payload, timestamp, "")],
             nextMessageId := id + 1,
             access := Grant(t.access, id, Readers(t, conversationId, senderId, recipientId), senderId)), id))
  }

  predicate IsVisible<P>(t: Tables<P>, conversationId: nat, userId: nat, messageId: nat) {
    && messageId in t.messages && t.messages[messageId].conversationId == conversationId
    && (messageId, userId) in t.access && t.access[(messageId, userId)].revokedAt.None?
  }

  /** The rows a listing returns; their order by timestamp is not modelled. */
  function Visible<P>(t: Tables<P>, conversationId: nat, userId: nat): map<nat, Message<P>> {
    map m | m in t.messages && IsVisible(t, conversationId, userId, m) :: t.messages[m]
  }

  /** Deletes the sender's own message; its access rows go with it. */
  function DeleteMessage<P>(t: Tables<P>, conversationId: nat, messageId: nat, senderId: nat): Tables<P> {
    if IsMessageSender(t, conversationId, messageId, senderId)
    then t.(messages := t.messages - {messageId}, access := map k | k in t.access && k.0 != messageId :: t.access[k])
    else t
  }

  predicate CanRevoke<P>(t: Tables<P>, conversationId: nat, messageId: nat, senderId: nat, targetId: nat) {
    && IsMessageSender(t, conversationId, messageId, senderId)
    && targetId != senderId
    && (messageId, targetId) in t.access && t.access[(messageId, targetId)].revokedAt.None?
  }

  function RevokeAccess<P>(t: Tables<P>, conversationId: nat, messageId: nat, senderId: nat, targetId: nat,
                           at: nat): Tables<P> {
    if CanRevoke(t, conversationId, messageId, senderId, targetId)
    then t.(access := t.access[(messageId, targetId) := t.access[(messageId, targetId)].(revokedAt := Some(at))])
    else t
  }

  function UpdateDigest<P>(t: Tables<P>, messageId: nat, digest: string): Tables<P> {
    if messageId in t.messages
    then t.(messages := t.messages[messageId := t.messages[messageId].(digest := digest)])
    else t
  }

  predicate IsPendingDigest(digest: string) {
    |digest| >= |PENDING| && digest[..|PENDING|] == PENDING
  }

  /** Messages whose digest carries the pending prefix, with what follows the prefix. */
  function PendingMessages<P>(t: Tables<P>): map<nat, string> {
    map m | m in t.messages && IsPendingDigest(t.messages[m].digest) :: t.messages[m].digest[|PENDING|..]
  }

  /** Start-up: a row for every message and every participant of its conversation, where there is none. */
  function Backfill<P>(t: Tables<P>): (r: Tables<P>)
    ensures r == t.(access := r.access)
    ensures forall k :: k in r.access <==>
      k in t.access || (k.0 in t.messages && IsParticipant(t, t.messages[k.0].conversationId, k.1))
    ensures forall k :: k in r.access ==>
      r.access[k] == if k in t.access then t.access[k] else Access(t.messages[k.0].senderId, None)
  {
    var missing := map m, u | m in t.messages && t.messages[m].conversationId in t.conversations
                              && u in t.conversations[t.messages[m].conversationId]
                            :: (m, u) := Access(t.messages[m].senderId, None);
    t.(access := missing + t.access)
  }

  // ---------------------------------------------------------------------------
  // The connection: the same transactions on fields
  // ---------------------------------------------------------------------------

  class Connection<P> {
    var users: map<nat, KeyText>
    var nextUserId: nat
    var conversations: map<nat, set<nat>>
    var nextConversationId: nat
    var messages: map<nat, Message<P>>
    var nextMessageId: nat
    var access: Rows

    ghost function State(): Tables<P>
      reads this
    {
      Tables(users, nextUserId, conversations, nextConversationId, messages, nextMessageId, access)
    }

    /** Opens existing tables and runs the start-up backfill. */
    constructor (t: Tables<P>)
      ensures State() == Backfill(t)
    {
      users, nextUserId := t.users, t.nextUserId;
      conversations, nextConversationId := t.conversations, t.nextConversationId;
      messages, nextMessageId := t.messages, t.nextMessageId;
      access := Backfill(t).access;
    }

    /** Erases the prekey from the user's bundle; false when it is not there. */
    method ConsumeOneTimePreKey(userId: nat, preKeyId: nat) returns (consumed: bool)
      modifies this`users
      ensures consumed <==> userId in old(users) && Consume(old(users)[userId], preKeyId).Some?
      ensures users == if consumed then old(users)[userId := Consume(old(users)[userId], preKeyId).value]
                       else old(users)
    {
      if userId !in users || !users[userId].BundleText? || !users[userId].bundle.oneTimePreKeys.Keys? {
        return false;
      }
      var bundle := users[userId].bundle;
      var keys, left := bundle.oneTimePreKeys.keys, [];
      for i := 0 to |keys|
        invariant users == old(users)
        invariant left == Without(keys[..i], preKeyId)
      {
        assert keys[..i + 1] == keys[..i] + [keys[i]];
        WithoutAppend(keys[..i], keys[i], preKeyId);
        if !(keys[i].PreKey? && keys[i].id == preKeyId) {
          left := left + [keys[i]];
        }
      }
      assert keys[..|keys|] == keys;
      if |left| == |keys| {
        return false;
      }
      users := users[userId := BundleText(bundle.(oneTimePreKeys := Keys(left)))];
      consumed := true;
    }

    method Create(conversationId: nat, senderId: nat, payload: P, timestamp: nat,
                  recipientId: Option<nat>, preKeyId: Option<nat>) returns (result: Result<nat, DbError>)
      modifies this
      ensures var spec := CreateMessage(old(State()), conversationId, senderId, payload, timestamp,
                                        recipientId, preKeyId);
              && (spec.Err? ==> result == Err(spec.error) && State() == old(State()))
              && (spec.Ok? ==> result == Ok(spec.value.1) && State() == spec.value.0)
    {
      var before := users;
      if recipientId.Some? && preKeyId.Some? && recipientId.value != senderId {
        var consumed := ConsumeOneTimePreKey(recipientId.value, preKeyId.value);
        if !consumed {
          return Err(PreKeyNotFound);
        }
      }
      var readers := if recipientId.Some? then {senderId, recipientId.value}
                     else if conversationId in conversations then conversations[conversationId] else {};
      if conversationId !in conversations || !(readers + {senderId} <= before.Keys) {
        users := before;
        return Err(ForeignKeyViolation);
      }
      var id := nextMessageId;
      messages := messages[id := Message(conversationId, senderId, payload, timestamp, "")];
      nextMessageId := id + 1;
      access := Grant(access, id, readers, senderId);
      result := Ok(id);
    }

    method Delete(conversationId: nat, messageId: nat, senderId: nat) returns (deleted: bool)
      modifies this
      ensures State() == DeleteMessage(old(State()), conversationId, messageId, senderId)
      ensures deleted <==> IsMessageSender(old(State()), conversationId, messageId, senderId)
    {
      deleted := messageId in messages && messages[messageId].conversationId == conversationId
                 && messages[messageId].senderId == senderId;
      if deleted {
        messages := messages - {messageId};
        access := map k | k in access && k.0 != messageId :: access[k];
      }
    }

    method Revoke(conversationId: nat, messageId: nat, senderId: nat, targetId: nat, at: nat) returns (revoked: bool)
      modifies this
      ensures State() == RevokeAccess(old(State()), conversationId, messageId, senderId, targetId, at)
      ensures revoked <==> CanRevoke(old(State()), conversationId, messageId, senderId, targetId)
    {
      var row := (messageId, targetId);
      revoked := messageId in messages && messages[messageId].conversationId == conversationId
                 && messages[messageId].senderId == senderId && targetId != senderId
                 && row in access && access[row].revokedAt.None?;
      if revoked {
        access := access[row := access[row].(revokedAt := Some(at))];
      }
    }

    method SetDigest(messageId: nat, digest: string)
      modifies this
      ensures State() == UpdateDigest(old(State()), messageId, digest)
    {
      if messageId in messages {
        messages := messages[messageId := messages[messageId].(digest := digest)];
      }
    }
  }

  lemma {:induction false} WithoutAppend(keys: seq<BundleKey>, key: BundleKey, id: nat)
    ensures Without(keys + [key], id) == Without(keys, id) + if key.PreKey? && key.id == id then [] else [key]
  {
    if keys == [] {
      assert [key][1..] == [];
    } else {
      assert (keys + [key])[1..] == keys[1..] + [key];
      WithoutAppend(keys[1..], key, id);
    }
  }
}
