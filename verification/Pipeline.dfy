/**
 The whole way of a message's fingerprint: message handler, batching service,
 contract, resolver and verification page, in any interleaving.
 */
module Pipeline {
  import opened Wrappers
  import opened Merkle
  import opened Database
  import opened Transactions
  import opened MessageIntegrity
  import opened VerificationPage
  import Sidecar

  /** A message handler after its message was committed. */
  datatype Handler =
    | Recording(msgId: nat, conversationId: nat, payload: string)
    | Storing(msgId: nat, pendingId: string)

  /** The resolver between reading a status and writing a digest. */
  datatype Reply = Reply(msgId: nat, pendingId: string, status: Sidecar.Status)

  /**
   `snapshot` is what the resolver still has to ask about. The last two fields
   are history: the message and payload behind every pending identifier, and
   the payloads whose batch a transaction recorded.
   */
  datatype State = State(
    tables: Tables<string>, handlers: map<nat, Handler>,
    sidecar: Sidecar.State,
    ledger: Ledger, receipts: map<string, seq<Log>>,
    snapshot: map<nat, string>, reply: Option<Reply>,
    origin: map<string, (nat, string)>, texts: map<string, seq<string>>)

  /** The world outside: hash functions, the service's wallet and the contract's address. */
  datatype World = World(h: Keccak, leafOf: string -> Hash, wallet: string, contract: string)

  datatype Event =
    | Send(handler: nat, post: Post<string>)
    | Queue(handler: nat, pendingId: string)
    | GiveUp(handler: nat)
    | Store(handler: nat)
    | Flush(flushId: nat)
    | Mine(flushId: nat, txHash: string, now: nat)
    | Confirm(flushId: nat, batchId: Option<nat>)
    | Fail(flushId: nat, error: string)
    | Snapshot
    | Ask(msgId: nat)
    | Resolve
    | Other(txn: Txn<string>)
    | RestartServer

  predicate IsTxHash(s: string) {
    |s| > 2 && s[0] == '0' && s[1] == 'x' && forall i :: 0 <= i < |s| ==> !IsSpace(s[i])
  }

  function Texts(origin: map<string, (nat, string)>, batch: seq<Sidecar.Entry>): (r: seq<string>)
    requires forall e :: e in batch ==> e.pendingId in origin
    ensures |r| == |batch| && forall i :: 0 <= i < |r| ==> r[i] == origin[batch[i].pendingId].1
  {
    seq(|batch|, i requires 0 <= i < |batch| => origin[batch[i].pendingId].1)
  }

  function SendStep(s: State, handler: nat, post: Post<string>): State {
    if handler in s.handlers || post.payload == "" || Insert(s.tables, post).Err? then s
    else
      var (tables, id) := Insert(s.tables, post).value;
      s.(tables := tables, handlers := s.handlers[handler := Recording(id, post.conversationId, post.payload)])
  }

  function QueueStep(w: World, s: State, handler: nat, pendingId: string): State {
    if handler !in s.handlers || !s.handlers[handler].Recording? || pendingId in s.sidecar.results then s
    else
      var Recording(msgId, conversationId, payload) := s.handlers[handler];
      var entry := Sidecar.Entry(pendingId, conversationId, msgId, w.leafOf(payload));
      s.(sidecar := Sidecar.Step(w.h, s.sidecar, Sidecar.Recorded(entry)),
         handlers := s.handlers[handler := Storing(msgId, pendingId)],
         origin := s.origin[pendingId := (msgId, payload)])
  }

  function StoreStep(s: State, handler: nat): State {
    if handler !in s.handlers || !s.handlers[handler].Storing? then s
    else
      var Storing(msgId, pendingId) := s.handlers[handler];
      s.(tables := UpdateDigest(s.tables, msgId, PENDING + pendingId), handlers := s.handlers - {handler})
  }

  /** The contract call is mined: the event appears in the receipt of a new transaction. */
  function MineStep(w: World, s: State, flushId: nat, txHash: string, now: nat): State {
    if flushId !in s.sidecar.flushes || s.sidecar.flushes[flushId].minedIn.Some?
       || txHash in s.receipts || !IsTxHash(txHash) then s
    else
      var flush := s.sidecar.flushes[flushId];
      var event := Emitted(s.ledger, w.wallet, flush.root, Sidecar.Leaves(flush.batch), now);
      if event.Err? then s
      else
        s.(sidecar := Sidecar.Step(w.h, s.sidecar, Sidecar.Mined(flushId, txHash)),
           ledger := MessageIntegrity.Recorded(s.ledger, event.value),
           receipts := s.receipts[txHash := [Log(w.contract, Some(event.value))]],
           texts := if forall e :: e in flush.batch ==> e.pendingId in s.origin
                    then s.texts[txHash := Texts(s.origin, flush.batch)] else s.texts)
  }

  function AskStep(s: State, msgId: nat): State {
    if msgId !in s.snapshot then s
    else
      var id := s.snapshot[msgId];
      s.(snapshot := s.snapshot - {msgId},
         reply := if id in s.sidecar.results then Some(Reply(msgId, id, s.sidecar.results[id])) else None)
  }

  function ResolveStep(s: State): State {
    if s.reply.None? then s
    else
      var Reply(msgId, _, status) := s.reply.value;
      match status
      case Confirmed(tx, _) => s.(tables := UpdateDigest(s.tables, msgId, tx), reply := None)
      case Failed(_) => s.(tables := UpdateDigest(s.tables, msgId, ""), reply := None)
      case Pending => s.(reply := None)
  }

  function WithTables(s: State, tables: Tables<string>): State {
    s.(tables := tables)
  }

  /** A restart of the server loses what was under way in it. */
  function Forgotten(s: State): State {
    s.(handlers := map[], snapshot := map[], reply := None)
  }

  function Restarted(s: State): State {
    Forgotten(WithTables(s, Commit(s.tables, Restart)))
  }

  function Step(w: World, s: State, e: Event): State {
    match e
    case Send(handler, post) => SendStep(s, handler, post)
    case Queue(handler, pendingId) => QueueStep(w, s, handler, pendingId)
    case GiveUp(handler) => s.(handlers := s.handlers - {handler})
    case Store(handler) => StoreStep(s, handler)
    case Flush(f) => s.(sidecar := Sidecar.Step(w.h, s.sidecar, Sidecar.Begun(f)))
    case Mine(f, tx, now) => MineStep(w, s, f, tx, now)
    case Confirm(f, batchId) => s.(sidecar := Sidecar.Step(w.h, s.sidecar, Sidecar.Done(f, batchId)))
    case Fail(f, error) => s.(sidecar := Sidecar.Step(w.h, s.sidecar, Sidecar.Thrown(f, error)))
    case Snapshot => if s.snapshot == map[] && s.reply.None? then s.(snapshot := PendingMessages(s.tables)) else s
    case Ask(msgId) => if s.reply.Some? then s else AskStep(s, msgId)
    case Resolve => ResolveStep(s)
    case Other(txn) => if txn.Create? || txn.SetDigest? then s else WithTables(s, Commit(s.tables, txn))
    case RestartServer => Restarted(s)
  }

  function Start(tables: Tables<string>, ledger: Ledger): State {
    State(tables, map[], Sidecar.START, ledger, map[], map[], None, map[], map[])
  }

  function Run(w: World, start: State, events: seq<Event>): State {
    if events == [] then start else Step(w, Run(w, start, events[..|events| - 1]), events[|events| - 1])
  }

  // ---------------------------------------------------------------------------
  // What every step keeps
  // ---------------------------------------------------------------------------

  /** This pending identifier was handed out for this message, and for its payload if it still exists. */
  predicate IsFor(s: State, pendingId: string, msgId: nat) {
    && pendingId in s.origin && s.origin[pendingId].0 == msgId
    && msgId < s.tables.nextMessageId
    && (msgId in s.tables.messages ==> s.tables.messages[msgId].payload == s.origin[pendingId].1)
  }

  /**
   The transaction's only log line is a batch event that rebuilds to its root,
   with the leaves of the noted payloads.
   */
  ghost predicate IsBatch(w: World, s: State, tx: string) {
    && tx in s.receipts && tx in s.texts && IsTxHash(tx)
    && |s.receipts[tx]| == 1 && s.receipts[tx][0].address == w.contract && s.receipts[tx][0].event.Some?
    && var event := s.receipts[tx][0].event.value;
       && event.leaves != [] && event.root == Root(w.h, event.leaves)
       && |event.leaves| == |s.texts[tx]|
       && forall i :: 0 <= i < |event.leaves| ==> event.leaves[i] == w.leafOf(s.texts[tx][i])
  }

  /** The transaction recorded a batch with this payload in it. */
  ghost predicate Records(w: World, s: State, tx: string, payload: string) {
    IsBatch(w, s, tx) && payload in s.texts[tx]
  }

  ghost predicate DigestsAreTrue(w: World, s: State) {
    forall m :: m in s.tables.messages ==>
      var d := s.tables.messages[m].digest;
      || d == ""
      || (IsPendingDigest(d) && IsFor(s, d[|PENDING|..], m))
      || Records(w, s, d, s.tables.messages[m].payload)
  }

  ghost predicate EntriesAreTrue(w: World, s: State, batch: seq<Sidecar.Entry>) {
    forall e :: e in batch ==> e.pendingId in s.origin && e.leaf == w.leafOf(s.origin[e.pendingId].1)
  }

  ghost predicate FlushIsTrue(w: World, s: State, f: Sidecar.Flush) {
    && f.batch != [] && EntriesAreTrue(w, s, f.batch)
    && f.root == Root(w.h, Sidecar.Leaves(f.batch))
    && (f.minedIn.Some? ==> forall e :: e in f.batch ==>
          e.pendingId in s.origin && Records(w, s, f.minedIn.value, s.origin[e.pendingId].1))
  }

  ghost predicate SidecarIsTrue(w: World, s: State) {
    && s.sidecar.results.Keys == s.origin.Keys
    && EntriesAreTrue(w, s, s.sidecar.queue)
    && (forall f :: f in s.sidecar.flushes ==> FlushIsTrue(w, s, s.sidecar.flushes[f]))
    && (forall id :: id in s.sidecar.results && s.sidecar.results[id].Confirmed? ==>
          Records(w, s, s.sidecar.results[id].txHash, s.origin[id].1))
  }

  ghost predicate HandlersAreTrue(s: State) {
    forall k :: k in s.handlers ==>
      match s.handlers[k]
      case Recording(m, _, payload) =>
        m < s.tables.nextMessageId && (m in s.tables.messages ==> s.tables.messages[m].payload == payload)
      case Storing(m, id) => IsFor(s, id, m)
  }

  ghost predicate SnapshotIsTrue(s: State) {
    forall m :: m in s.snapshot ==> IsFor(s, s.snapshot[m], m)
  }

  ghost predicate ReplyIsTrue(w: World, s: State) {
    s.reply.Some? ==>
      && IsFor(s, s.reply.value.pendingId, s.reply.value.msgId)
      && (s.reply.value.status.Confirmed? ==>
            Records(w, s, s.reply.value.status.txHash, s.origin[s.reply.value.pendingId].1))
  }

  ghost predicate OriginsAreTrue(s: State) {
    forall id :: id in s.origin ==> IsFor(s, id, s.origin[id].0)
  }

  ghost predicate Good(w: World, s: State) {
    && FreshIds(s.tables) && OriginsAreTrue(s) && DigestsAreTrue(w, s) && SidecarIsTrue(w, s)
    && HandlersAreTrue(s) && SnapshotIsTrue(s) && ReplyIsTrue(w, s)
  }

  /** The tables may lose messages and gain new ones, but no message changes its payload. */
  ghost predicate PayloadsKept(a: Tables<string>, b: Tables<string>) {
    && a.nextMessageId <= b.nextMessageId
    && forall m :: m in b.messages && m < a.nextMessageId ==>
      m in a.messages && b.messages[m].payload == a.messages[m].payload
  }

  /** `t` has all of `s`'s history, and its messages are those of `s` with new ones added or some gone. */
  ghost predicate Extends(s: State, t: State) {
    && PayloadsKept(s.tables, t.tables)
    && (forall id :: id in s.origin ==> id in t.origin && t.origin[id] == s.origin[id])
    && (forall tx :: tx in s.receipts ==> tx in t.receipts && t.receipts[tx] == s.receipts[tx])
    && (forall tx :: tx in s.texts && tx in s.receipts ==> tx in t.texts && t.texts[tx] == s.texts[tx])
  }

  /** What is true of an earlier state stays true. */
  lemma StaysTrue(w: World, s: State, t: State)
    requires Extends(s, t)
    ensures forall id, m :: IsFor(s, id, m) ==> IsFor(t, id, m)
    ensures forall tx, p :: Records(w, s, tx, p) ==> Records(w, t, tx, p)
    ensures forall f :: FlushIsTrue(w, s, f) ==> FlushIsTrue(w, t, f)
  {
  }

  lemma ServiceStays(w: World, s: State, t: State)
    requires SidecarIsTrue(w, s) && Extends(s, t) && t.sidecar == s.sidecar && t.origin == s.origin
    ensures SidecarIsTrue(w, t)
  {
    StaysTrue(w, s, t);
  }

  lemma OriginsStay(s: State, t: State)
    requires OriginsAreTrue(s) && Extends(s, t) && t.origin == s.origin
    ensures OriginsAreTrue(t)
  {
  }

  /** Handlers may finish; those that go on are unchanged. */
  lemma HandlersStay(s: State, t: State)
    requires HandlersAreTrue(s) && Extends(s, t)
    requires forall k :: k in t.handlers ==> k in s.handlers && t.handlers[k] == s.handlers[k]
    ensures HandlersAreTrue(t)
  {
  }

  /** The resolver may drop entries and its reply. */
  lemma ResolverStays(w: World, s: State, t: State)
    requires SnapshotIsTrue(s) && ReplyIsTrue(w, s) && Extends(s, t)
    requires forall m :: m in t.snapshot ==> m in s.snapshot && t.snapshot[m] == s.snapshot[m]
    requires t.reply == s.reply || t.reply == None
    ensures SnapshotIsTrue(t) && ReplyIsTrue(w, t)
  {
  }

  /** Messages keep their digests; new ones have none. */
  lemma DigestsStay(w: World, s: State, t: State)
    requires DigestsAreTrue(w, s) && Extends(s, t) && FreshIds(s.tables)
    requires forall m :: m in t.tables.messages ==>
      || t.tables.messages[m].digest == ""
      || (m in s.tables.messages && t.tables.messages[m].digest == s.tables.messages[m].digest)
    ensures DigestsAreTrue(w, t)
  {
  }

  /** A step that leaves the service and the chain alone, and at most drops handlers and resolver entries. */
  lemma TablesKeepGood(w: World, s: State, t: State)
    requires Good(w, s) && Extends(s, t) && FreshIds(t.tables) && t.sidecar == s.sidecar && t.origin == s.origin
    requires forall m :: m in t.tables.messages ==>
      || t.tables.messages[m].digest == ""
      || (m in s.tables.messages && t.tables.messages[m].digest == s.tables.messages[m].digest)
    requires forall k :: k in t.handlers ==> k in s.handlers && t.handlers[k] == s.handlers[k]
    requires forall m :: m in t.snapshot ==> m in s.snapshot && t.snapshot[m] == s.snapshot[m]
    requires t.reply == s.reply || t.reply == None
    ensures Good(w, t)
  {
    ServiceStays(w, s, t);
    OriginsStay(s, t);
    HandlersStay(s, t);
    ResolverStays(w, s, t);
    DigestsStay(w, s, t);
  }

  lemma DigestSetTrue(w: World, s: State, m: nat, digest: string)
    requires DigestsAreTrue(w, s)
    requires m in s.tables.messages ==>
      || digest == ""
      || (IsPendingDigest(digest) && IsFor(s, digest[|PENDING|..], m))
      || Records(w, s, digest, s.tables.messages[m].payload)
    ensures DigestsAreTrue(w, s.(tables := UpdateDigest(s.tables, m, digest)))
  {
  }

  lemma DigestSet(w: World, s: State, m: nat, digest: string)
    requires Good(w, s)
    requires m in s.tables.messages ==>
      || digest == ""
      || (IsPendingDigest(digest) && IsFor(s, digest[|PENDING|..], m))
      || Records(w, s, digest, s.tables.messages[m].payload)
    ensures Good(w, s.(tables := UpdateDigest(s.tables, m, digest)))
  {
    var t := s.(tables := UpdateDigest(s.tables, m, digest));
    ServiceStays(w, s, t);
    OriginsStay(s, t);
    HandlersStay(s, t);
    ResolverStays(w, s, t);
    DigestSetTrue(w, s, m, digest);
  }

  lemma QueueServiceTrue(w: World, s: State, handler: nat, pendingId: string)
    requires SidecarIsTrue(w, s) && QueueStep(w, s, handler, pendingId) != s
    ensures SidecarIsTrue(w, QueueStep(w, s, handler, pendingId))
  {
    StaysTrue(w, s, QueueStep(w, s, handler, pendingId));
  }

  lemma QueueKeepsGood(w: World, s: State, handler: nat, pendingId: string)
    requires Good(w, s)
    ensures Good(w, QueueStep(w, s, handler, pendingId))
  {
    var t := QueueStep(w, s, handler, pendingId);
    if t != s {
      assert Extends(s, t);
      QueueServiceTrue(w, s, handler, pendingId);
      ResolverStays(w, s, t);
      DigestsStay(w, s, t);
      assert forall id, m :: IsFor(s, id, m) ==> IsFor(t, id, m);
      assert IsFor(t, pendingId, s.handlers[handler].msgId);
    }
  }

  lemma MinedBatchTrue(w: World, s: State, flushId: nat, tx: string, now: nat)
    requires SidecarIsTrue(w, s) && MineStep(w, s, flushId, tx, now) != s
    ensures FlushIsTrue(w, MineStep(w, s, flushId, tx, now), s.sidecar.flushes[flushId].(minedIn := Some(tx)))
  {
    var t, flush := MineStep(w, s, flushId, tx, now), s.sidecar.flushes[flushId];
    assert FlushIsTrue(w, s, flush);
    assert IsBatch(w, t, tx);
    forall e | e in flush.batch ensures Records(w, t, tx, t.origin[e.pendingId].1) {
      var i :| 0 <= i < |flush.batch| && flush.batch[i] == e;
      assert t.texts[tx][i] == t.origin[e.pendingId].1;
    }
  }

  lemma MineExtends(w: World, s: State, flushId: nat, tx: string, now: nat)
    requires MineStep(w, s, flushId, tx, now) != s
    ensures var t := MineStep(w, s, flushId, tx, now);
            && Extends(s, t) && t.origin == s.origin && flushId in s.sidecar.flushes
            && t.sidecar.queue == s.sidecar.queue && t.sidecar.results == s.sidecar.results
            && t.sidecar.flushes == s.sidecar.flushes[flushId := s.sidecar.flushes[flushId].(minedIn := Some(tx))]
  {
  }

  /** A service that only changes one flush, into a true one. */
  lemma OneFlushTrue(w: World, s: State, t: State, f: nat, flush: Sidecar.Flush)
    requires SidecarIsTrue(w, s) && Extends(s, t) && t.origin == s.origin && FlushIsTrue(w, t, flush)
    requires t.sidecar.queue == s.sidecar.queue && t.sidecar.results == s.sidecar.results
    requires t.sidecar.flushes == s.sidecar.flushes[f := flush]
    ensures SidecarIsTrue(w, t)
  {
    StaysTrue(w, s, t);
  }

  lemma MineServiceTrue(w: World, s: State, flushId: nat, tx: string, now: nat)
    requires SidecarIsTrue(w, s) && MineStep(w, s, flushId, tx, now) != s
    ensures SidecarIsTrue(w, MineStep(w, s, flushId, tx, now))
  {
    MineExtends(w, s, flushId, tx, now);
    MinedBatchTrue(w, s, flushId, tx, now);
    OneFlushTrue(w, s, MineStep(w, s, flushId, tx, now), flushId, s.sidecar.flushes[flushId].(minedIn := Some(tx)));
  }

  lemma MineKeepsGood(w: World, s: State, flushId: nat, tx: string, now: nat)
    requires Good(w, s)
    ensures Good(w, MineStep(w, s, flushId, tx, now))
  {
    var t := MineStep(w, s, flushId, tx, now);
    if t != s {
      MineServiceTrue(w, s, flushId, tx, now);
      OriginsStay(s, t);
      HandlersStay(s, t);
      ResolverStays(w, s, t);
      DigestsStay(w, s, t);
    }
  }

  lemma FlushTakenTrue(w: World, s: State, f: nat)
    requires SidecarIsTrue(w, s)
    ensures SidecarIsTrue(w, s.(sidecar := Sidecar.Step(w.h, s.sidecar, Sidecar.Begun(f))))
  {
    StaysTrue(w, s, s.(sidecar := Sidecar.Step(w.h, s.sidecar, Sidecar.Begun(f))));
  }

  lemma FlushEntriesKnown(w: World, s: State, f: nat)
    requires SidecarIsTrue(w, s) && f in s.sidecar.flushes
    ensures Sidecar.Ids(s.sidecar.flushes[f].batch) <= s.origin.Keys
  {
    assert FlushIsTrue(w, s, s.sidecar.flushes[f]);
  }

  lemma FlushDoneTrue(w: World, s: State, f: nat, batchId: Option<nat>)
    requires SidecarIsTrue(w, s)
    ensures SidecarIsTrue(w, s.(sidecar := Sidecar.Step(w.h, s.sidecar, Sidecar.Done(f, batchId))))
  {
    StaysTrue(w, s, s.(sidecar := Sidecar.Step(w.h, s.sidecar, Sidecar.Done(f, batchId))));
    if f in s.sidecar.flushes {
      FlushEntriesKnown(w, s, f);
      assert FlushIsTrue(w, s, s.sidecar.flushes[f]);
    }
  }

  lemma FlushThrownTrue(w: World, s: State, f: nat, error: string)
    requires SidecarIsTrue(w, s)
    ensures SidecarIsTrue(w, s.(sidecar := Sidecar.Step(w.h, s.sidecar, Sidecar.Thrown(f, error))))
  {
    var t := s.(sidecar := Sidecar.Step(w.h, s.sidecar, Sidecar.Thrown(f, error)));
    StaysTrue(w, s, t);
    if f in s.sidecar.flushes {
      FlushEntriesKnown(w, s, f);
      assert FlushIsTrue(w, s, s.sidecar.flushes[f]);
      assert FlushIsTrue(w, s, s.sidecar.flushes[f].(abandoned := true));
    }
  }

  lemma ServiceStepTrue(w: World, s: State, e: Sidecar.Event)
    requires SidecarIsTrue(w, s) && (e.Begun? || e.Done? || e.Thrown?)
    ensures SidecarIsTrue(w, s.(sidecar := Sidecar.Step(w.h, s.sidecar, e)))
  {
    match e
    case Begun(f) => FlushTakenTrue(w, s, f);
    case Done(f, batchId) => FlushDoneTrue(w, s, f, batchId);
    case Thrown(f, error) => FlushThrownTrue(w, s, f, error);
  }

  /** Steps of the batching service alone. */
  lemma SidecarKeepsGood(w: World, s: State, e: Sidecar.Event)
    requires Good(w, s) && (e.Begun? || e.Done? || e.Thrown?)
    ensures Good(w, s.(sidecar := Sidecar.Step(w.h, s.sidecar, e)))
  {
    var t := s.(sidecar := Sidecar.Step(w.h, s.sidecar, e));
    ServiceStepTrue(w, s, e);
    OriginsStay(s, t);
    HandlersStay(s, t);
    ResolverStays(w, s, t);
    DigestsStay(w, s, t);
  }

  lemma SendExtends(s: State, handler: nat, post: Post<string>)
    requires FreshIds(s.tables) && SendStep(s, handler, post) != s
    ensures var t := SendStep(s, handler, post);
            && Extends(s, t) && FreshIds(t.tables)
            && (forall m :: m in t.tables.messages ==>
                  || t.tables.messages[m].digest == ""
                  || (m in s.tables.messages && t.tables.messages[m].digest == s.tables.messages[m].digest))
            && s.tables.nextMessageId < t.tables.nextMessageId
            && t.tables.messages[s.tables.nextMessageId].payload == post.payload
  {
    CommitKeepsFreshIds(s.tables, Create(post));
  }

  lemma RecordingIsTrue(s: State, handler: nat, msgId: nat, conversationId: nat, payload: string)
    requires HandlersAreTrue(s) && msgId < s.tables.nextMessageId
    requires msgId in s.tables.messages ==> s.tables.messages[msgId].payload == payload
    ensures HandlersAreTrue(s.(handlers := s.handlers[handler := Recording(msgId, conversationId, payload)]))
  {
  }

  lemma SendKeepsGood(w: World, s: State, handler: nat, post: Post<string>)
    requires Good(w, s)
    ensures Good(w, SendStep(s, handler, post))
  {
    var t := SendStep(s, handler, post);
    if t != s {
      SendExtends(s, handler, post);
      TablesKeepGood(w, s, t.(handlers := s.handlers));
      ResolverStays(w, s, t);
      DigestsStay(w, s, t);
      ServiceStays(w, s, t);
      RecordingIsTrue(t.(handlers := s.handlers), handler, s.tables.nextMessageId, post.conversationId, post.payload);
    }
  }

  lemma StoreKeepsGood(w: World, s: State, handler: nat)
    requires Good(w, s)
    ensures Good(w, StoreStep(s, handler))
  {
    if handler in s.handlers && s.handlers[handler].Storing? {
      var m, id := s.handlers[handler].msgId, s.handlers[handler].pendingId;
      assert (PENDING + id)[|PENDING|..] == id;
      DigestSet(w, s, m, PENDING + id);
      var t := s.(tables := UpdateDigest(s.tables, m, PENDING + id));
      TablesKeepGood(w, t, t.(handlers := t.handlers - {handler}));
    }
  }

  lemma PendingAreTrue(w: World, s: State, m: nat)
    requires DigestsAreTrue(w, s) && m in PendingMessages(s.tables)
    ensures IsFor(s, PendingMessages(s.tables)[m], m)
  {
  }

  lemma SnapshotKeepsGood(w: World, s: State)
    requires Good(w, s)
    ensures Good(w, s.(snapshot := PendingMessages(s.tables)))
  {
    var t := s.(snapshot := PendingMessages(s.tables));
    forall m | m in t.snapshot ensures IsFor(t, t.snapshot[m], m) {
      PendingAreTrue(w, s, m);
    }
    ServiceStays(w, s, t);
    HandlersStay(s, t);
    DigestsStay(w, s, t);
    OriginsStay(s, t);
    ReplyStays(w, s, t);
  }

  lemma ReplyStays(w: World, s: State, t: State)
    requires ReplyIsTrue(w, s) && Extends(s, t) && t.reply == s.reply
    ensures ReplyIsTrue(w, t)
  {
  }

  lemma AskKeepsGood(w: World, s: State, msgId: nat)
    requires Good(w, s)
    ensures Good(w, AskStep(s, msgId))
  {
    var t := AskStep(s, msgId);
    StaysTrue(w, s, t);
    ServiceStays(w, s, t);
    OriginsStay(s, t);
    HandlersStay(s, t);
    DigestsStay(w, s, t);
  }

  lemma ResolveKeepsGood(w: World, s: State)
    requires Good(w, s)
    ensures Good(w, ResolveStep(s))
  {
    if s.reply.Some? {
      var r := s.reply.value;
      var digest := if r.status.Confirmed? then r.status.txHash else "";
      var t := if r.status.Pending? then s else s.(tables := UpdateDigest(s.tables, r.msgId, digest));
      DigestSet(w, s, r.msgId, digest);
      TablesKeepGood(w, t, t.(reply := None));
    }
  }

  lemma OtherKeepsGood(w: World, s: State, txn: Txn<string>)
    requires Good(w, s) && !txn.Create? && !txn.SetDigest?
    ensures Good(w, WithTables(s, Commit(s.tables, txn)))
  {
    CommitKeepsFreshIds(s.tables, txn);
    TablesKeepGood(w, s, WithTables(s, Commit(s.tables, txn)));
  }

  lemma ForgettingKeepsGood(w: World, s: State)
    requires Good(w, s)
    ensures Good(w, Forgotten(s))
  {
    TablesKeepGood(w, s, Forgotten(s));
  }

  lemma RestartKeepsGood(w: World, s: State)
    requires Good(w, s)
    ensures Good(w, Restarted(s))
  {
    OtherKeepsGood(w, s, Restart);
    ForgettingKeepsGood(w, WithTables(s, Commit(s.tables, Restart)));
  }

  lemma BatchingKeepsGood(w: World, s: State, e: Event)
    requires Good(w, s) && (e.Flush? || e.Mine? || e.Confirm? || e.Fail?)
    ensures Good(w, Step(w, s, e))
  {
    match e
    case Flush(f) => SidecarKeepsGood(w, s, Sidecar.Begun(f));
    case Mine(f, tx, now) => MineKeepsGood(w, s, f, tx, now);
    case Confirm(f, batchId) => SidecarKeepsGood(w, s, Sidecar.Done(f, batchId));
    case Fail(f, error) => SidecarKeepsGood(w, s, Sidecar.Thrown(f, error));
  }

  lemma ResolverKeepsGood(w: World, s: State, e: Event)
    requires Good(w, s) && (e.Snapshot? || e.Ask? || e.Resolve?)
    ensures Good(w, Step(w, s, e))
  {
    match e
    case Snapshot => SnapshotKeepsGood(w, s);
    case Ask(msgId) => AskKeepsGood(w, s, msgId);
    case Resolve => ResolveKeepsGood(w, s);
  }

  lemma StepKeepsGood(w: World, s: State, e: Event)
    requires Good(w, s)
    ensures Good(w, Step(w, s, e))
  {
    match e
    case Send(handler, post) => SendKeepsGood(w, s, handler, post);
    case Queue(handler, pendingId) => QueueKeepsGood(w, s, handler, pendingId);
    case GiveUp(handler) => TablesKeepGood(w, s, s.(handlers := s.handlers - {handler}));
    case Store(handler) => StoreKeepsGood(w, s, handler);
    case Other(txn) => if !txn.Create? && !txn.SetDigest? { OtherKeepsGood(w, s, txn); }
    case RestartServer => RestartKeepsGood(w, s);
    case Flush(_) => BatchingKeepsGood(w, s, e);
    case Mine(_, _, _) => BatchingKeepsGood(w, s, e);
    case Confirm(_, _) => BatchingKeepsGood(w, s, e);
    case Fail(_, _) => BatchingKeepsGood(w, s, e);
    case Snapshot => ResolverKeepsGood(w, s, e);
    case Ask(_) => ResolverKeepsGood(w, s, e);
    case Resolve => ResolverKeepsGood(w, s, e);
  }

  lemma {:induction false} EveryStateIsGood(w: World, start: State, events: seq<Event>)
    requires Good(w, start)
    ensures Good(w, Run(w, start, events))
  {
    if events != [] {
      EveryStateIsGood(w, start, events[..|events| - 1]);
      StepKeepsGood(w, Run(w, start, events[..|events| - 1]), events[|events| - 1]);
    }
  }

  /** Any tables without digests are a good start. */
  lemma GoodStart(w: World, tables: Tables<string>, ledger: Ledger)
    requires FreshIds(tables) && forall m :: m in tables.messages ==> tables.messages[m].digest == ""
    ensures Good(w, Start(tables, ledger))
  {
  }

  /** The digest the resolver writes: the hash for a confirmed answer, nothing for a failed one. */
  function ResolvedDigest(r: Reply): string {
    if r.status.Confirmed? then r.status.txHash else ""
  }

  lemma ResolverSets(s: State, r: Reply)
    requires s.reply == Some(r) && !r.status.Pending?
    ensures ResolveStep(s) == s.(tables := UpdateDigest(s.tables, r.msgId, ResolvedDigest(r)), reply := None)
  {
  }

  lemma DigestSetIn(tables: Tables<string>, id: nat, digest: string, m: nat)
    requires m in tables.messages
    ensures m in UpdateDigest(tables, id, digest).messages
    ensures UpdateDigest(tables, id, digest).messages[m]
         == if m == id then tables.messages[m].(digest := digest) else tables.messages[m]
  {
  }

  /**
   The resolver writes into the message it asked about and no other; a pending
   answer changes no table.
   */
  lemma ResolverWrites(s: State, r: Reply, m: nat)
    requires s.reply == Some(r) && m in s.tables.messages
    ensures m in ResolveStep(s).tables.messages
    ensures r.status.Confirmed? && m == r.msgId ==>
      ResolveStep(s).tables.messages[m] == s.tables.messages[m].(digest := r.status.txHash)
    ensures r.status.Failed? && m == r.msgId ==>
      ResolveStep(s).tables.messages[m] == s.tables.messages[m].(digest := "")
    ensures r.status.Pending? || m != r.msgId ==> ResolveStep(s).tables.messages[m] == s.tables.messages[m]
  {
    if r.status.Pending? {
      assert ResolveStep(s) == s.(reply := None);
    } else {
      ResolverSets(s, r);
      DigestSetIn(s.tables, r.msgId, ResolvedDigest(r), m);
    }
  }

  // ---------------------------------------------------------------------------
  // The page
  // ---------------------------------------------------------------------------

  ghost predicate NoTwoTextsHashAlike(leafOf: string -> Hash) {
    forall a, b :: leafOf(a) == leafOf(b) ==> a == b
  }

  /**
   On a recorded batch the page passes exactly the texts that hash like one of
   the batch's texts, whatever the hash function does.
   */
  lemma {:induction false} PageOnBatchIff(w: World, s: State, tx: string, text: string)
    requires IsBatch(w, s, tx)
    ensures Passes(Check(w.h, w.leafOf, s.receipts, w.contract, text, tx)) <==>
      && Trim(text) != ""
      && exists i :: 0 <= i < |s.texts[tx]| && Lower(w.leafOf(s.texts[tx][i])) == Lower(w.leafOf(Trim(text)))
  {
    assert Trim(tx) == tx;
    var leaves, leaf := s.receipts[tx][0].event.value.leaves, Lower(w.leafOf(Trim(text)));
    if exists l :: l in leaves && Lower(l) == leaf {
      var l :| l in leaves && Lower(l) == leaf;
      var i :| 0 <= i < |leaves| && leaves[i] == l;
      assert Lower(w.leafOf(s.texts[tx][i])) == leaf;
    }
    if exists i :: 0 <= i < |s.texts[tx]| && Lower(w.leafOf(s.texts[tx][i])) == leaf {
      var i :| 0 <= i < |s.texts[tx]| && Lower(w.leafOf(s.texts[tx][i])) == leaf;
      assert leaves[i] in leaves && Lower(leaves[i]) == leaf;
    }
  }

  /** If no two texts hash alike, these are exactly the batch's own texts. */
  lemma {:induction false} PageOnBatch(w: World, s: State, tx: string, text: string)
    requires IsBatch(w, s, tx)
    requires PrintsLowerCase(w.leafOf) && NoTwoTextsHashAlike(w.leafOf)
    ensures Passes(Check(w.h, w.leafOf, s.receipts, w.contract, text, tx)) <==>
      Trim(text) != "" && Trim(text) in s.texts[tx]
  {
    PageOnBatchIff(w, s, tx, text);
  }

  /** The message exists, and its digest is neither empty nor pending. */
  predicate IsResolved(s: State, m: nat) {
    && m in s.tables.messages
    && s.tables.messages[m].digest != "" && !IsPendingDigest(s.tables.messages[m].digest)
  }

  predicate PagePasses(w: World, s: State, m: nat)
    requires m in s.tables.messages
  {
    Passes(Check(w.h, w.leafOf, s.receipts, w.contract, s.tables.messages[m].payload, s.tables.messages[m].digest))
  }

  /**
   In every reachable state a resolved message carries the hash of a transaction
   that recorded its payload, and if the payload has no surrounding white space
   the page passes it. Nothing is assumed of the hash functions.
   */
  lemma {:induction false} ResolvedMessagePasses(w: World, start: State, events: seq<Event>, m: nat)
    requires Good(w, start) && IsResolved(Run(w, start, events), m)
    ensures var s := Run(w, start, events);
            var payload, tx := s.tables.messages[m].payload, s.tables.messages[m].digest;
            && Records(w, s, tx, payload)
            && (payload != "" && Trim(payload) == payload ==> PagePasses(w, s, m))
  {
    EveryStateIsGood(w, start, events);
    var s := Run(w, start, events);
    var payload, tx := s.tables.messages[m].payload, s.tables.messages[m].digest;
    assert Records(w, s, tx, payload);
    PageOnBatchIff(w, s, tx, payload);
  }

  /** With white space at an end it passes exactly if the trimmed payload hashes like a payload of its batch. */
  lemma {:induction false} ResolvedMessagePassesIff(w: World, start: State, events: seq<Event>, m: nat)
    requires Good(w, start) && IsResolved(Run(w, start, events), m)
    ensures var s := Run(w, start, events);
            var payload, tx := s.tables.messages[m].payload, s.tables.messages[m].digest;
            && tx in s.texts
            && (PagePasses(w, s, m) <==>
                  && Trim(payload) != ""
                  && exists i :: 0 <= i < |s.texts[tx]|
                       && Lower(w.leafOf(s.texts[tx][i])) == Lower(w.leafOf(Trim(payload))))
            && (PrintsLowerCase(w.leafOf) && NoTwoTextsHashAlike(w.leafOf) ==>
                  (PagePasses(w, s, m) <==> Trim(payload) != "" && Trim(payload) in s.texts[tx]))
  {
    ResolvedMessagePasses(w, start, events, m);
    var s := Run(w, start, events);
    PageOnBatchIff(w, s, s.tables.messages[m].digest, s.tables.messages[m].payload);
    if PrintsLowerCase(w.leafOf) && NoTwoTextsHashAlike(w.leafOf) {
      PageOnBatch(w, s, s.tables.messages[m].digest, s.tables.messages[m].payload);
    }
  }
}
