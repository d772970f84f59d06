/**
 One message all the way through the pipeline: the run that ends with a
 resolved digest exists for every payload, and shows what trimming costs.
 */
module PipelineRun {
  import opened Wrappers
  import opened Merkle
  import opened Database
  import Transactions
  import opened MessageIntegrity
  import opened VerificationPage
  import opened Pipeline
  import Bundles
  import Sidecar

  const TX := "0xab"

  /** User 1 alone in conversation 1; the wallet owns an empty contract. */
  function OneUser(w: World): State {
    Start(Tables(map[1 := Bundles.OtherText("")], 2, map[1 := {1}], 2, map[], 1, map[]), Ledger(w.wallet, map[], 0))
  }

  /** The message is posted, queued by the batching service, and marked pending. */
  function Posting(payload: string): seq<Event> {
    [Send(1, Transactions.Post(1, 1, payload, 0, None, None)), Queue(1, "id"), Store(1)]
  }

  const BATCHING: seq<Event> := [Flush(1), Mine(1, TX, 0), Confirm(1, Some(0))]

  const RESOLVING: seq<Event> := [Snapshot, Ask(1), Resolve]

  function OneMessage(payload: string): seq<Event> {
    Posting(payload) + BATCHING + RESOLVING
  }

  function Three(w: World, s: State, events: seq<Event>): State
    requires |events| == 3
  {
    Step(w, Step(w, Step(w, s, events[0]), events[1]), events[2])
  }

  lemma RunOne(w: World, start: State, before: seq<Event>, e: Event)
    ensures Run(w, start, before + [e]) == Step(w, Run(w, start, before), e)
  {
    assert (before + [e])[..|before|] == before;
  }

  lemma Regrouped(before: seq<Event>, events: seq<Event>)
    requires |events| == 3
    ensures before + [events[0]] + [events[1]] + [events[2]] == before + events
  {
  }

  lemma RunThree(w: World, start: State, before: seq<Event>, events: seq<Event>)
    requires |events| == 3
    ensures Run(w, start, before + events) == Three(w, Run(w, start, before), events)
  {
    Regrouped(before, events);
    var one, two := before + [events[0]], before + [events[0]] + [events[1]];
    RunOne(w, start, before, events[0]);
    RunOne(w, start, one, events[1]);
    RunOne(w, start, two, events[2]);
  }

  /** The message is stored with this digest; the resolver is idle. */
  predicate HasMessage(s: State, payload: string, digest: string) {
    && s.tables.messages == map[1 := Message(1, 1, payload, 0, digest)]
    && s.snapshot == map[] && s.reply.None?
  }

  function EntryOf(w: World, payload: string): Sidecar.Entry {
    Sidecar.Entry("id", 1, 1, w.leafOf(payload))
  }

  /** It is recorded under the identifier `id`, in this state of the batching service; nothing is mined yet. */
  predicate IsPending(w: World, s: State, payload: string, queue: seq<Sidecar.Entry>,
                      flushes: map<nat, Sidecar.Flush>)
  {
    && HasMessage(s, payload, PENDING + "id") && s.origin == map["id" := (1, payload)]
    && s.sidecar.queue == queue && s.sidecar.flushes == flushes
    && s.sidecar.results == map["id" := Sidecar.Pending]
    && s.ledger == OneUser(w).ledger && s.receipts == map[] && s.texts == map[]
  }

  function FlushOf(w: World, payload: string, minedIn: Option<string>): Sidecar.Flush {
    Sidecar.Flush([EntryOf(w, payload)], Root(w.h, Sidecar.Leaves([EntryOf(w, payload)])), minedIn, false)
  }

  /** The transaction has recorded it as a batch of one. */
  predicate IsRecorded(s: State, payload: string, status: Sidecar.Status) {
    && HasMessage(s, payload, PENDING + "id") && s.texts == map[TX := [payload]]
    && s.sidecar.results == map["id" := status]
  }

  lemma Posts(w: World, payload: string)
    requires payload != ""
    ensures IsPending(w, Three(w, OneUser(w), Posting(payload)), payload, [EntryOf(w, payload)], map[])
  {
    var s := Step(w, OneUser(w), Posting(payload)[0]);
    assert Readers(OneUser(w).tables, 1, 1, None) == {1};
    assert s.handlers == map[1 := Recording(1, 1, payload)];
  }

  lemma Flushes(w: World, s: State, payload: string)
    requires IsPending(w, s, payload, [EntryOf(w, payload)], map[])
    ensures IsPending(w, Step(w, s, Flush(1)), payload, [], map[1 := FlushOf(w, payload, None)])
  {
  }

  lemma Mines(w: World, s: State, payload: string)
    requires IsPending(w, s, payload, [], map[1 := FlushOf(w, payload, None)])
    ensures var t := Step(w, s, Mine(1, TX, 0));
            IsRecorded(t, payload, Sidecar.Pending) && t.sidecar.flushes == map[1 := FlushOf(w, payload, Some(TX))]
  {
    assert Sidecar.Leaves([EntryOf(w, payload)]) == [w.leafOf(payload)];
    assert Texts(s.origin, [EntryOf(w, payload)]) == [payload];
  }

  lemma Confirms(w: World, s: State, payload: string)
    requires IsRecorded(s, payload, Sidecar.Pending) && s.sidecar.flushes == map[1 := FlushOf(w, payload, Some(TX))]
    ensures IsRecorded(Step(w, s, Confirm(1, Some(0))), payload, Sidecar.Confirmed(TX, Some(0)))
  {
    assert Sidecar.Ids([EntryOf(w, payload)]) == {"id"};
  }

  lemma Asks(w: World, s: State, payload: string)
    requires IsRecorded(s, payload, Sidecar.Confirmed(TX, Some(0)))
    ensures var t := Step(w, Step(w, s, Snapshot), Ask(1));
            && t == s.(snapshot := map[], reply := Some(Reply(1, "id", Sidecar.Confirmed(TX, Some(0)))))
  {
    assert (PENDING + "id")[|PENDING|..] == "id";
    assert PendingMessages(s.tables) == map[1 := "id"];
  }

  lemma Batches(w: World, s: State, payload: string)
    requires IsPending(w, s, payload, [EntryOf(w, payload)], map[])
    ensures IsRecorded(Three(w, s, BATCHING), payload, Sidecar.Confirmed(TX, Some(0)))
  {
    Flushes(w, s, payload);
    Mines(w, Step(w, s, Flush(1)), payload);
    Confirms(w, Step(w, Step(w, s, Flush(1)), Mine(1, TX, 0)), payload);
  }

  lemma Resolves(w: World, s: State, payload: string)
    requires IsRecorded(s, payload, Sidecar.Confirmed(TX, Some(0)))
    ensures var t := Three(w, s, RESOLVING); HasMessage(t, payload, TX) && t.texts == s.texts
  {
    Asks(w, s, payload);
  }

  lemma RunNine(w: World, start: State, a: seq<Event>, b: seq<Event>, c: seq<Event>)
    requires |a| == |b| == |c| == 3
    ensures Run(w, start, a + b + c) == Three(w, Three(w, Three(w, start, a), b), c)
  {
    assert [] + a == a;
    RunThree(w, start, [], a);
    RunThree(w, start, a, b);
    RunThree(w, start, a + b, c);
  }

  /** The run exists, for every payload: the message ends up resolved to the transaction, alone in its batch. */
  lemma {:induction false} OneMessageResolves(w: World, payload: string)
    requires payload != ""
    ensures var s := Run(w, OneUser(w), OneMessage(payload));
            HasMessage(s, payload, TX) && s.texts == map[TX := [payload]]
  {
    RunNine(w, OneUser(w), Posting(payload), BATCHING, RESOLVING);
    var s3 := Three(w, OneUser(w), Posting(payload));
    Posts(w, payload);
    Batches(w, s3, payload);
    Resolves(w, Three(w, s3, BATCHING), payload);
  }

  /** At the end the page passes it exactly if trimming leaves a text that hashes like the payload. */
  lemma {:induction false} OneMessagePassesIff(w: World, payload: string)
    requires payload != ""
    ensures var s := Run(w, OneUser(w), OneMessage(payload));
            && IsResolved(s, 1)
            && (PagePasses(w, s, 1) <==>
                  Trim(payload) != "" && Lower(w.leafOf(payload)) == Lower(w.leafOf(Trim(payload))))
  {
    var start := OneUser(w);
    GoodStart(w, start.tables, start.ledger);
    OneMessageResolves(w, payload);
    ResolvedMessagePassesIff(w, start, OneMessage(payload), 1);
    assert [payload][0] == payload;
  }

  /**
   The same run with and without a space at the end: the page passes "x", and it
   passes "x " only if the two hash alike, although nothing changed the message.
   */
  lemma {:induction false} PaddedPayloadFails(w: World)
    ensures var padded, plain := Run(w, OneUser(w), OneMessage("x ")), Run(w, OneUser(w), OneMessage("x"));
            && IsResolved(padded, 1) && padded.tables.messages[1].payload == "x "
            && IsResolved(plain, 1) && plain.tables.messages[1].payload == "x"
            && PagePasses(w, plain, 1)
            && (PagePasses(w, padded, 1) <==> Lower(w.leafOf("x ")) == Lower(w.leafOf("x")))
  {
    OneMessageResolves(w, "x ");
    OneMessageResolves(w, "x");
    OneMessagePassesIff(w, "x ");
    OneMessagePassesIff(w, "x");
    assert "x "[..1] == "x" && Trim("x") == "x" && Trim("x ") == "x";
  }

  // ---------------------------------------------------------------------------
  // A batch that fails
  // ---------------------------------------------------------------------------

  /** The flush throws before its transaction is mined; then the resolver takes a snapshot. */
  function Failing(error: string): seq<Event> {
    [Flush(1), Fail(1, error), Snapshot]
  }

  /** The resolver asks and writes; a second snapshot follows. */
  const CLEARING: seq<Event> := [Ask(1), Resolve, Snapshot]

  lemma Fails(w: World, s: State, payload: string, error: string)
    requires IsPending(w, s, payload, [], map[1 := FlushOf(w, payload, None)])
    ensures var t := Step(w, s, Fail(1, error));
            && HasMessage(t, payload, PENDING + "id") && t.sidecar.results == map["id" := Sidecar.Failed(error)]
  {
    assert Sidecar.Ids([EntryOf(w, payload)]) == {"id"};
  }

  lemma Snapshots(w: World, s: State, payload: string)
    requires HasMessage(s, payload, PENDING + "id")
    ensures Step(w, s, Snapshot) == s.(snapshot := map[1 := "id"])
  {
    assert (PENDING + "id")[|PENDING|..] == "id";
    assert PendingMessages(s.tables) == map[1 := "id"];
  }

  lemma AsksFailed(w: World, s: State, payload: string, error: string)
    requires HasMessage(s.(snapshot := map[]), payload, PENDING + "id") && s.snapshot == map[1 := "id"]
    requires s.sidecar.results == map["id" := Sidecar.Failed(error)]
    ensures Step(w, s, Ask(1)) == s.(snapshot := map[], reply := Some(Reply(1, "id", Sidecar.Failed(error))))
  {
  }

  lemma Forgets(w: World, s: State, payload: string, error: string)
    requires s.snapshot == map[] && s.reply == Some(Reply(1, "id", Sidecar.Failed(error)))
    requires s.tables.messages == map[1 := Message(1, 1, payload, 0, PENDING + "id")]
    ensures HasMessage(Step(w, s, Resolve), payload, "")
  {
    ResolverSets(s, s.reply.value);
  }

  lemma NothingPending(w: World, s: State, payload: string)
    requires HasMessage(s, payload, "")
    ensures Step(w, s, Snapshot) == s
  {
    assert PendingMessages(s.tables) == map[];
  }

  lemma Clears(w: World, s: State, payload: string, error: string)
    requires HasMessage(s.(snapshot := map[]), payload, PENDING + "id") && s.snapshot == map[1 := "id"]
    requires s.sidecar.results == map["id" := Sidecar.Failed(error)]
    ensures HasMessage(Three(w, s, CLEARING), payload, "")
  {
    AsksFailed(w, s, payload, error);
    Forgets(w, Step(w, s, Ask(1)), payload, error);
    NothingPending(w, Step(w, Step(w, s, Ask(1)), Resolve), payload);
  }

  /** After a failed batch the message is back without a digest, neither pending nor resolved. */
  lemma {:induction false} FailedMessageIsCleared(w: World, payload: string, error: string)
    requires payload != ""
    ensures var s := Run(w, OneUser(w), Posting(payload) + Failing(error) + CLEARING);
            HasMessage(s, payload, "") && !IsResolved(s, 1)
  {
    RunNine(w, OneUser(w), Posting(payload), Failing(error), CLEARING);
    Posts(w, payload);
    var s := Three(w, OneUser(w), Posting(payload));
    Flushes(w, s, payload);
    Fails(w, Step(w, s, Flush(1)), payload, error);
    var t := Step(w, Step(w, s, Flush(1)), Fail(1, error));
    Snapshots(w, t, payload);
    Clears(w, t.(snapshot := map[1 := "id"]), payload, error);
  }
}
