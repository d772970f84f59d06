/**
 The batching service: messages are queued, and a timer sends the whole queue
 to the contract as one batch. Sending takes time, so several batches can be
 under way at once.
 */
module Sidecar {
  import opened Wrappers
  import opened Merkle

  datatype Entry = Entry(pendingId: string, conversationId: nat, msgId: nat, leaf: Hash)

  datatype Status = Pending | Confirmed(txHash: string, batchId: Option<nat>) | Failed(error: string)

  type Results = map<string, Status>

  function Leaves(batch: seq<Entry>): (r: seq<Hash>)
    ensures |r| == |batch| && forall i :: 0 <= i < |r| ==> r[i] == batch[i].leaf
  {
    seq(|batch|, i requires 0 <= i < |batch| => batch[i].leaf)
  }

  function Ids(batch: seq<Entry>): set<string> {
    set e | e in batch :: e.pendingId
  }

  /** Every entry of the batch gets the status; the others keep theirs. */
  function Settle(results: Results, batch: seq<Entry>, status: Status): (r: Results)
    ensures forall id :: id in r <==> id in results || id in Ids(batch)
    ensures forall id :: id in r ==> r[id] == if id in Ids(batch) then status else results[id]
  {
    map id | id in results.Keys + Ids(batch) :: if id in Ids(batch) then status else results[id]
  }

  lemma SettleOneMore(results: Results, batch: seq<Entry>, e: Entry, status: Status)
    ensures Settle(results, batch + [e], status) == Settle(results, batch, status)[e.pendingId := status]
  {
  }

  /**
   A batch taken from the queue, with the root computed for it. A flush whose
   call threw is abandoned: its entries have failed, but its transaction may
   still be mined.
   */
  datatype Flush = Flush(batch: seq<Entry>, root: Hash, minedIn: Option<string>, abandoned: bool)

  class Service {
    var queue: seq<Entry>
    var pendingResults: Results

    constructor ()
      ensures queue == [] && pendingResults == map[]
    {
      queue := [];
      pendingResults := map[];
    }

    /** Queues a message; `pendingId` is a new random identifier. */
    method Record(conversationId: nat, msgId: nat, ciphertext: string, leafOf: string -> Hash, pendingId: string)
      returns (result: Result<string, nat>)
      modifies this
      ensures ciphertext == "" ==> result == Err(400) && queue == old(queue) && pendingResults == old(pendingResults)
      ensures ciphertext != "" ==>
        && result == Ok(pendingId)
        && queue == old(queue) + [Entry(pendingId, conversationId, msgId, leafOf(ciphertext))]
        && pendingResults == old(pendingResults)[pendingId := Pending]
    {
      if ciphertext == "" {
        return Err(400);
      }
      queue := queue + [Entry(pendingId, conversationId, msgId, leafOf(ciphertext))];
      pendingResults := pendingResults[pendingId := Pending];
      result := Ok(pendingId);
    }

    /** The synchronous first part of a flush: takes the whole queue and computes its root. */
    method BeginFlush(h: Keccak) returns (flush: Option<Flush>)
      modifies this
      ensures pendingResults == old(pendingResults) && queue == []
      ensures flush == if old(queue) == [] then None
                       else Some(Flush(old(queue), Root(h, Leaves(old(queue))), None, false))
    {
      if |queue| == 0 {
        return None;
      }
      var batch := queue;
      queue := [];
      var root := BuildMerkleRoot(h, Leaves(batch));
      flush := Some(Flush(batch, root.value, None, false));
    }

    /** The last part of a flush, after the contract call went through or threw. */
    method FinishFlush(batch: seq<Entry>, status: Status)
      modifies this
      ensures queue == old(queue)
      ensures pendingResults == Settle(old(pendingResults), batch, status)
    {
      for i := 0 to |batch|
        invariant queue == old(queue)
        invariant pendingResults == Settle(old(pendingResults), batch[..i], status)
      {
        assert batch[..i + 1] == batch[..i] + [batch[i]];
        SettleOneMore(old(pendingResults), batch[..i], batch[i], status);
        pendingResults := pendingResults[batch[i].pendingId := status];
      }
      assert batch[..|batch|] == batch;
    }
  }

  // ---------------------------------------------------------------------------
  // Runs
  // ---------------------------------------------------------------------------

  /** `submitted` is the history of all entries that reached the contract. */
  datatype State = State(queue: seq<Entry>, results: Results, flushes: map<nat, Flush>, submitted: seq<Entry>)

  datatype Event =
    | Recorded(entry: Entry)
    | Begun(flushId: nat)
    | Mined(flushId: nat, txHash: string)
    | Done(flushId: nat, batchId: Option<nat>)
    | Thrown(flushId: nat, error: string)

  const START := State([], map[], map[], [])

  /**
   One step. Random and flush identifiers do not repeat. A batch is confirmed
   only once mined; waiting for it may throw at any time, before or after its
   transaction is mined.
   */
  function Step(h: Keccak, s: State, e: Event): State {
    match e
    case Recorded(entry) =>
      if entry.pendingId in s.results then s
      else s.(queue := s.queue + [entry], results := s.results[entry.pendingId := Pending])
    case Begun(f) =>
      if f in s.flushes || s.queue == [] then s
      else s.(queue := [], flushes := s.flushes[f := Flush(s.queue, Root(h, Leaves(s.queue)), None, false)])
    case Mined(f, tx) =>
      if f !in s.flushes || s.flushes[f].minedIn.Some? then s
      else s.(flushes := s.flushes[f := s.flushes[f].(minedIn := Some(tx))],
              submitted := s.submitted + s.flushes[f].batch)
    case Done(f, batchId) =>
      if f !in s.flushes || s.flushes[f].abandoned || s.flushes[f].minedIn.None? then s
      else s.(flushes := s.flushes - {f},
              results := Settle(s.results, s.flushes[f].batch, Confirmed(s.flushes[f].minedIn.value, batchId)))
    case Thrown(f, error) =>
      if f !in s.flushes || s.flushes[f].abandoned then s
      else s.(flushes := s.flushes[f := s.flushes[f].(abandoned := true)],
              results := Settle(s.results, s.flushes[f].batch, Failed(error)))
  }

  function Run(h: Keccak, events: seq<Event>): State {
    if events == [] then START else Step(h, Run(h, events[..|events| - 1]), events[|events| - 1])
  }

  predicate NoRepeats(batch: seq<Entry>) {
    forall i, j :: 0 <= i < j < |batch| ==> batch[i].pendingId != batch[j].pendingId
  }

  /** Where an unresolved entry is. */
  predicate Queued(s: State, id: string) { id in Ids(s.queue) }

  /** The entry is in a batch that is under way or abandoned. */
  predicate Taken(s: State, id: string, f: nat) { f in s.flushes && id in Ids(s.flushes[f].batch) }

  predicate InFlush(s: State, id: string, f: nat) { Taken(s, id, f) && !s.flushes[f].abandoned }

  ghost predicate Conserved(s: State) {
    && NoRepeats(s.queue)
    && (forall f :: f in s.flushes ==> NoRepeats(s.flushes[f].batch))
    && (forall id :: Queued(s, id) ==> id in s.results && s.results[id].Pending?)
    && (forall id, f :: Taken(s, id, f) ==>
          id in s.results && !Queued(s, id) && s.results[id].Pending? == !s.flushes[f].abandoned)
    && (forall id, f, g :: Taken(s, id, f) && Taken(s, id, g) ==> f == g)
    && (forall id :: id in s.results && s.results[id].Pending? ==> Queued(s, id) || exists f :: InFlush(s, id, f))
  }

  ghost predicate SubmittedOnce(s: State) {
    && NoRepeats(s.submitted)
    && (forall id :: id in Ids(s.submitted) ==> id in s.results && !Queued(s, id))
    && (forall id, f :: Taken(s, id, f) && s.flushes[f].minedIn.None? ==> id !in Ids(s.submitted))
  }

  lemma NoRepeatsConcat(a: seq<Entry>, b: seq<Entry>)
    requires NoRepeats(a) && NoRepeats(b) && Ids(a) !! Ids(b)
    ensures NoRepeats(a + b) && Ids(a + b) == Ids(a) + Ids(b)
  {
    var c := a + b;
    forall i, j | 0 <= i < j < |c| ensures c[i].pendingId != c[j].pendingId {
      if i < |a| <= j {
        assert a[i].pendingId in Ids(a) && b[j - |a|].pendingId in Ids(b);
      }
    }
  }

  lemma TakingConserves(h: Keccak, s: State, f: nat)
    requires Conserved(s) && f !in s.flushes && s.queue != []
    ensures Conserved(Step(h, s, Begun(f)))
  {
    var t := Step(h, s, Begun(f));
    assert forall id, g :: Taken(t, id, g) <==> Taken(s, id, g) || (g == f && Queued(s, id));
    assert forall id :: !Queued(t, id);
    forall id | id in t.results && t.results[id].Pending? ensures exists g :: InFlush(t, id, g) {
      if Queued(s, id) {
        assert InFlush(t, id, f);
      } else {
        var g :| InFlush(s, id, g);
        assert InFlush(t, id, g);
      }
    }
  }

  lemma RecordingConserves(h: Keccak, s: State, entry: Entry)
    requires Conserved(s)
    ensures Conserved(Step(h, s, Recorded(entry)))
  {
    var t := Step(h, s, Recorded(entry));
    if entry.pendingId !in s.results {
      assert Ids([entry]) == {entry.pendingId};
      NoRepeatsConcat(s.queue, [entry]);
      assert forall id, f :: Taken(t, id, f) == Taken(s, id, f);
      assert forall id, f :: InFlush(t, id, f) == InFlush(s, id, f);
      assert forall id :: Queued(t, id) <==> Queued(s, id) || id == entry.pendingId;
    }
  }

  lemma MiningConserves(h: Keccak, s: State, f: nat, tx: string)
    requires Conserved(s)
    ensures Conserved(Step(h, s, Mined(f, tx)))
  {
    var t := Step(h, s, Mined(f, tx));
    assert forall id, g :: Taken(t, id, g) == Taken(s, id, g);
    assert forall id, g :: InFlush(t, id, g) == InFlush(s, id, g);
    assert forall id :: Queued(t, id) == Queued(s, id);
  }

  lemma PendingElsewhere(s: State, t: State, f: nat)
    requires Conserved(s) && t.queue == s.queue
    requires forall id, g :: InFlush(t, id, g) <==> InFlush(s, id, g) && g != f
    requires forall id :: id in t.results && t.results[id].Pending? ==>
      id in s.results && s.results[id].Pending? && !InFlush(s, id, f)
    ensures forall id :: id in t.results && t.results[id].Pending? ==> Queued(t, id) || exists g :: InFlush(t, id, g)
  {
    forall id | id in t.results && t.results[id].Pending? ensures Queued(t, id) || exists g :: InFlush(t, id, g) {
      if !Queued(s, id) {
        var g :| InFlush(s, id, g);
        assert InFlush(t, id, g);
      }
    }
  }

  lemma RemovalConserves(s: State, f: nat, status: Status)
    requires Conserved(s) && f in s.flushes && !s.flushes[f].abandoned && !status.Pending?
    ensures Conserved(s.(flushes := s.flushes - {f}, results := Settle(s.results, s.flushes[f].batch, status)))
  {
    var t := s.(flushes := s.flushes - {f}, results := Settle(s.results, s.flushes[f].batch, status));
    assert forall id, g :: Taken(t, id, g) <==> Taken(s, id, g) && g != f;
    assert forall id, g :: InFlush(t, id, g) <==> InFlush(s, id, g) && g != f;
    assert forall id :: Queued(t, id) == Queued(s, id);
    assert forall id :: id in Ids(s.flushes[f].batch) <==> Taken(s, id, f);
    PendingElsewhere(s, t, f);
  }

  lemma AbandoningConserves(s: State, f: nat, status: Status)
    requires Conserved(s) && f in s.flushes && !s.flushes[f].abandoned && !status.Pending?
    ensures Conserved(s.(flushes := s.flushes[f := s.flushes[f].(abandoned := true)],
                         results := Settle(s.results, s.flushes[f].batch, status)))
  {
    var t := s.(flushes := s.flushes[f := s.flushes[f].(abandoned := true)],
                results := Settle(s.results, s.flushes[f].batch, status));
    assert forall id, g :: Taken(t, id, g) == Taken(s, id, g);
    assert forall id, g :: InFlush(t, id, g) <==> InFlush(s, id, g) && g != f;
    assert forall id :: Queued(t, id) == Queued(s, id);
    assert forall id :: id in Ids(s.flushes[f].batch) <==> Taken(s, id, f);
    PendingElsewhere(s, t, f);
  }

  lemma StepConserves(h: Keccak, s: State, e: Event)
    requires Conserved(s)
    ensures Conserved(Step(h, s, e))
  {
    match e
    case Recorded(entry) => RecordingConserves(h, s, entry);
    case Begun(f) => if f !in s.flushes && s.queue != [] { TakingConserves(h, s, f); }
    case Mined(f, tx) => MiningConserves(h, s, f, tx);
    case Done(f, batchId) =>
      if f in s.flushes && !s.flushes[f].abandoned && s.flushes[f].minedIn.Some? {
        RemovalConserves(s, f, Confirmed(s.flushes[f].minedIn.value, batchId));
      }
    case Thrown(f, error) =>
      if f in s.flushes && !s.flushes[f].abandoned {
        AbandoningConserves(s, f, Failed(error));
      }
  }

  lemma MiningSubmitsOnce(h: Keccak, s: State, f: nat, tx: string)
    requires Conserved(s) && SubmittedOnce(s)
    ensures SubmittedOnce(Step(h, s, Mined(f, tx)))
  {
    var t := Step(h, s, Mined(f, tx));
    assert forall id, g :: Taken(t, id, g) == Taken(s, id, g);
    if f in s.flushes && s.flushes[f].minedIn.None? {
      assert forall id :: id in Ids(s.flushes[f].batch) <==> Taken(s, id, f);
      NoRepeatsConcat(s.submitted, s.flushes[f].batch);
    }
  }

  lemma StepSubmitsOnce(h: Keccak, s: State, e: Event)
    requires Conserved(s) && SubmittedOnce(s)
    ensures SubmittedOnce(Step(h, s, e))
  {
    var t := Step(h, s, e);
    match e
    case Recorded(entry) =>
      if entry.pendingId !in s.results {
        assert Ids([entry]) == {entry.pendingId};
        NoRepeatsConcat(s.queue, [entry]);
        assert forall id, f :: Taken(t, id, f) == Taken(s, id, f);
      }
    case Begun(f) =>
      assert forall id, g :: Taken(t, id, g) ==> Taken(s, id, g) || (g == f && Queued(s, id));
    case Mined(f, tx) => MiningSubmitsOnce(h, s, f, tx);
    case Done(f, batchId) =>
      assert forall id, g :: Taken(t, id, g) ==> Taken(s, id, g);
    case Thrown(f, error) =>
      assert forall id, g :: Taken(t, id, g) ==> Taken(s, id, g);
  }

  lemma {:induction false} RunConserves(h: Keccak, events: seq<Event>)
    ensures Conserved(Run(h, events)) && SubmittedOnce(Run(h, events))
  {
    if events != [] {
      RunConserves(h, events[..|events| - 1]);
      StepConserves(h, Run(h, events[..|events| - 1]), events[|events| - 1]);
      StepSubmitsOnce(h, Run(h, events[..|events| - 1]), events[|events| - 1]);
    }
  }

  /**
   In every reachable state each recorded identifier is in exactly one place:
   in the queue, in one batch under way, or resolved.
   */
  lemma InExactlyOnePlace(h: Keccak, events: seq<Event>, id: string)
    requires id in Run(h, events).results
    ensures var s := Run(h, events);
            var resolved := !s.results[id].Pending?;
            && (resolved <==> !Queued(s, id) && forall f :: !InFlush(s, id, f))
            && !(Queued(s, id) && exists f :: InFlush(s, id, f))
            && (forall f, g :: InFlush(s, id, f) && InFlush(s, id, g) ==> f == g)
  {
    RunConserves(h, events);
  }

  /** Even when flushes overlap, no entry reaches the contract twice. */
  lemma SubmittedAtMostOnce(h: Keccak, events: seq<Event>, i: nat, j: nat)
    requires i < j < |Run(h, events).submitted|
    ensures Run(h, events).submitted[i].pendingId != Run(h, events).submitted[j].pendingId
  {
    RunConserves(h, events);
  }

  lemma ResolvedStep(h: Keccak, s: State, e: Event, id: string)
    requires Conserved(s) && id in s.results && !s.results[id].Pending?
    ensures id in Step(h, s, e).results && Step(h, s, e).results[id] == s.results[id]
  {
    if (e.Done? || e.Thrown?) && e.flushId in s.flushes && !s.flushes[e.flushId].abandoned {
      assert !Taken(s, id, e.flushId);
    }
  }

  lemma RunStep(h: Keccak, events: seq<Event>, more: seq<Event>)
    requires more != []
    ensures var n := |more| - 1;
            Run(h, events + more) == Step(h, Run(h, events + more[..n]), more[n])
  {
    assert (events + more)[..|events + more| - 1] == events + more[..|more| - 1];
  }

  /** A confirmed or failed status never changes. */
  lemma {:induction false} ResolvedIsFinal(h: Keccak, events: seq<Event>, more: seq<Event>, id: string)
    requires id in Run(h, events).results && !Run(h, events).results[id].Pending?
    ensures id in Run(h, events + more).results
    ensures Run(h, events + more).results[id] == Run(h, events).results[id]
  {
    if more == [] {
      assert events + more == events;
    } else {
      var n := |more| - 1;
      var before := Run(h, events + more[..n]);
      ResolvedIsFinal(h, events, more[..n], id);
      RunConserves(h, events + more[..n]);
      ResolvedStep(h, before, more[n], id);
      RunStep(h, events, more);
    }
  }
}
