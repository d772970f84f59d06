/** The contract that records one Merkle root per batch and emits the batch's leaves. */
module MessageIntegrity {
  import opened Wrappers
  import opened Merkle

  datatype Batch = Batch(root: Hash, timestamp: nat, messageCount: nat)

  datatype BatchRecorded = BatchRecorded(batchId: nat, root: Hash, timestamp: nat, messageCount: nat, leaves: seq<Hash>)

  datatype Revert = Unauthorized | EmptyBatch | Overflow

  const MAX_UINT256: nat := 0xFFFF_FFFF_FFFF_FFFF_FFFF_FFFF_FFFF_FFFF_FFFF_FFFF_FFFF_FFFF_FFFF_FFFF_FFFF_FFFF

  datatype Ledger = Ledger(owner: string, batches: map<nat, Batch>, nextBatchId: nat)

  /** The event a call emits, unless it reverts. */
  function Emitted(l: Ledger, caller: string, root: Hash, leaves: seq<Hash>, now: nat): Result<BatchRecorded, Revert> {
    if caller != l.owner then Err(Unauthorized)
    else if leaves == [] then Err(EmptyBatch)
    else if l.nextBatchId >= MAX_UINT256 then Err(Overflow)
    else Ok(BatchRecorded(l.nextBatchId, root, now, |leaves|, leaves))
  }

  function Recorded(l: Ledger, e: BatchRecorded): Ledger {
    l.(batches := l.batches[e.batchId := Batch(e.root, e.timestamp, e.messageCount)], nextBatchId := e.batchId + 1)
  }

  class Contract {
    const owner: string
    var batches: map<nat, Batch>
    var nextBatchId: nat

    ghost function State(): Ledger
      reads this
    {
      Ledger(owner, batches, nextBatchId)
    }

    constructor (deployer: string)
      ensures State() == Ledger(deployer, map[], 0)
    {
      owner := deployer;
      batches := map[];
      nextBatchId := 0;
    }

    method RecordBatch(caller: string, root: Hash, leaves: seq<Hash>, now: nat)
      returns (result: Result<BatchRecorded, Revert>)
      modifies this
      ensures result == Emitted(old(State()), caller, root, leaves, now)
      ensures State() == if result.Ok? then Recorded(old(State()), result.value) else old(State())
    {
      if caller != owner {
        return Err(Unauthorized);
      }
      if |leaves| == 0 {
        return Err(EmptyBatch);
      }
      if nextBatchId >= MAX_UINT256 {
        return Err(Overflow);
      }
      var batchId := nextBatchId;
      nextBatchId := nextBatchId + 1;
      batches := batches[batchId := Batch(root, now, |leaves|)];
      result := Ok(BatchRecorded(batchId, root, now, |leaves|, leaves));
    }
  }

  datatype Call = Call(caller: string, root: Hash, leaves: seq<Hash>, now: nat)

  function After(l: Ledger, calls: seq<Call>): Ledger {
    if calls == [] then l
    else
      var before, c := After(l, calls[..|calls| - 1]), calls[|calls| - 1];
      var e := Emitted(before, c.caller, c.root, c.leaves, c.now);
      if e.Ok? then Recorded(before, e.value) else before
  }

  lemma {:induction false} IdsOnlyGrow(l: Ledger, calls: seq<Call>)
    requires forall i :: i in l.batches ==> i < l.nextBatchId
    ensures var after := After(l, calls);
            && after.owner == l.owner && l.nextBatchId <= after.nextBatchId
            && (forall i :: i in after.batches ==> i < after.nextBatchId)
            && (forall i :: i in l.batches ==> i in after.batches && after.batches[i] == l.batches[i])
  {
    if calls != [] {
      IdsOnlyGrow(l, calls[..|calls| - 1]);
    }
  }

  /** The batches that calls of the owner with leaves put on record, in order, while identifiers last. */
  function OwnersBatches(owner: string, next: nat, calls: seq<Call>): seq<Batch> {
    if calls == [] then []
    else
      var before, c := OwnersBatches(owner, next, calls[..|calls| - 1]), calls[|calls| - 1];
      if c.caller == owner && c.leaves != [] && next + |before| < MAX_UINT256
      then before + [Batch(c.root, c.now, |c.leaves|)] else before
  }

  /** What is on record after any calls is what was, and exactly the owner's batches, under consecutive identifiers. */
  lemma {:induction false} OnRecordIffByOwner(l: Ledger, calls: seq<Call>)
    requires forall i :: i in l.batches ==> i < l.nextBatchId
    ensures var after, added := After(l, calls), OwnersBatches(l.owner, l.nextBatchId, calls);
            && after.owner == l.owner && after.nextBatchId == l.nextBatchId + |added|
            && (forall i :: i in after.batches <==>
                  i in l.batches || l.nextBatchId <= i < l.nextBatchId + |added|)
            && (forall i :: i in l.batches ==> after.batches[i] == l.batches[i])
            && (forall k :: 0 <= k < |added| ==> after.batches[l.nextBatchId + k] == added[k])
  {
    if calls != [] {
      OnRecordIffByOwner(l, calls[..|calls| - 1]);
    }
  }

  /** The event names the batch's identifier and carries its root and all its leaves. */
  lemma EventTellsTheBatch(l: Ledger, caller: string, root: Hash, leaves: seq<Hash>, now: nat)
    ensures Emitted(l, caller, root, leaves, now).Ok? <==>
      caller == l.owner && leaves != [] && l.nextBatchId < MAX_UINT256
    ensures Emitted(l, caller, root, leaves, now).Ok? ==>
      var e := Emitted(l, caller, root, leaves, now).value;
      && e.batchId == l.nextBatchId && e.root == root && e.timestamp == now
      && e.leaves == leaves && e.messageCount == |leaves|
      && e.batchId in Recorded(l, e).batches
      && Recorded(l, e).batches[e.batchId] == Batch(e.root, e.timestamp, e.messageCount)
  {
  }

  /** A recorded batch is never overwritten, whoever calls afterwards. */
  lemma RecordsAreFinal(l: Ledger, calls: seq<Call>, batchId: nat)
    requires forall i :: i in l.batches ==> i < l.nextBatchId
    requires batchId in l.batches
    ensures batchId in After(l, calls).batches && After(l, calls).batches[batchId] == l.batches[batchId]
  {
    IdsOnlyGrow(l, calls);
  }

  /**
   Two batches that leave the same root and count on record have the same leaves
   as a set, unless their trees contain a collision.
   */
  lemma {:induction false} RecordBindsLeaves(h: Keccak, a: seq<Hash>, b: seq<Hash>, at: nat, later: nat)
    requires NoCollisionBetween(SortedPair(h), a, b) && a != [] && b != []
    requires Batch(Root(h, a), at, |a|) == Batch(Root(h, b), later, |b|)
    ensures Elements(a) == Elements(b)
  {
    TreesBindLeaves(h, a, b);
  }
}
