/** The reverse-sequential id generator. */
module IdGenerators {
  import opened Words

  class IdGenerator {
    var nextId: nat
    ghost var issued: nat

    /** Ids come out as u64::MAX, u64::MAX - 1, ...; after 2^64 of them they start over. */
    ghost predicate Valid()
      reads this
    {
      nextId <= U64_MAX && (issued <= U64_MAX ==> nextId == U64_MAX - issued)
    }

    constructor ()
      ensures Valid() && issued == 0
    {
      nextId := U64_MAX;
      issued := 0;
    }

    method Gen() returns (id: nat)
      requires Valid()
      modifies this
      ensures Valid() && issued == old(issued) + 1
      ensures old(issued) <= U64_MAX ==> id == U64_MAX - old(issued)
    {
      id := nextId;
      nextId := if nextId == 0 then U64_MAX else nextId - 1;
      issued := issued + 1;
    }

    /** One id for each of `count` items, drawn in sequence. */
    method Draw(count: nat) returns (ids: seq<nat>)
      requires Valid() && issued + count <= U64_MAX + 1
      modifies this
      ensures Valid() && issued == old(issued) + count
      ensures |ids| == count && forall i :: 0 <= i < count ==> ids[i] == U64_MAX - old(issued) - i
    {
      ids := [];
      for i := 0 to count
        invariant Valid() && issued == old(issued) + i
        invariant |ids| == i && forall j :: 0 <= j < i ==> ids[j] == U64_MAX - old(issued) - j
      {
        var id := Gen();
        ids := ids + [id];
      }
    }
  }

  /** How many ids were drawn before this one. */
  function Arrival(id: nat): int {
    U64_MAX - id
  }
}

/** `InFlightTracker`: how many transactions and compute units each worker has in flight. */
module InFlight {
  import opened Messages
  import opened Words
  import opened IdGenerators

  datatype BatchEntry = BatchEntry(threadId: nat, numTransactions: nat, totalCus: nat)

  type Tracked = map<BatchId, BatchEntry>

  /** The sum over the tracked batches of thread `t`, of their transactions or of their cost. */
  ghost function Total(batches: Tracked, t: nat, cus: bool): nat
    decreases |batches|
  {
    if batches == map[] then 0
    else
      var id :| id in batches;
      Share(batches[id], t, cus) + Total(batches - {id}, t, cus)
  }

  ghost function Share(entry: BatchEntry, t: nat, cus: bool): nat {
    if entry.threadId != t then 0 else if cus then entry.totalCus else entry.numTransactions
  }

  /** The sum does not depend on the order it is taken in. */
  lemma {:induction false} TotalWithout(batches: Tracked, t: nat, cus: bool, id: BatchId)
    requires id in batches
    ensures Total(batches, t, cus) == Share(batches[id], t, cus) + Total(batches - {id}, t, cus)
    decreases |batches|
  {
    var first :| first in batches &&
      Total(batches, t, cus) == Share(batches[first], t, cus) + Total(batches - {first}, t, cus);
    if first != id {
      TotalWithout(batches - {first}, t, cus, id);
      TotalWithout(batches - {id}, t, cus, first);
      assert batches - {first} - {id} == batches - {id} - {first};
    }
  }

  lemma TotalWith(batches: Tracked, t: nat, cus: bool, id: BatchId, entry: BatchEntry)
    requires id !in batches
    ensures Total(batches[id := entry], t, cus) == Share(entry, t, cus) + Total(batches, t, cus)
  {
    TotalWithout(batches[id := entry], t, cus, id);
    assert batches[id := entry] - {id} == batches;
  }

  class InFlightTracker {
    var numInFlightPerThread: seq<nat>
    var cusInFlightPerThread: seq<nat>
    var batches: Tracked
    const generator: IdGenerator

    /** The counters are the sums over the tracked batches, and no id to come is in use. */
    ghost predicate Valid()
      reads this, generator
    {
      && generator.Valid()
      && |numInFlightPerThread| == |cusInFlightPerThread|
      && (forall id :: id in batches ==> batches[id].threadId < |numInFlightPerThread|)
      && (forall t: nat :: t < |numInFlightPerThread| ==>
            && numInFlightPerThread[t] == Total(batches, t, false)
            && cusInFlightPerThread[t] == Total(batches, t, true))
      && (forall id :: id in batches ==> U64_MAX < id + generator.issued)
    }

    constructor (numThreads: nat)
      ensures Valid() && fresh(generator) && |numInFlightPerThread| == numThreads && batches == map[]
      ensures generator.issued == 0
    {
      numInFlightPerThread := seq(numThreads, i => 0);
      cusInFlightPerThread := seq(numThreads, i => 0);
      batches := map[];
      generator := new IdGenerator();
    }

    method TrackBatch(numTransactions: nat, totalCus: nat, threadId: nat) returns (batchId: BatchId)
      requires Valid() && threadId < |numInFlightPerThread| && generator.issued <= U64_MAX
      modifies this, generator
      ensures Valid() && |numInFlightPerThread| == old(|numInFlightPerThread|)
      ensures batchId !in old(batches)
      ensures batches == old(batches)[batchId := BatchEntry(threadId, numTransactions, totalCus)]
      ensures generator.issued == old(generator.issued) + 1
    {
      batchId := generator.Gen();
      ghost var entry := BatchEntry(threadId, numTransactions, totalCus);
      forall t: nat, cus: bool {
        TotalWith(batches, t, cus, batchId, entry);
      }
      numInFlightPerThread := numInFlightPerThread[threadId := numInFlightPerThread[threadId] + numTransactions];
      cusInFlightPerThread := cusInFlightPerThread[threadId := cusInFlightPerThread[threadId] + totalCus];
      batches := batches[batchId := BatchEntry(threadId, numTransactions, totalCus)];
    }

    /** Panics if the batch is not tracked. The counters never underflow. */
    method CompleteBatch(batchId: BatchId) returns (threadId: nat)
      requires Valid() && batchId in batches
      modifies this
      ensures Valid() && |numInFlightPerThread| == old(|numInFlightPerThread|)
      ensures threadId == old(batches)[batchId].threadId
      ensures batches == old(batches) - {batchId}
    {
      var entry := batches[batchId];
      threadId := entry.threadId;
      forall t: nat, cus: bool {
        TotalWithout(batches, t, cus, batchId);
      }
      batches := batches - {batchId};
      assert numInFlightPerThread[threadId] >= entry.numTransactions;
      assert cusInFlightPerThread[threadId] >= entry.totalCus;
      numInFlightPerThread := numInFlightPerThread[threadId := numInFlightPerThread[threadId] - entry.numTransactions];
      cusInFlightPerThread := cusInFlightPerThread[threadId := cusInFlightPerThread[threadId] - entry.totalCus];
    }
  }

  /** With nothing tracked every counter is zero. */
  lemma IdleCounters(tracker: InFlightTracker)
    requires tracker.Valid() && tracker.batches == map[]
    ensures forall t: nat :: t < |tracker.numInFlightPerThread| ==>
      tracker.numInFlightPerThread[t] == 0 && tracker.cusInFlightPerThread[t] == 0
  {
    forall t: nat | t < |tracker.numInFlightPerThread|
      ensures tracker.numInFlightPerThread[t] == 0 && tracker.cusInFlightPerThread[t] == 0
    {
      assert Total(tracker.batches, t, false) == 0 && Total(tracker.batches, t, true) == 0;
    }
  }

  /** A thread with work in flight has a tracked batch. */
  lemma BusyCounter(tracker: InFlightTracker, t: nat)
    requires tracker.Valid() && t < |tracker.cusInFlightPerThread| && tracker.cusInFlightPerThread[t] > 0
    ensures tracker.batches != map[]
  {
    assert tracker.batches == map[] ==> Total(tracker.batches, t, true) == 0;
  }
}
