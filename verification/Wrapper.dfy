/** `PrioGraphSchedulerWrapper`: the scheduler with its container, as the rest of the system uses it. */
module Wrapper {
  import opened Basics
  import opened Words
  import opened ThreadSets
  import opened Messages
  import opened IdGenerators
  import opened PriorityIds
  import opened BoundedQueue
  import opened Container
  import opened Coupling
  import opened Passes
  import opened Reasons
  import opened Scheduler

  const CONTAINER_CAPACITY: nat := 10240
  const PRIORITY: nat := 0
  const COST: nat := 100

  /** The transactions of a batch that have an id and an age: the three lists are zipped. */
  function Zipped(b: SchedulingBatch): (n: nat)
    ensures n <= |b.transactions| && n <= |b.ids| && n <= |b.maxAges|
    ensures n == |b.transactions| || n == |b.ids| || n == |b.maxAges|
  {
    Min(Min(|b.transactions|, |b.ids|), |b.maxAges|)
  }

  function NewState(b: SchedulingBatch, i: nat): TransactionState
    requires i < Zipped(b)
  {
    Unprocessed(TransactionTTL(b.transactions[i], b.maxAges[i]), PRIORITY, COST)
  }

  ghost function NewEntries(ids: seq<TransactionId>): seq<TransactionPriorityId> {
    seq(|ids|, i requires 0 <= i < |ids| => TransactionPriorityId(PRIORITY, ids[i]))
  }

  /** Every transaction waits with the same priority. */
  ghost predicate Uniform(states: States) {
    forall id :: id in states ==> !states[id].Transitioning? && states[id].priority == PRIORITY
  }

  ghost predicate FreshIds(ids: seq<TransactionId>, states: States) {
    && (forall i, j :: 0 <= i < j < |ids| ==> ids[i] != ids[j])
    && (forall i :: 0 <= i < |ids| ==> ids[i] !in states)
  }

  /** The states once the first `i` transactions of the batch have been inserted. */
  ghost predicate Inserting(b: SchedulingBatch, i: nat, before: States, states: States)
    requires i <= Zipped(b)
  {
    && (forall k: nat :: k < i && b.ids[k] in states ==> states[b.ids[k]] == NewState(b, k))
    && (forall id :: id in states && id !in b.ids[..i] ==> id in before && states[id] == before[id])
  }

  /** Inserts the transactions of a batch, all with the same priority and cost. */
  method InsertBatch(container: TransactionStateContainer, b: SchedulingBatch, ghost inFlight: set<TransactionId>)
    requires Tracks(container.states, container.priorityQueue, inFlight)
    requires |container.priorityQueue| <= container.capacity && FreshIds(b.ids[..Zipped(b)], container.states)
    modifies container
    ensures Tracks(container.states, container.priorityQueue, inFlight)
    ensures |container.priorityQueue| <= container.capacity
    ensures container.priorityQueue ==
      OfferedAll(old(container.priorityQueue), container.capacity, NewEntries(b.ids[..Zipped(b)]))
    ensures IsTop(container.priorityQueue, old(container.priorityQueue) + Elems(NewEntries(b.ids[..Zipped(b)])),
                  container.capacity)
    ensures Inserting(b, Zipped(b), old(container.states), container.states)
  {
    InsertedIsTop(b, container.priorityQueue, container.states, inFlight, container.capacity);
    ghost var queue, before := container.priorityQueue, container.states;
    for i := 0 to Zipped(b)
      invariant SoFar(b, i, queue, before, inFlight, container)
    {
      InsertOne(container, b, i, queue, before, inFlight);
    }
    OfferedFits(queue, container.capacity, NewEntries(b.ids[..Zipped(b)]));
  }

  /** The first `i` transactions of the batch have been inserted, and the books are in order. */
  ghost predicate SoFar(b: SchedulingBatch, i: nat, queue: set<TransactionPriorityId>, before: States,
                        inFlight: set<TransactionId>, container: TransactionStateContainer)
    reads container
  {
    && i <= Zipped(b)
    && Tracks(container.states, container.priorityQueue, inFlight)
    && container.priorityQueue == OfferedAll(queue, container.capacity, NewEntries(b.ids[..i]))
    && Inserting(b, i, before, container.states)
  }

  method InsertOne(container: TransactionStateContainer, b: SchedulingBatch, i: nat,
                   ghost queue: set<TransactionPriorityId>, ghost before: States, ghost inFlight: set<TransactionId>)
    requires i < Zipped(b) && FreshIds(b.ids[..Zipped(b)], before) && SoFar(b, i, queue, before, inFlight, container)
    modifies container
    ensures SoFar(b, i + 1, queue, before, inFlight, container)
  {
    NotYetKnown(b, i, before, container.states);
    OfferedEntry(b, i, queue, container.capacity);
    ghost var states := container.states;
    var dropped := container.InsertNewTransaction(b.ids[i], TransactionTTL(b.transactions[i], b.maxAges[i]),
                                                  PRIORITY, COST, inFlight);
    InsertingNext(b, i, before, states, container.states);
  }

  lemma OfferedEntry(b: SchedulingBatch, i: nat, queue: set<TransactionPriorityId>, capacity: nat)
    requires i < Zipped(b)
    ensures OfferedAll(queue, capacity, NewEntries(b.ids[..i + 1])) ==
      Pushed(OfferedAll(queue, capacity, NewEntries(b.ids[..i])), capacity, TransactionPriorityId(PRIORITY, b.ids[i]))
  {
    var next := TransactionPriorityId(PRIORITY, b.ids[i]);
    OfferedNext(queue, capacity, NewEntries(b.ids[..i]), next);
    assert NewEntries(b.ids[..i + 1]) == NewEntries(b.ids[..i]) + [next];
  }

  /** What a full queue keeps of the waiting and the new are the greatest ids. */
  lemma InsertedIsTop(b: SchedulingBatch, queue: set<TransactionPriorityId>, states: States,
                      inFlight: set<TransactionId>, capacity: nat)
    requires Tracks(states, queue, inFlight) && FreshIds(b.ids[..Zipped(b)], states) && |queue| <= capacity
    ensures var ps := NewEntries(b.ids[..Zipped(b)]);
      IsTop(OfferedAll(queue, capacity, ps), queue + Elems(ps), capacity)
  {
    var ps := NewEntries(b.ids[..Zipped(b)]);
    assert forall i :: 0 <= i < |ps| ==> ps[i].id == b.ids[..Zipped(b)][i];
    PushedAllIsTop(queue, capacity, ps);
  }

  lemma NotYetKnown(b: SchedulingBatch, i: nat, before: States, states: States)
    requires i < Zipped(b) && FreshIds(b.ids[..Zipped(b)], before) && Inserting(b, i, before, states)
    ensures b.ids[i] !in states && b.ids[i] !in b.ids[..i]
  {
    var ids := b.ids[..Zipped(b)];
    assert ids[i] == b.ids[i] && forall k :: 0 <= k < i ==> ids[k] == b.ids[k];
    assert b.ids[i] !in b.ids[..i];
  }

  lemma InsertingNext(b: SchedulingBatch, i: nat, before: States, states: States, states': States)
    requires i < Zipped(b) && Inserting(b, i, before, states) && b.ids[i] !in b.ids[..i]
    requires b.ids[i] in states' ==> states'[b.ids[i]] == NewState(b, i)
    requires forall id :: id in states' && id != b.ids[i] ==> id in states && states'[id] == states[id]
    ensures Inserting(b, i + 1, before, states')
  {
    forall k: nat | k < i + 1 && b.ids[k] in states' ensures states'[b.ids[k]] == NewState(b, k) {
      if k < i { assert b.ids[k] == b.ids[..i][k]; }
    }
    assert b.ids[..i + 1] == b.ids[..i] + [b.ids[i]];
  }

  lemma InsertedUniform(b: SchedulingBatch, before: States, states: States)
    requires Inserting(b, Zipped(b), before, states) && Uniform(before)
    ensures Uniform(states)
  {
    forall id | id in states ensures !states[id].Transitioning? && states[id].priority == PRIORITY {
      if id in b.ids[..Zipped(b)] {
        var k: nat :| k < Zipped(b) && b.ids[k] == id;
      }
    }
  }

  /** A filter that lets everything through. */
  method NoFilters() returns (f: Filters)
    ensures Lenient(f.graph) && forall tx :: f.lock(tx)
  {
    f := Filters((txs: seq<Transaction>, n: nat) => seq(n, i => true), tx => true);
  }

  /** A transaction that was placed follows, on the same worker, every waiting transaction whose id was
      drawn before its own and that conflicts with it. */
  ghost predicate InArrivalOrder(s: Start, p: Pass)
    requires s.Valid()
  {
    forall later, earlier ::
      && later in s.queue && earlier in s.queue && Arrival(earlier.id) < Arrival(later.id)
      && Conflict(s.Uses(earlier), s.Uses(later))
      && later in p.out && p.out[later].Scheduled? ==>
      && earlier in p.out && p.out[earlier].Scheduled?
      && p.out[earlier].attempt < p.out[later].attempt < |p.log|
      && p.log[p.out[earlier].attempt].thread == p.log[p.out[later].attempt].thread
  }

  ghost predicate NoneDropped(out: Outcomes) {
    forall x :: x in out ==> !out[x].Dropped()
  }

  lemma StillUniform(states: States, states': States)
    requires Uniform(states) && SameTerms(states, states')
    ensures Uniform(states')
  {}

  /** Without filters, and with fewer transactions waiting than a pass may place, a thorough pass
      decides about all of them. */
  lemma AllDecided(s: Start, p: Pass, window: nat)
    requires s.Valid() && Passes.Placed(s, p.log, p.who, p.out) && NoneDropped(p.out)
    requires |s.queue| < MAX_TRANSACTIONS_PER_SCHEDULING_PASS && window > 0
    requires
      || |p.who| >= MAX_TRANSACTIONS_PER_SCHEDULING_PASS
      || |PreFilteredIn(p.out)| == window
      || p.out.Keys == s.queue
    ensures p.out.Keys == s.queue
  {
    PlacedFit(s, p.log, p.who, p.out);
    assert PreFilteredIn(p.out) == {};
  }

  lemma PriorityIsArrival(s: Start, p: Pass)
    requires s.Valid() && Sifted(s, p.out) && ConflictOrder(s, p.log, p.out)
    requires Lenient(s.graphFilter) && (forall tx :: s.filter(tx))
    requires forall x :: x in s.queue ==> x.priority == PRIORITY
    ensures InArrivalOrder(s, p) && NoneDropped(p.out)
  {
    forall x | x in p.out ensures !p.out[x].Dropped() {
      assert x in s.queue && (p.out[x].PreFiltered? ==> Answered(s, x, false));
    }
    forall later, earlier |
      && later in s.queue && earlier in s.queue && Arrival(earlier.id) < Arrival(later.id)
      && Conflict(s.Uses(earlier), s.Uses(later))
      && later in p.out && p.out[later].Scheduled?
      ensures earlier in p.out && p.out[earlier].Scheduled?
      ensures p.out[earlier].attempt < p.out[later].attempt < |p.log|
      ensures p.log[p.out[earlier].attempt].thread == p.log[p.out[later].attempt].thread
    {
      assert Less(later, earlier);
      assert Follows(p.log, p.out, later, earlier);
    }
  }

  class PrioGraphSchedulerWrapper {
    const inner: PrioGraphScheduler
    const container: TransactionStateContainer

    ghost predicate Valid()
      reads inner, inner.tracker, inner.tracker.generator, inner.locks, container
    {
      && inner.Valid() && inner.Recorded() && NothingOpen(inner.sys.log, inner.sys.tail)
      && Tracks(container.states, container.priorityQueue, LiveIds(inner.sys.log, inner.sys.released))
      && |container.priorityQueue| <= container.capacity == CONTAINER_CAPACITY && Uniform(container.states)
    }

    constructor (numThreads: nat, maxBlockUnits: nat)
      requires 0 < numThreads <= MAX_THREADS
      ensures Valid() && inner.events == [] && container.states == map[] && container.capacity == 10_240
      ensures inner.numThreads == numThreads && inner.maxBlockUnits == maxBlockUnits
      ensures numThreads <= maxBlockUnits ==> inner.HasRoom()
      ensures fresh(inner) && fresh(inner.tracker) && fresh(inner.tracker.generator) && fresh(inner.locks)
      ensures fresh(container) && inner.tracker.generator.issued == 0
    {
      inner := new PrioGraphScheduler(numThreads, maxBlockUnits);
      container := new TransactionStateContainer(CONTAINER_CAPACITY);
    }

    /** The pass just run placed transactions in arrival order and dropped none. Those that wait are
        those not placed, and each one decided about is held back for a reason. */
    ghost predicate Passed()
      reads inner`start, inner`pass, container
    {
      && PassInv(inner.start, inner.pass) && InArrivalOrder(inner.start, inner.pass) && NoneDropped(inner.pass.out)
      && Justified(inner.start, inner.pass.log, inner.pass.unschedulable)
      && container.priorityQueue == inner.start.queue - Gone(inner.pass.out)
      && SameTerms(inner.start.states, container.states)
    }

    /** Inserts a batch of fresh transactions, of which and of the waiting the container keeps the
        greatest ids, and runs a pass over everything that waits. Unless every worker already has its
        share of work, the pass decides about all of it. */
    method ScheduleBatch(b: SchedulingBatch)
      requires Valid() && FreshIds(b.ids[..Zipped(b)], container.states)
      requires inner.tracker.generator.issued + container.capacity <= U64_MAX + 1
      modifies inner, inner.tracker, inner.tracker.generator, inner.locks, container
      ensures Valid() && old(inner.events) <= inner.events && Passed()
      ensures IsTop(inner.start.queue, old(container.priorityQueue) + Elems(NewEntries(b.ids[..Zipped(b)])),
                    CONTAINER_CAPACITY)
      ensures inner.start.states.Keys == IdsOf(inner.start.queue) + old(LiveIds(inner.sys.log, inner.sys.released))
      ensures Inserting(b, Zipped(b), old(container.states), inner.start.states)
      ensures old(inner.HasRoom()) ==> inner.pass.out.Keys == inner.start.queue
    {
      Insert(b);
      PassOver();
    }

    method Insert(b: SchedulingBatch)
      requires Valid() && FreshIds(b.ids[..Zipped(b)], container.states)
      modifies container
      ensures Valid() && Inserting(b, Zipped(b), old(container.states), container.states)
      ensures IsTop(container.priorityQueue, old(container.priorityQueue) + Elems(NewEntries(b.ids[..Zipped(b)])),
                    CONTAINER_CAPACITY)
      ensures container.states.Keys == IdsOf(container.priorityQueue) + LiveIds(inner.sys.log, inner.sys.released)
    {
      ghost var live := LiveIds(inner.sys.log, inner.sys.released);
      InsertBatch(container, b, live);
      InsertedUniform(b, old(container.states), container.states);
      TracksKeys(container.states, container.priorityQueue, live);
    }

    method PassOver()
      requires Valid() && inner.tracker.generator.issued + container.capacity <= U64_MAX + 1
      modifies inner, inner.tracker, inner.tracker.generator, inner.locks, container
      ensures Valid() && old(inner.events) <= inner.events && Passed()
      ensures inner.start.queue == old(container.priorityQueue) && inner.start.states == old(container.states)
      ensures old(inner.HasRoom()) ==> inner.pass.out.Keys == inner.start.queue
    {
      var summary := Unfiltered();
      Conclude(summary);
    }

    method Unfiltered() returns (r: SchedulingSummary)
      requires Valid() && inner.tracker.generator.issued + container.capacity <= U64_MAX + 1
      modifies inner, inner.tracker, inner.tracker.generator, inner.locks, container
      ensures inner.Valid() && inner.Recorded() && old(inner.events) <= inner.events && inner.PassEnded(container, r)
      ensures inner.start.queue == old(container.priorityQueue) && inner.start.states == old(container.states)
      ensures Lenient(inner.start.graphFilter) && forall tx :: inner.start.filter(tx)
      ensures old(inner.HasRoom()) ==> inner.Thorough(r.numScheduled, r.numFilteredOut)
    {
      var filters := NoFilters();
      r := inner.Schedule(container, filters);
    }

    /** What a pass without filters over transactions of one priority comes to. */
    lemma Conclude(r: SchedulingSummary)
      requires inner.PassEnded(container, r) && Uniform(inner.start.states) && |inner.start.queue| <= CONTAINER_CAPACITY
      requires Lenient(inner.start.graphFilter) && forall tx :: inner.start.filter(tx)
      ensures Passed() && Uniform(container.states)
      ensures inner.Thorough(r.numScheduled, r.numFilteredOut) ==> inner.pass.out.Keys == inner.start.queue
    {
      PriorityIsArrival(inner.start, inner.pass);
      StillUniform(inner.start.states, container.states);
      if inner.Thorough(r.numScheduled, r.numFilteredOut) {
        AllDecided(inner.start, inner.pass, inner.lookAheadWindowSize);
      }
    }

    /** Receives every result. What stays keeps its terms, and nothing new is placed. */
    method ReceiveComplete()
      requires Valid()
      modifies inner`finished, inner`events, inner`sys, inner`slotOf, inner.tracker, inner.locks, container
      ensures Valid() && old(inner.events) <= inner.events && inner.finished == []
      ensures SameTerms(old(container.states), container.states)
      ensures inner.sys.log == old(inner.sys.log) && inner.sys.tail == old(inner.sys.tail)
    {
      var numTransactions, numRetryable := inner.ReceiveCompleted(container);
    }
  }

  // ---- Transactions with ids from the generator ----

  /** Every id known was among the first `issued` to be drawn. */
  ghost predicate Drawn(states: States, issued: nat) {
    forall id :: id in states ==> Arrival(id) < issued
  }

  /** The ids of the batch are the next ones, in sequence. */
  ghost predicate DrawnNext(ids: seq<TransactionId>, issued: nat) {
    forall i :: 0 <= i < |ids| ==> Arrival(ids[i]) == issued + i
  }

  lemma DrawnAreFresh(b: SchedulingBatch, issued: nat, states: States)
    requires Drawn(states, issued) && DrawnNext(b.ids, issued) && Zipped(b) == |b.ids|
    ensures FreshIds(b.ids[..Zipped(b)], states)
  {
    forall i, j | 0 <= i < j < |b.ids| ensures b.ids[i] != b.ids[j] {
      assert Arrival(b.ids[i]) != Arrival(b.ids[j]);
    }
    assert b.ids[..Zipped(b)] == b.ids;
  }

  lemma DrawnKept(states: States, states': States, issued: nat)
    requires Drawn(states, issued) && SameTerms(states, states')
    ensures Drawn(states', issued)
  {}

  lemma DrawnStill(b: SchedulingBatch, issued: nat, before: States, states: States)
    requires Drawn(before, issued) && DrawnNext(b.ids, issued) && Zipped(b) == |b.ids|
    requires Inserting(b, |b.ids|, before, states)
    ensures Drawn(states, issued + |b.ids|)
  {
    forall id | id in states ensures Arrival(id) < issued + |b.ids| {
      if id in b.ids[..|b.ids|] {
        var k :| 0 <= k < |b.ids| && b.ids[k] == id;
      }
    }
  }

  /** The transaction with arrival number `issued + k` is the k-th one submitted, with priority 0 and
      cost 100. */
  ghost predicate AsSubmitted(states: States, issued: nat, transactions: seq<Transaction>, maxAge: MaxAge) {
    forall id :: id in states && Arrival(id) >= issued ==>
      && 0 <= Arrival(id) - issued < |transactions|
      && states[id] == Unprocessed(TransactionTTL(transactions[Arrival(id) - issued], maxAge), 0, 100)
  }

  lemma InsertedAsSubmitted(b: SchedulingBatch, issued: nat, before: States, states: States, maxAge: MaxAge)
    requires Drawn(before, issued) && DrawnNext(b.ids, issued) && Zipped(b) == |b.ids| == |b.transactions|
    requires (forall i :: 0 <= i < |b.maxAges| ==> b.maxAges[i] == maxAge) && Inserting(b, |b.ids|, before, states)
    ensures AsSubmitted(states, issued, b.transactions, maxAge)
  {
    forall id | id in states && Arrival(id) >= issued
      ensures 0 <= Arrival(id) - issued < |b.ids| && b.ids[Arrival(id) - issued] == id
    {
      var k :| 0 <= k < |b.ids| && b.ids[k] == id;
    }
  }

  /** How the scheduler is fed: each chunk of transactions gets the next ids of a generator. */
  class Feed {
    const wrapper: PrioGraphSchedulerWrapper
    const generator: IdGenerator

    ghost predicate Valid()
      reads generator, wrapper.inner, wrapper.inner.tracker, wrapper.inner.tracker.generator, wrapper.inner.locks
      reads wrapper.container
    {
      && wrapper.Valid() && generator.Valid() && generator != wrapper.inner.tracker.generator
      && Drawn(wrapper.container.states, generator.issued)
    }

    constructor (numThreads: nat, maxBlockUnits: nat)
      requires 0 < numThreads <= MAX_THREADS
      ensures Valid() && generator.issued == 0 && wrapper.inner.tracker.generator.issued == 0
      ensures wrapper.inner.numThreads == numThreads && wrapper.inner.maxBlockUnits == maxBlockUnits
    {
      wrapper := new PrioGraphSchedulerWrapper(numThreads, maxBlockUnits);
      generator := new IdGenerator();
    }

    /** Schedules a chunk of transactions and receives what is finished. The ids are fresh, the k-th
        transaction ever submitted has arrival number k, all of them are offered to the container, and
        the pass keeps to that order. */
    method Submit(batchId: BatchId, transactions: seq<Transaction>, maxAge: MaxAge)
      returns (ghost ids: seq<TransactionId>)
      requires Valid() && generator.issued + |transactions| <= U64_MAX + 1
      requires wrapper.inner.tracker.generator.issued + CONTAINER_CAPACITY <= U64_MAX + 1
      modifies generator, wrapper.inner, wrapper.inner.tracker, wrapper.inner.tracker.generator, wrapper.inner.locks
      modifies wrapper.container
      ensures Valid() && generator.issued == old(generator.issued) + |transactions| && wrapper.inner.finished == []
      ensures wrapper.inner.start.Valid() && InArrivalOrder(wrapper.inner.start, wrapper.inner.pass)
      ensures AsSubmitted(wrapper.inner.start.states, old(generator.issued), transactions, maxAge)
      ensures |ids| == |transactions| && DrawnNext(ids, old(generator.issued))
      ensures IsTop(wrapper.inner.start.queue, old(wrapper.container.priorityQueue) + Elems(NewEntries(ids)), 10_240)
    {
      var drawn := generator.Draw(|transactions|);
      ids := drawn;
      var b := SchedulingBatch(batchId, drawn, transactions, seq(|transactions|, i => maxAge));
      ghost var states := wrapper.container.states;
      Deliver(b, old(generator.issued));
      InsertedAsSubmitted(b, old(generator.issued), states, wrapper.inner.start.states, maxAge);
    }

    method Deliver(b: SchedulingBatch, ghost issued: nat)
      requires wrapper.Valid() && Zipped(b) == |b.ids|
      requires Drawn(wrapper.container.states, issued) && DrawnNext(b.ids, issued)
      requires wrapper.inner.tracker.generator.issued + CONTAINER_CAPACITY <= U64_MAX + 1
      modifies wrapper.inner, wrapper.inner.tracker, wrapper.inner.tracker.generator, wrapper.inner.locks
      modifies wrapper.container
      ensures wrapper.Valid() && Drawn(wrapper.container.states, issued + |b.ids|) && wrapper.inner.finished == []
      ensures wrapper.inner.start.Valid() && InArrivalOrder(wrapper.inner.start, wrapper.inner.pass)
      ensures Inserting(b, |b.ids|, old(wrapper.container.states), wrapper.inner.start.states)
      ensures IsTop(wrapper.inner.start.queue, old(wrapper.container.priorityQueue) + Elems(NewEntries(b.ids)),
                    CONTAINER_CAPACITY)
    {
      ScheduleDrawn(b, issued);
      ghost var states := wrapper.container.states;
      wrapper.ReceiveComplete();
      DrawnKept(states, wrapper.container.states, issued + |b.ids|);
    }

    method ScheduleDrawn(b: SchedulingBatch, ghost issued: nat)
      requires wrapper.Valid() && Zipped(b) == |b.ids|
      requires Drawn(wrapper.container.states, issued) && DrawnNext(b.ids, issued)
      requires wrapper.inner.tracker.generator.issued + CONTAINER_CAPACITY <= U64_MAX + 1
      modifies wrapper.inner, wrapper.inner.tracker, wrapper.inner.tracker.generator, wrapper.inner.locks
      modifies wrapper.container
      ensures wrapper.Valid() && Drawn(wrapper.container.states, issued + |b.ids|)
      ensures wrapper.inner.start.Valid() && InArrivalOrder(wrapper.inner.start, wrapper.inner.pass)
      ensures Inserting(b, |b.ids|, old(wrapper.container.states), wrapper.inner.start.states)
      ensures IsTop(wrapper.inner.start.queue, old(wrapper.container.priorityQueue) + Elems(NewEntries(b.ids)),
                    CONTAINER_CAPACITY)
    {
      DrawnAreFresh(b, issued, wrapper.container.states);
      assert b.ids[..Zipped(b)] == b.ids;
      wrapper.ScheduleBatch(b);
      DrawnStill(b, issued, old(wrapper.container.states), wrapper.inner.start.states);
      DrawnKept(wrapper.inner.start.states, wrapper.container.states, issued + |b.ids|);
    }
  }
}
