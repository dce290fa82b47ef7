/** `PrioGraphScheduler`: places queued transactions on worker threads and takes their results back.
    Every method is shown to move the protocol along enabled steps only. */
module Scheduler {
  import opened Basics
  import opened Words
  import opened ThreadSets
  import opened Messages
  import opened AccountLocks
  import opened ReadWriteSets
  import opened InFlight
  import opened PriorityIds
  import opened BoundedQueue
  import opened Container
  import opened PrioGraphs
  import opened Protocol
  import opened Coupling
  import opened Runs
  import opened Retries
  import opened Passes
  import opened Reasons
  import opened Rounds

  const MAX_FILTER_CHUNK_SIZE: nat := 128

  // ---- Choosing a thread ----

  lemma BestStays(loads: seq<Load>, before: set<nat>, t: nat, best: nat)
    requires BestOf(loads, before, best) && t < |loads| && !loads[t].Below(loads[best]) && best < t
    ensures BestOf(loads, before + {t}, best)
  {}

  lemma BestChanges(loads: seq<Load>, before: set<nat>, t: nat)
    requires t < |loads| && forall u :: u in before ==> u < t && loads[t].Below(loads[u])
    ensures BestOf(loads, before + {t}, t)
  {}

  lemma BelowAll(loads: seq<Load>, before: set<nat>, t: nat, best: nat)
    requires BestOf(loads, before, best) && t < |loads| && loads[t].Below(loads[best])
    requires forall u :: u in before ==> u < t
    ensures forall u :: u in before ==> u < t && loads[t].Below(loads[u])
  {}

  /** The first of the least loaded threads among those of `threads` below `n`. */
  function LeastLoaded(threads: ThreadSet, loads: seq<Load>, n: nat): (r: Option<nat>)
    requires n <= |loads| <= MAX_THREADS
    ensures r.None? <==> threads.Threads() * ThreadSets.Below(n) == {}
    ensures r.Some? ==> BestOf(loads, threads.Threads() * ThreadSets.Below(n), r.value)
  {
    if n == 0 then None
    else
      var best, t := LeastLoaded(threads, loads, n - 1), n - 1;
      ghost var before, now := threads.Threads() * ThreadSets.Below(n - 1), threads.Threads() * ThreadSets.Below(n);
      if !threads.Contains(t) then
        assert now == before;
        best
      else
        assert now == before + {t};
        if best.None? then
          BestChanges(loads, before, t);
          Some(t)
        else if loads[t].Below(loads[best.value]) then
          BelowAll(loads, before, t, best.value);
          BestChanges(loads, before, t);
          Some(t)
        else
          BestStays(loads, before, t, best.value);
          best
  }

  function Loads(batchCus: seq<nat>, inFlightCus: seq<nat>, batches: seq<seq<Transaction>>, inFlight: seq<nat>):
    (r: seq<Load>)
    requires |batchCus| == |inFlightCus| == |batches| == |inFlight|
    ensures |r| == |batchCus|
    ensures forall t: nat :: t < |r| ==> r[t] == Load(batchCus[t] + inFlightCus[t], |batches[t]| + inFlight[t])
  {
    seq(|batchCus|, (t: nat) requires t < |batchCus| =>
      Load(batchCus[t] + inFlightCus[t], |batches[t]| + inFlight[t]))
  }

  /** The thread with the least work queued, the lowest numbered one among equals. Panics on an
      empty set. */
  function SelectThread(threads: ThreadSet, loads: seq<Load>): (r: nat)
    requires |loads| <= MAX_THREADS
    requires threads.Threads() != {} && threads.Threads() <= ThreadSets.Below(|loads|)
    ensures BestOf(loads, threads.Threads(), r) && r < |loads|
    ensures forall t :: t in threads.Threads() ==>
      && t < |loads| && loads[r].cus <= loads[t].cus
      && (loads[r].cus == loads[t].cus ==> loads[r].transactions <= loads[t].transactions)
      && (loads[r] == loads[t] ==> r <= t)
  {
    assert threads.Threads() * ThreadSets.Below(|loads|) == threads.Threads();
    LeastLoaded(threads, loads, |loads|).value
  }

  /** The selector handed to the lock table. */
  function Selector(loads: seq<Load>): (f: ThreadSet --> nat)
    requires |loads| <= MAX_THREADS
    ensures forall s: ThreadSet :: s.Threads() != {} && s.Threads() <= ThreadSets.Below(|loads|) ==>
      f.requires(s) && BestOf(loads, s.Threads(), f(s))
  {
    (s: ThreadSet) requires s.Threads() != {} && s.Threads() <= ThreadSets.Below(|loads|) => SelectThread(s, loads)
  }

  /** The threads below `t` with work below the limit, and all others. */
  ghost function Narrowed(maxCu: nat, inFlightCus: seq<nat>, t: nat): set<nat>
    requires t <= |inFlightCus|
  {
    set u | u in ThreadSets.Below(|inFlightCus|) && (u < t ==> inFlightCus[u] < maxCu)
  }

  lemma NarrowedNext(maxCu: nat, inFlightCus: seq<nat>, t: nat)
    requires t < |inFlightCus|
    ensures Narrowed(maxCu, inFlightCus, t + 1) ==
      if inFlightCus[t] >= maxCu then Narrowed(maxCu, inFlightCus, t) - {t} else Narrowed(maxCu, inFlightCus, t)
  {}

  /** The threads whose work in flight is below the limit. */
  method ThreadsBelow(maxCu: nat, numThreads: nat, inFlightCus: seq<nat>) returns (r: ThreadSet)
    requires numThreads <= MAX_THREADS && numThreads == |inFlightCus|
    ensures forall t: nat :: t in r.Threads() <==> t < numThreads && inFlightCus[t] < maxCu
  {
    r := RawThreadSet.Any(numThreads);
    assert Narrowed(maxCu, inFlightCus, 0) == ThreadSets.Below(numThreads);
    for t := 0 to numThreads
      invariant r.Threads() == Narrowed(maxCu, inFlightCus, t)
    {
      NarrowedNext(maxCu, inFlightCus, t);
      if inFlightCus[t] >= maxCu {
        r := r.Remove(t);
      }
    }
  }

  // ---- The batches being filled ----

  ghost predicate Fills(ids: seq<TransactionId>, txs: seq<Transaction>, ages: seq<MaxAge>, cus: nat,
                        items: seq<Attempt>)
  {
    Carries(ids, txs, ages, items) && cus == TotalCost(items)
  }

  lemma FillsNext(ids: seq<TransactionId>, txs: seq<Transaction>, ages: seq<MaxAge>, cus: nat, items: seq<Attempt>,
                  a: Attempt)
    requires Fills(ids, txs, ages, cus, items)
    ensures Fills(ids + [a.id], txs + [a.ttl.transaction], ages + [a.ttl.maxAge], cus + a.cost, items + [a])
  {
    assert (items + [a])[..|items|] == items;
  }

  class Batches {
    var ids: seq<seq<TransactionId>>
    var transactions: seq<seq<Transaction>>
    var maxAges: seq<seq<MaxAge>>
    var totalCus: seq<nat>

    /** Each batch carries the attempts of its worker's open slot. */
    ghost predicate Match(s: System, n: nat)
      reads this
    {
      && |s.tail| == n == |ids| == |transactions| == |maxAges| == |totalCus|
      && forall t: nat :: t < n ==>
           Fills(ids[t], transactions[t], maxAges[t], totalCus[t], SlotItems(s.log, t, s.tail[t]))
    }

    /** No batch has reached its target size. */
    ghost predicate Open()
      reads this
    {
      forall t: nat :: t < |ids| ==> |ids[t]| < TARGET_NUM_TRANSACTIONS_PER_BATCH
    }

    /** No batch but that of `t` has, and that one just so. */
    ghost predicate OpenBut(t: nat)
      reads this
    {
      && (forall u: nat :: u < |ids| && u != t ==> |ids[u]| < TARGET_NUM_TRANSACTIONS_PER_BATCH)
      && (t < |ids| ==> |ids[t]| <= TARGET_NUM_TRANSACTIONS_PER_BATCH)
    }

    lemma OpenItems(s: System, n: nat, t: nat)
      requires Match(s, n) && Open() && t < n
      ensures |SlotItems(s.log, t, s.tail[t])| < TARGET_NUM_TRANSACTIONS_PER_BATCH
    {
      assert Fills(ids[t], transactions[t], maxAges[t], totalCus[t], SlotItems(s.log, t, s.tail[t]));
    }

    lemma OpenNoneFull(s: System, n: nat)
      requires Match(s, n) && Open()
      ensures NoneFull(s.log, s.tail)
    {
      forall t: nat | t < n ensures |SlotItems(s.log, t, s.tail[t])| < TARGET_NUM_TRANSACTIONS_PER_BATCH {
        OpenItems(s, n, t);
      }
    }

    lemma ItemsInBatch(s: System, n: nat, t: nat)
      requires Match(s, n) && t < n
      ensures |SlotItems(s.log, t, s.tail[t])| == |ids[t]|
    {
      assert Fills(ids[t], transactions[t], maxAges[t], totalCus[t], SlotItems(s.log, t, s.tail[t]));
    }

    constructor (numThreads: nat, ghost s: System)
      requires |s.tail| == numThreads && NothingOpen(s.log, s.tail)
      ensures Match(s, numThreads) && Open()
    {
      ids := seq(numThreads, i => []);
      transactions := seq(numThreads, i => []);
      maxAges := seq(numThreads, i => []);
      totalCus := seq(numThreads, i => 0);
      new;
      forall t: nat | t < numThreads ensures SlotItems(s.log, t, s.tail[t]) == [] {
        SlotItemsNone(s.log, t, s.tail[t]);
      }
    }

    method Add(t: nat, id: TransactionId, ttl: TransactionTTL, cost: nat, ghost a: Attempt, ghost s: System,
               ghost n: nat)
      requires Match(s, n) && Open() && t < n && a == Attempt(id, ttl, cost, t, s.tail[t])
      modifies this
      ensures Match(Extended(s, a), n) && OpenBut(t)
    {
      ghost var s' := Extended(s, a);
      FillsNext(ids[t], transactions[t], maxAges[t], totalCus[t], SlotItems(s.log, t, s.tail[t]), a);
      forall u: nat | u < n
        ensures SlotItems(s'.log, u, s.tail[u]) ==
          if u == t then SlotItems(s.log, t, s.tail[t]) + [a] else SlotItems(s.log, u, s.tail[u])
      {
        SlotItemsNext(s.log, a, u, s.tail[u]);
      }
      transactions := transactions[t := transactions[t] + [ttl.transaction]];
      ids := ids[t := ids[t] + [id]];
      maxAges := maxAges[t := maxAges[t] + [ttl.maxAge]];
      totalCus := totalCus[t := totalCus[t] + cost];
    }

    /** Takes the batch of `t`, leaving an empty one. */
    method TakeBatch(t: nat, ghost s: System, ghost n: nat)
      returns (batchIds: seq<TransactionId>, txs: seq<Transaction>, ages: seq<MaxAge>, cus: nat)
      requires Match(s, n) && OpenBut(t) && WellFormed(s, n) && t < n
      modifies this
      ensures batchIds == old(ids)[t]
      ensures Fills(batchIds, txs, ages, cus, SlotItems(s.log, t, s.tail[t]))
      ensures Match(Advanced(s, t), n) && Open()
    {
      batchIds, txs, ages, cus := ids[t], transactions[t], maxAges[t], totalCus[t];
      ids := ids[t := []];
      transactions := transactions[t := []];
      maxAges := maxAges[t := []];
      totalCus := totalCus[t := 0];
      SlotItemsNone(s.log, t, s.tail[t] + 1);
    }
  }

  // ---- The scheduler ----

  /** The answer of `try_schedule_transaction`. */
  datatype Verdict =
    | Filtered
    | UnschedulableConflicts
    | Place(threadId: nat, ttl: TransactionTTL, cost: nat)

  /** Decides whether a transaction can run now: it must pass the filter, conflict with nothing found
      unschedulable before it, and some thread must be able to take all its locks. */
  method TryScheduleTransaction(state: TransactionState, preLockFilter: Transaction -> bool,
                                blocking: ReadWriteAccountSet, locks: ThreadAwareAccountLocks, loads: seq<Load>)
    returns (r: Verdict, state': TransactionState)
    requires state.Unprocessed? && locks.Valid() && locks.numThreads == |loads|
    modifies locks, blocking
    ensures locks.Valid()
    ensures r.Filtered? <==> !preLockFilter(state.transactionTtl.transaction)
    ensures r.UnschedulableConflicts? <==>
      && preLockFilter(state.transactionTtl.transaction)
      && (|| Conflict(old(blocking.Locked()), AccessOf(state.transactionTtl.transaction))
          || NoThreadFor(old(locks.holds), state.transactionTtl.transaction, |loads|))
    ensures blocking.Locked() == if r.UnschedulableConflicts?
      then old(blocking.Locked()).Plus(AccessOf(state.transactionTtl.transaction)) else old(blocking.Locked())
    ensures !r.Place? ==> state' == state && locks.holds == old(locks.holds)
    ensures r.Place? ==>
      && r.threadId < |loads| && r.ttl == state.transactionTtl && r.cost == state.cost
      && state' == state.TransitionToPending().0
      && locks.holds == old(locks.holds) + TxHolds(state.transactionTtl.transaction, r.threadId)
      && Exclusive(locks.holds)
      && !Conflict(old(blocking.Locked()), AccessOf(state.transactionTtl.transaction))
      && BestOf(loads, CanLock(old(locks.holds), WriteKeys(state.transactionTtl.transaction.accounts),
                               ReadKeys(state.transactionTtl.transaction.accounts), |loads|), r.threadId)
  {
    var tx := state.transactionTtl.transaction;
    state' := state;
    if !preLockFilter(tx) {
      return Filtered, state;
    }
    if !blocking.CheckLocks(tx) {
      var _ := blocking.TakeLocks(tx);
      return UnschedulableConflicts, state;
    }
    ghost var can := CanLock(locks.holds, WriteKeys(tx.accounts), ReadKeys(tx.accounts), |loads|);
    var all := RawThreadSet.Any(|loads|);
    assert can * all.Threads() == can;
    var locked := locks.TryLockAccounts(WriteKeys(tx.accounts), ReadKeys(tx.accounts), all, Selector(loads));
    if locked.None? {
      var _ := blocking.TakeLocks(tx);
      return UnschedulableConflicts, state;
    }
    state' := state.TransitionToPending().0;
    r := Place(locked.value, state.transactionTtl, state.cost);
  }

  lemma RunShape(n: nat, events: seq<Event>, x: Whole)
    requires Run(n, events) == Some(x)
    ensures Shaped(n, x) && WellFormed(x.s, n)
  {
    RunStands(n, events, x);
  }

  /** `pre_graph_filter`: given a chunk, fills in one answer per place of it. */
  type GraphFilter = f: (seq<Transaction>, nat) -> seq<bool> | forall txs, n: nat :: |f(txs, n)| == n
    witness (txs: seq<Transaction>, n: nat) => seq(n, i => true)

  lemma LaterStill(a: seq<Event>, b: seq<Event>, c: seq<Event>)
    requires a <= b <= c
    ensures a <= c
  {}

  // ---- A pass within a run ----

  /** A node that can be popped is still as it was when the pass began, and in nobody's way. */
  lemma NodeReady(s: Start, moves: seq<Move>, p: Pass, l: TransactionPriorityId)
    requires s.Valid() && PassAfter(s, moves) == Some(p) && CanPop(p.graph, l)
    ensures l in s.queue && l.id in p.states && p.states[l.id] == s.states[l.id] && s.states[l.id].Unprocessed?
    ensures Admissible(p.log, p.tail, s.released, l.id, s.Ttl(l).transaction)
  {
    PassAfterInv(s, moves, p);
    NodeFacts(s, p, l);
    forall j: nat | j < |p.log| && p.log[j].thread < |p.tail| && p.log[j].slot == p.tail[p.log[j].thread]
      ensures !Conflict(p.log[j].Access(), s.Uses(l))
    {
      OpenIsFree(s, p, l, j);
    }
    forall j: nat | j < |p.log| && (p.log[j].thread, p.log[j].slot) !in s.released ensures p.log[j].id != l.id {
      NewIsOther(s, p.log, p.who, p.out, l, j);
    }
  }

  lemma NodeState(s: Start, moves: seq<Move>, p: Pass, l: TransactionPriorityId)
    requires s.Valid() && PassAfter(s, moves) == Some(p) && CanPop(p.graph, l)
    ensures l in s.queue && l.id in p.states && p.states[l.id] == s.states[l.id] && s.states[l.id].Unprocessed?
  {
    NodeReady(s, moves, p, l);
  }

  lemma Undecided(s: Start, moves: seq<Move>, p: Pass, l: TransactionPriorityId)
    requires s.Valid() && PassAfter(s, moves) == Some(p) && CanPop(p.graph, l)
    ensures l !in p.out
  {
    PassAfterInv(s, moves, p);
    NodeFacts(s, p, l);
  }

  lemma GraphValid(s: Start, moves: seq<Move>, p: Pass)
    requires s.Valid() && PassAfter(s, moves) == Some(p)
    ensures p.graph.Valid()
  {
    PassAfterInv(s, moves, p);
  }

  /** The decisions are about waiting transactions. */
  lemma DecisionsFit(s: Start, moves: seq<Move>, p: Pass)
    requires s.Valid() && PassAfter(s, moves) == Some(p)
    ensures |p.out| <= |s.queue|
  {
    PassAfterInv(s, moves, p);
    forall x | x in p.out ensures x in s.queue {
      if x in p.graph.popped {
        assert x in Elems(p.graph.nodes);
      }
    }
    SubsetSize(p.out.Keys, s.queue);
  }

  /** `base` and everything in `xs`. */
  ghost function AddAll(base: set<TransactionPriorityId>, xs: seq<TransactionPriorityId>): set<TransactionPriorityId> {
    if xs == [] then base else AddAll(base, xs[..|xs| - 1]) + {xs[|xs| - 1]}
  }

  lemma AddAllNext(base: set<TransactionPriorityId>, xs: seq<TransactionPriorityId>, x: TransactionPriorityId)
    ensures AddAll(base, xs + [x]) == AddAll(base, xs) + {x}
  {
    assert (xs + [x])[..|xs|] == xs;
  }

  lemma {:induction false} AddAllHas(base: set<TransactionPriorityId>, xs: seq<TransactionPriorityId>, i: nat)
    requires i < |xs|
    ensures xs[i] in AddAll(base, xs)
  {
    if i < |xs| - 1 { AddAllHas(base, xs[..|xs| - 1], i); }
  }

  /** The batches of the first `n` workers hold nothing. */
  ghost predicate Emptied(log: seq<Attempt>, tail: seq<nat>, n: nat) {
    forall t: nat :: t < n && t < |tail| ==> SlotItems(log, t, tail[t]) == []
  }

  lemma EmptiedNext(log: seq<Attempt>, tail: seq<nat>, tail': seq<nat>, t: nat)
    requires Emptied(log, tail, t) && t < |tail| && (tail' == tail || tail' == AdvancedTail(tail, t))
    requires SlotItems(log, t, tail'[t]) == []
    ensures Emptied(log, tail', t + 1)
  {}

  /** The budget went down by what left the queue, unless the queue ran out. */
  ghost predicate Charged(budget: nat, waiting: nat, budget': nat, waiting': nat) {
    waiting' <= waiting && (waiting' == 0 || budget' + waiting == budget + waiting')
  }

  /** Between rounds the window is full, or nothing waits: one place of it is freed for every node
      decided, and none for what the pre-graph filter turns away. */
  ghost predicate WindowFull(total: nat, window: nat, budget: nat, waiting: nat, filtered: nat, decided: nat) {
    waiting == 0 || (budget == 0 && total + filtered == window + waiting + decided)
  }

  lemma WindowRefilled(total: nat, window: nat, budget: nat, waiting: nat, filtered: nat, decided: nat, popped: nat,
                       budget': nat, waiting': nat, filtered': nat)
    requires WindowFull(total, window, budget, waiting, filtered, decided) && filtered <= filtered'
    requires Charged(budget + popped, waiting, budget', waiting') && (budget' == 0 || waiting' == 0)
    ensures WindowFull(total, window, budget', waiting', filtered', decided + popped + filtered' - filtered)
  {}

  lemma StuckIsEmpty(g: Graph)
    requires g.Valid() && g.unblocked == g.popped && Stuck(g)
    ensures Elems(g.nodes) == g.popped
  {
    if x :| x in Elems(g.nodes) && x !in g.popped {
      assert x in g.Unpopped();
      SomePoppable(g);
      assert false;
    }
  }

  /** Once nothing can be popped and everything popped is unblocked, all that left the queue is decided. */
  lemma WindowDone(s: Start, moves: seq<Move>, p: Pass)
    requires s.Valid() && PassAfter(s, moves) == Some(p) && p.chunk == []
    requires p.graph.unblocked == p.graph.popped && Stuck(p.graph)
    ensures p.queue <= s.queue && p.out.Keys == s.queue - p.queue
  {
    PassAfterInv(s, moves, p);
    StuckIsEmpty(p.graph);
    assert Elems(p.chunk) == {};
  }

  /** A pass that runs out of nodes has used up its window on what the filter turned away, or has
      decided about everything. */
  lemma RanOut(s: Start, moves: seq<Move>, p: Pass, window: nat, budget: nat, filtered: nat)
    requires s.Valid() && PassAfter(s, moves) == Some(p) && p.chunk == []
    requires p.graph.unblocked == p.graph.popped && Stuck(p.graph)
    requires WindowFull(|s.queue|, window, budget, |p.queue|, filtered, |p.out|)
    ensures filtered == window || p.out.Keys == s.queue
  {
    WindowDone(s, moves, p);
    RestSize(s.queue, p.queue);
    assert |p.out.Keys| == |p.out|;
  }

  lemma RestSize(all: set<TransactionPriorityId>, some: set<TransactionPriorityId>)
    requires some <= all
    ensures |all| == |some| + |all - some| && (|some| == 0 ==> all - some == all)
  {
    assert all == some + (all - some);
  }

  /** When no worker's batch holds anything, every attempt has been sent. */
  lemma AllSent(s: Start, moves: seq<Move>, p: Pass)
    requires s.Valid() && PassAfter(s, moves) == Some(p)
    requires Emptied(p.log, p.tail, |p.tail|)
    ensures NothingOpen(p.log, p.tail) && SentCount(p.log, p.tail) == |s.log| + |p.who|
  {
    PassAfterInv(s, moves, p);
    forall i: nat | i < |p.log| ensures p.log[i].thread < |p.tail| && p.log[i].slot < p.tail[p.log[i].thread] {
      SlotItemsNone(p.log, p.log[i].thread, p.tail[p.log[i].thread]);
    }
    SentCountAll(p.log, p.tail);
  }

  datatype Filters = Filters(graph: GraphFilter, lock: Transaction -> bool)

  /** The pass began from this queue, these states and this protocol state, with these filters and this
      share of the block for each worker. */
  ghost predicate BeganFrom(start: Start, queue: set<TransactionPriorityId>, states: States, s: System,
                            filters: Filters, share: nat)
  {
    start == StartOf(queue, states, s, filters, share)
  }

  ghost function StartOf(queue: set<TransactionPriorityId>, states: States, s: System, filters: Filters, share: nat)
    : Start
  {
    Start(queue, states, s.log, s.tail, s.released, filters.lock, filters.graph, share)
  }

  lemma StartValid(n: nat, events: seq<Event>, x: Whole, queue: set<TransactionPriorityId>, states: States,
                   filters: Filters, share: nat)
    requires Run(n, events) == Some(x) && NothingOpen(x.s.log, x.s.tail)
    requires Tracks(states, queue, LiveIds(x.s.log, x.s.released))
    ensures StartOf(queue, states, x.s, filters, share).Valid()
  {
    RunStands(n, events, x);
    var s := x.s;
    forall i: nat | i < |s.log| && (s.log[i].thread, s.log[i].slot) !in s.released
      ensures s.log[i].id in states && states[s.log[i].id].Pending?
    {
      assert s.log[i].id in LiveIds(s.log, s.released);
    }
  }

  /** What is in flight after the pass: what was before, and what it placed. */
  lemma EndLive(s: Start, p: Pass)
    requires s.Valid() && Grown(s, p.log, p.tail) && Passes.Placed(s, p.log, p.who, p.out)
    ensures LiveIds(p.log, s.released) == LiveIds(s.log, s.released) + PlacedIds(p.who)
  {
    var before, after := LiveIds(s.log, s.released), LiveIds(p.log, s.released);
    forall id | id in after ensures id in before + PlacedIds(p.who) {
      var i: nat :| i < |p.log| && (p.log[i].thread, p.log[i].slot) !in s.released && p.log[i].id == id;
      if i < s.logLen {
        assert p.log[i] == s.log[i];
      } else {
        assert PlacedAt(s, p.log[s.logLen + (i - s.logLen)], p.who[i - s.logLen], p.out, i);
      }
    }
    forall id | id in before ensures id in after {
      var i: nat :| i < |s.log| && (s.log[i].thread, s.log[i].slot) !in s.released && s.log[i].id == id;
      assert p.log[i] == s.log[i];
    }
    forall x | x in p.who ensures x.id in after {
      var k :| 0 <= k < |p.who| && p.who[k] == x;
      assert PlacedAt(s, p.log[s.logLen + k], p.who[k], p.out, s.logLen + k);
      assert p.log[s.logLen + k].id == x.id;
    }
  }

  /** What a pass leaves to be put back, and the books once that is done. */
  lemma EndOfPass(s: Start, moves: seq<Move>, p: Pass)
    requires s.Valid() && PassAfter(s, moves) == Some(p) && p.chunk == []
    requires Tracks(s.states, s.queue, LiveIds(s.log, s.released))
    ensures var rest := s.queue - Gone(p.out);
      && p.queue + Elems(p.unschedulable) + p.graph.Unpopped() == rest && |rest| <= |s.queue|
      && p.queue !! Elems(p.unschedulable) !! p.graph.Unpopped()
      && (forall i, j :: 0 <= i < j < |p.unschedulable| ==> p.unschedulable[i] != p.unschedulable[j])
      && Tracks(p.states, rest, LiveIds(p.log, s.released)) && SameTerms(s.states, p.states)
    ensures p.graph.Valid() && PassInv(s, p) && Justified(s, p.log, p.unschedulable)
    ensures |p.out| == |p.graph.popped| + |PreFilteredIn(p.out)|
  {
    PassAfterInv(s, moves, p);
    PassJustified(s, moves, p);
    RequeuedIsRest(s, p);
    EndTracks(s, p, LiveIds(s.log, s.released));
    BooksKeepTerms(s, p.states, p.out, LiveIds(s.log, s.released));
    EndLive(s, p);
    SubsetSize(s.queue - Gone(p.out), s.queue);
    assert |p.out.Keys| == |p.graph.popped| + |PreFilteredIn(p.out)|;
  }

  /** What was popped from the queue has its state. */
  lemma ChunkKnown(s: Start, moves: seq<Move>, p: Pass, x: TransactionPriorityId)
    requires s.Valid() && PassAfter(s, moves) == Some(p) && x in p.chunk
    ensures x in s.queue && x.id in p.states && p.states[x.id] == s.states[x.id] && p.states[x.id].Unprocessed?
    ensures x !in p.graph.nodes && x !in p.out
  {
    PassAfterInv(s, moves, p);
    assert x in Elems(p.chunk);
    assert StateIs(s, p.states, p.out, x);
  }

  lemma NewIsOther(s: Start, log: seq<Attempt>, who: seq<TransactionPriorityId>, out: Outcomes,
                   l: TransactionPriorityId, j: nat)
    requires s.Valid() && Passes.Placed(s, log, who, out) && s.log <= log && l in s.queue && l !in out
    requires j < |log| && (log[j].thread, log[j].slot) !in s.released
    ensures log[j].id != l.id
  {
    if j < s.logLen {
      assert log[j] == s.log[j];
    } else {
      assert PlacedAt(s, log[s.logLen + (j - s.logLen)], who[j - s.logLen], out, j);
    }
  }

  /** The attempts of the pass are live, so exclusion keeps those that conflict on one thread. */
  lemma RivalsShareThread(s: Start, log: seq<Attempt>, tail: seq<nat>, l: TransactionPriorityId, t: nat)
    requires s.Valid() && Grown(s, log, tail) && l in s.queue
    requires Exclusive(LiveHolds(log, s.released) + TxHolds(s.Ttl(l).transaction, t))
    ensures RivalsOn(s, log, l, t)
  {
    forall i: nat | s.logLen <= i < |log| && Conflict(log[i].Access(), s.Uses(l)) ensures log[i].thread == t {
      ExclusionGuards(log, s.released, s.Ttl(l).transaction, t, i);
    }
  }

  /** Sending leaves everything but the batches alone. */
  ghost predicate Same(p: Pass, p': Pass) {
    && p'.queue == p.queue && p'.chunk == p.chunk && p'.graph == p.graph && p'.states == p.states
    && p'.log == p.log && p'.who == p.who && p'.marks == p.marks
    && p'.blocking == p.blocking && p'.unschedulable == p.unschedulable && p'.out == p.out
  }

  ghost predicate SameRound(p: Pass, p': Pass) {
    p'.marks == p.marks && p'.flushing == p.flushing
  }

  /** Filling the window leaves the batches and what was found unschedulable alone. */
  ghost predicate SameWork(p: Pass, p': Pass) {
    && p'.log == p.log && p'.tail == p.tail && p'.who == p.who && SameRound(p, p')
    && p'.blocking == p.blocking && p'.unschedulable == p.unschedulable
  }

  /** Deciding about a node leaves the queue and the chunk alone, and the round goes on. */
  ghost predicate SameAfterPop(p: Pass, p': Pass) {
    p'.queue == p.queue && p'.chunk == p.chunk && SameRound(p, p')
  }

  ghost predicate Linked(s: Start, p: Pass, sys: System) {
    p.log == sys.log && p.tail == sys.tail && s.released == sys.released
  }

  ghost function PlacedEvent(s: Start, l: TransactionPriorityId, t: nat): Event
    requires s.Valid() && l in s.queue
  {
    Event.Placed(l.id, s.Ttl(l), s.states[l.id].cost, t)
  }

  /** Once the locks are taken, placing the node is a move of the pass and an event of the run. */
  lemma PlaceAllowed(n: nat, events: seq<Event>, x: Whole, s: Start, moves: seq<Move>, p: Pass,
                     l: TransactionPriorityId, t: nat)
    requires Run(n, events) == Some(x) && s.Valid() && PassAfter(s, moves) == Some(p) && Linked(s, p, x.s)
    requires Foremost(p.graph, l) && l in s.queue && t < n
    requires Chosen(n, x.s, x.holds, s.Ttl(l).transaction, t) && !Conflict(p.blocking, s.Uses(l))
    requires s.filter(s.Ttl(l).transaction) && Working(s, p)
    ensures Permitted(n, x, PlacedEvent(s, l, t)) && Allowed(s, p, PlaceNode(l, t))
  {
    RunStands(n, events, x);
    NodeReady(s, moves, p, l);
    PassAfterInv(s, moves, p);
    ChosenCanLock(n, x.s, x.holds, s.Ttl(l).transaction, t);
    RivalsShareThread(s, p.log, p.tail, l, t);
  }

  // ---- The rounds of a pass ----

  /** One attempt more, on worker `t` and not back yet. */
  ghost predicate OneMore(log: seq<Attempt>, log': seq<Attempt>, released: set<(nat, nat)>, t: nat) {
    && |log'| == |log| + 1 && log' == log + [log'[|log|]]
    && log'[|log|].thread == t && (t, log'[|log|].slot) !in released
  }

  /** Placing work takes its worker out of those with room, once it has its share. */
  lemma RoomNext(log: seq<Attempt>, log': seq<Attempt>, released: set<(nat, nat)>, n: nat, share: nat, t: nat)
    requires OneMore(log, log', released, t)
    ensures WithRoom(log', released, n, share) ==
      if LiveWork(log', released, t, true) >= share then WithRoom(log, released, n, share) - {t}
      else WithRoom(log, released, n, share)
  {
    forall u: nat | u < n
      ensures LiveWork(log', released, u, true) >= LiveWork(log, released, u, true)
      ensures u != t ==> LiveWork(log', released, u, true) == LiveWork(log, released, u, true)
    {
      LiveWorkNext(log, released, log'[|log|], u, true);
    }
    LiveWorkNext(log, released, log'[|log|], t, true);
  }

  lemma NotReleased(s: Start, moves: seq<Move>, p: Pass, t: nat)
    requires s.Valid() && PassAfter(s, moves) == Some(p) && t < |p.tail|
    ensures (t, p.tail[t]) !in s.released
  {
    PassAfterInv(s, moves, p);
  }

  /** A round that goes on, and the workers with room. */
  ghost predicate Rolling(s: Start, p: Pass, n: nat, share: nat, room: set<nat>) {
    && !p.flushing && p.marks != [] && p.marks[|p.marks| - 1].logLen <= |p.log|
    && |s.tail| == n && s.share == share && room == WithRoom(p.log, s.released, n, share)
  }

  /** Nothing has been placed in the round. */
  ghost predicate Fresh(s: Start, p: Pass, n: nat, share: nat, room: set<nat>) {
    Rolling(s, p, n, share, room) && Quiet(p)
  }

  /** The batch of a worker may be sent: a full one at once, a shorter one when the round is over. */
  ghost predicate Sendable(s: Start, p: Pass, m: Move) {
    && m.Sending() && m.thread < |p.tail|
    && if m.SendTo?
       then !p.flushing && |SlotItems(p.log, m.thread, p.tail[m.thread])| == TARGET_NUM_TRANSACTIONS_PER_BATCH
       else RoundOver(s, p) && |SlotItems(p.log, m.thread, p.tail[m.thread])| < TARGET_NUM_TRANSACTIONS_PER_BATCH
  }

  /** When nothing is placed, the round goes on. */
  lemma RollsOn(s: Start, p: Pass, p': Pass, n: nat, share: nat, room: set<nat>)
    requires Rolling(s, p, n, share, room) && !Halted(s, p) && SameRound(p, p')
    requires p'.log == p.log && |p'.who| == |p.who|
    ensures Rolling(s, p', n, share, room) && !Halted(s, p')
  {}

  /** When a node is placed, the round halts if the pass is full or no worker has room. */
  lemma HaltsWhenPlaced(s: Start, p: Pass, p': Pass, n: nat, share: nat, room: set<nat>, room': set<nat>, t: nat)
    requires Rolling(s, p, n, share, room) && SameRound(p, p')
    requires OneMore(p.log, p'.log, s.released, t) && room' == WithRoom(p'.log, s.released, n, share)
    ensures Rolling(s, p', n, share, room')
    ensures Halted(s, p') <==> |p'.who| >= MAX_TRANSACTIONS_PER_SCHEDULING_PASS || room' == {}
  {}

  /** No thread can take the transaction's locks. */
  ghost predicate NoThreadFor(holds: multiset<Hold>, tx: Transaction, n: nat) {
    CanLock(holds, WriteKeys(tx.accounts), ReadKeys(tx.accounts), n) == {}
  }

  /** A node that conflicts with a blocked one, or that no thread can lock, may be found unschedulable. */
  lemma BlockAllowed(n: nat, events: seq<Event>, x: Whole, s: Start, moves: seq<Move>, p: Pass,
                     l: TransactionPriorityId)
    requires Run(n, events) == Some(x) && s.Valid() && PassAfter(s, moves) == Some(p) && Linked(s, p, x.s)
    requires Foremost(p.graph, l) && l in s.queue && s.filter(s.Ttl(l).transaction) && Working(s, p)
    requires Conflict(p.blocking, s.Uses(l)) || NoThreadFor(x.holds, s.Ttl(l).transaction, n)
    ensures Allowed(s, p, BlockNode(l))
  {
    HoldsInPass(n, events, x, s, moves, p);
    if NoThreadFor(x.holds, s.Ttl(l).transaction, n) {
      NoThreadUnlockable(s, p.log, l);
    }
  }

  lemma HoldsInPass(n: nat, events: seq<Event>, x: Whole, s: Start, moves: seq<Move>, p: Pass)
    requires Run(n, events) == Some(x) && s.Valid() && PassAfter(s, moves) == Some(p) && Linked(s, p, x.s)
    ensures x.holds == LiveHolds(p.log, s.released) && |s.tail| == n
  {
    RunStands(n, events, x);
    PassAfterInv(s, moves, p);
  }

  lemma NoThreadUnlockable(s: Start, log: seq<Attempt>, l: TransactionPriorityId)
    requires s.Valid() && l in s.queue
    requires NoThreadFor(LiveHolds(log, s.released), s.Ttl(l).transaction, |s.tail|)
    ensures Unlockable(s, log, l)
  {
    var tx, h := s.Ttl(l).transaction, LiveHolds(log, s.released);
    forall t: nat | t < |s.tail| ensures !Exclusive(h + TxHolds(tx, t)) {
      assert t !in CanLock(h, WriteKeys(tx.accounts), ReadKeys(tx.accounts), |s.tail|);
    }
  }

  // ---- Receiving a result ----

  ghost function TransactionCount(results: seq<SchedulingBatchResult>): nat {
    if results == [] then 0 else |results[0].batch.ids| + TransactionCount(results[1..])
  }

  ghost function RetryableCount(results: seq<SchedulingBatchResult>): nat {
    if results == [] then 0 else |results[0].retryableIndexes| + RetryableCount(results[1..])
  }

  /** The worker and slot of the oldest result. */
  ghost function ResultAt(x: Whole): (nat, nat)
    requires x.w.finished != [] && x.w.finished[0].batch.batchId in x.w.slotOf
  {
    x.w.slotOf[x.w.finished[0].batch.batchId]
  }

  /** The oldest result is of a tracked batch: it carries what was sent, and its locks are held. */
  lemma ResultKnown(n: nat, events: seq<Event>, x: Whole)
    requires Run(n, events) == Some(x) && x.w.finished != []
    ensures Permitted(n, x, Received)
    ensures var b, at := x.w.finished[0].batch, ResultAt(x);
      var items := SlotItems(x.s.log, at.0, at.1);
      && b.batchId in x.w.tracked && x.w.tracked[b.batchId].threadId == at.0
      && BatchCarries(b, items) && items != [] && at !in x.s.released
      && ItemsHolds(items, at.0) <= x.holds
  {
    RunStands(n, events, x);
    var b := x.w.finished[0].batch;
    assert ResultStands(x.s, x.w, n, b);
    var at := x.w.slotOf[b.batchId];
    assert EntryStands(x.s, n, x.w.tracked[b.batchId], at.0, at.1);
    ReleaseHolds(x.s.log, x.s.released, at.0, at.1);
  }

  /** What receiving the oldest result makes of a run. */
  lemma ReceiveRuns(n: nat, events: seq<Event>, x: Whole)
    requires Run(n, events) == Some(x) && x.w.finished != []
    ensures x.w.finished[0].batch.batchId in x.w.slotOf
    ensures var id := x.w.finished[0].batch.batchId;
      Run(n, events + [Received]) ==
      Some(Whole(Released(x.s, ResultAt(x)),
                 Wiring(x.w.channels, x.w.finished[1..], x.w.tracked - {id}, x.w.slotOf - {id}),
                 x.holds - ResultHolds(x)))
  {
    ResultKnown(n, events, x);
    RunNext(n, events, x, Received);
  }

  /** The locks of the oldest result's batch. */
  ghost function ResultHolds(x: Whole): multiset<Hold>
    requires x.w.finished != [] && x.w.finished[0].batch.batchId in x.w.slotOf
  {
    ItemsHolds(SlotItems(x.s.log, ResultAt(x).0, ResultAt(x).1), ResultAt(x).0)
  }

  ghost function Carried(b: SchedulingBatch): set<TransactionId> {
    IdsFrom(b, 0)
  }

  lemma CarriedIds(b: SchedulingBatch, items: seq<Attempt>)
    requires BatchCarries(b, items)
    ensures Carried(b) == ItemIds(items) && forall k: nat :: k < |b.ids| ==> b.ids[k] == items[k].id
  {
    forall id | id in ItemIds(items) ensures id in Carried(b) {
      var k: nat :| k < |items| && items[k].id == id;
      assert b.ids[k] == id;
    }
  }

  /** The batch that came back: its transactions are pending, and are in flight nowhere else. */
  lemma ResultInFlight(n: nat, events: seq<Event>, x: Whole, states: States, waiting: set<TransactionPriorityId>)
    requires Run(n, events) == Some(x) && Permitted(n, x, Received)
    requires Tracks(states, waiting, LiveIds(x.s.log, x.s.released))
    ensures var b, others := x.w.finished[0].batch, LiveIds(x.s.log, x.s.released + {ResultAt(x)});
      && Aligned(b) && AllPending(b, states) && others !! Carried(b)
      && Tracks(states, waiting, others + Carried(b))
  {
    ResultKnown(n, events, x);
    RunStands(n, events, x);
    var b, at := x.w.finished[0].batch, ResultAt(x);
    var items := SlotItems(x.s.log, at.0, at.1);
    BatchIds(x.s.log, x.s.released, at.0, at.1);
    CarriedIds(b, items);
    forall k: nat | k < |b.ids| ensures b.ids[k] in states && states[b.ids[k]].Pending? {
      assert b.ids[k] in Carried(b);
    }
  }

  lemma MinusTwice(held: multiset<Hold>, a: multiset<Hold>, b: multiset<Hold>)
    requires a + b <= held
    ensures b <= held - a && held - a - b == held - (a + b)
  {}

  method UnlockTransactions(locks: ThreadAwareAccountLocks, transactions: seq<Transaction>, thread: nat,
                            ghost items: seq<Attempt>)
    requires locks.Valid() && |transactions| == |items|
    requires forall i :: 0 <= i < |items| ==> transactions[i] == items[i].ttl.transaction
    requires ItemsHolds(items, thread) <= locks.holds
    modifies locks
    ensures locks.Valid() && locks.holds == old(locks.holds) - ItemsHolds(items, thread)
  {
    ghost var held := locks.holds;
    for i := 0 to |transactions|
      invariant locks.Valid() && locks.holds == held - ItemsHolds(items[..i], thread)
    {
      ItemsHoldsNext(items, thread, i);
      ItemsHoldsPrefix(items, thread, i + 1);
      MinusTwice(held, ItemsHolds(items[..i], thread), TxHolds(items[i].ttl.transaction, thread));
      locks.UnlockAccounts(WriteKeys(transactions[i].accounts), ReadKeys(transactions[i].accounts), thread);
    }
    assert items[..|items|] == items;
  }

  // ---- Putting back ----

  /** There is room for everything in `rest`, and it is all known. */
  ghost predicate RoomFor(rest: set<TransactionPriorityId>, states: States, capacity: nat) {
    |rest| <= capacity && forall x :: x in rest ==> x.id in states
  }

  /** Pushing back into a queue that once held it all drops nothing. */
  method PushBack(container: TransactionStateContainer, x: TransactionPriorityId,
                  ghost rest: set<TransactionPriorityId>)
    requires RoomFor(rest, container.states, container.capacity)
    requires container.priorityQueue + {x} <= rest && x !in container.priorityQueue
    modifies container
    ensures container.priorityQueue == old(container.priorityQueue) + {x} && container.states == old(container.states)
  {
    SubsetSize(container.priorityQueue + {x}, rest);
    var dropped := container.PushIdIntoQueue(x);
  }

  method PushAllBack(container: TransactionStateContainer, ids: seq<TransactionPriorityId>,
                     ghost rest: set<TransactionPriorityId>)
    requires RoomFor(rest, container.states, container.capacity)
    requires container.priorityQueue + Elems(ids) <= rest && Elems(ids) !! container.priorityQueue
    requires forall i, j :: 0 <= i < j < |ids| ==> ids[i] != ids[j]
    modifies container
    ensures container.priorityQueue == old(container.priorityQueue) + Elems(ids)
    ensures container.states == old(container.states)
  {
    for i := 0 to |ids|
      invariant container.priorityQueue == old(container.priorityQueue) + Elems(ids[..i])
      invariant container.states == old(container.states)
    {
      assert ids[i] in Elems(ids);
      assert Elems(ids[..i + 1]) == Elems(ids[..i]) + {ids[i]};
      PushBack(container, ids[i], rest);
    }
    assert ids[..|ids|] == ids;
  }

  /** `all` is shared between the queue and what is left in the graph. */
  ghost predicate Shared(queue: set<TransactionPriorityId>, left: set<TransactionPriorityId>,
                         all: set<TransactionPriorityId>)
  {
    queue + left == all && left !! queue
  }

  method DrainGraph(container: TransactionStateContainer, graph: PrioGraph, ghost rest: set<TransactionPriorityId>)
    requires RoomFor(rest, container.states, container.capacity)
    requires graph.graph.Valid() && graph.graph.unblocked == graph.graph.popped
    requires Shared(container.priorityQueue, graph.graph.Unpopped(), rest)
    modifies container, graph
    ensures container.priorityQueue == rest && container.states == old(container.states)
  {
    var done := false;
    while !done
      invariant graph.graph.Valid() && graph.graph.unblocked == graph.graph.popped
      invariant Shared(container.priorityQueue, graph.graph.Unpopped(), rest)
      invariant container.states == old(container.states)
      invariant done ==> graph.graph.Unpopped() == {}
      decreases |graph.graph.Unpopped()|, !done
    {
      done := DrainOne(container, graph, rest);
    }
  }

  method DrainOne(container: TransactionStateContainer, graph: PrioGraph, ghost rest: set<TransactionPriorityId>)
    returns (done: bool)
    requires RoomFor(rest, container.states, container.capacity)
    requires graph.graph.Valid() && graph.graph.unblocked == graph.graph.popped
    requires Shared(container.priorityQueue, graph.graph.Unpopped(), rest)
    modifies container, graph
    ensures graph.graph.Valid() && graph.graph.unblocked == graph.graph.popped
    ensures Shared(container.priorityQueue, graph.graph.Unpopped(), rest) && container.states == old(container.states)
    ensures if done then graph.graph.Unpopped() == old(graph.graph.Unpopped()) == {}
      else |graph.graph.Unpopped()| < |old(graph.graph.Unpopped())|
  {
    ghost var before := graph.graph.Unpopped();
    var p := graph.PopAndUnblock();
    if p.None? {
      return true;
    }
    MoveOver(container.priorityQueue, before, p.value, rest);
    PushBack(container, p.value, rest);
    done := false;
  }

  lemma MoveOver(queue: set<TransactionPriorityId>, left: set<TransactionPriorityId>, p: TransactionPriorityId,
                 all: set<TransactionPriorityId>)
    requires p in left && Shared(queue, left, all)
    ensures Shared(queue + {p}, left - {p}, all) && |left - {p}| < |left| && p !in queue && queue + {p} <= all
  {}

  /** Puts back the unschedulable and what is left in the graph. */
  method Requeue(container: TransactionStateContainer, unschedulable: seq<TransactionPriorityId>, graph: PrioGraph,
                 ghost rest: set<TransactionPriorityId>)
    requires RoomFor(rest, container.states, container.capacity)
    requires graph.graph.Valid() && graph.graph.unblocked == graph.graph.popped
    requires container.priorityQueue + Elems(unschedulable) + graph.graph.Unpopped() == rest
    requires container.priorityQueue !! Elems(unschedulable) !! graph.graph.Unpopped()
    requires forall i, j :: 0 <= i < j < |unschedulable| ==> unschedulable[i] != unschedulable[j]
    modifies container, graph
    ensures container.priorityQueue == rest && container.states == old(container.states)
  {
    PushAllBack(container, unschedulable, rest);
    DrainGraph(container, graph, rest);
  }

  lemma ShareIsPositive(units: nat, n: nat)
    requires 0 < n <= units
    ensures units / n > 0
  {}

  datatype SchedulingSummary = SchedulingSummary(numScheduled: nat, numUnschedulable: nat, numFilteredOut: nat)

  class PrioGraphScheduler {
    const numThreads: nat
    const maxBlockUnits: nat
    const tracker: InFlightTracker
    const locks: ThreadAwareAccountLocks
    const lookAheadWindowSize: nat := 2048
    var channels: seq<seq<SchedulingBatch>>         // one per worker, oldest batch first
    var finished: seq<SchedulingBatchResult>        // results not yet received
    ghost var slotOf: map<BatchId, (nat, nat)>      // the (worker, slot) of each tracked batch
    ghost var sys: System                           // the protocol state
    ghost var events: seq<Event>                    // everything that happened so far
    ghost var start: Start                          // the pass under way
    ghost var moves: seq<Move>
    ghost var pass: Pass
    ghost var turns: seq<Turn>                      // the passes so far

    ghost function Wires(): Wiring
      reads `channels, `finished, `slotOf, tracker
    {
      Wiring(channels, finished, tracker.batches, slotOf)
    }

    /** The fields are what the events so far make of them, the locks being `holds`. */
    ghost predicate Stands(holds: multiset<Hold>)
      reads `channels, `finished, `slotOf, `sys, `events, tracker, tracker.generator, locks
    {
      && locks.Valid() && locks.numThreads == numThreads && 0 < numThreads <= MAX_THREADS
      && tracker.Valid() && |tracker.numInFlightPerThread| == numThreads
      && Run(numThreads, events) == Some(Whole(sys, Wires(), holds))
    }

    ghost predicate Valid()
      reads `channels, `finished, `slotOf, `sys, `events, tracker, tracker.generator, locks
    {
      Stands(locks.holds)
    }

    /** Everything placed so far was placed by the passes so far. */
    ghost predicate Recorded()
      reads `turns, `sys
    {
      Chained(turns, sys.log)
    }

    constructor (numThreads: nat, maxBlockUnits: nat)
      requires 0 < numThreads <= MAX_THREADS
      ensures Valid() && Recorded() && events == [] && this.numThreads == numThreads
      ensures this.maxBlockUnits == maxBlockUnits && lookAheadWindowSize == 2048
      ensures numThreads <= maxBlockUnits ==> HasRoom()
      ensures fresh(tracker) && fresh(tracker.generator) && fresh(locks) && tracker.generator.issued == 0
    {
      this.numThreads := numThreads;
      this.maxBlockUnits := maxBlockUnits;
      tracker := new InFlightTracker(numThreads);
      locks := new ThreadAwareAccountLocks(numThreads);
      channels := seq(numThreads, i => []);
      finished := [];
      events, sys, slotOf, turns := [], Initial(numThreads), map[], [];
      new;
      if numThreads <= maxBlockUnits {
        ShareIsPositive(maxBlockUnits, numThreads);
        assert tracker.cusInFlightPerThread[0] == 0;
      }
    }

    // ---- A pass ----

    /** The pass under way: the container, the graph, the blocking set and the batches are what the
        moves so far make of them, and there are batch ids left for what it may still send. */
    ghost predicate Passing(container: TransactionStateContainer, graph: Graph, blocking: Access, batches: Batches,
                            unschedulable: seq<TransactionPriorityId>, chunk: seq<TransactionPriorityId>)
      reads `sys, `start, `moves, `pass, tracker, tracker.generator, container, batches
    {
      && batches.Match(sys, numThreads)
      && PassIs(container.priorityQueue, container.states, graph, blocking, unschedulable, chunk)
    }

    ghost predicate PassIs(queue: set<TransactionPriorityId>, states: States, graph: Graph, blocking: Access,
                           unschedulable: seq<TransactionPriorityId>, chunk: seq<TransactionPriorityId>)
      reads `sys, `start, `moves, `pass, tracker.generator
    {
      && start.Valid() && PassAfter(start, moves) == Some(pass) && Linked(start, pass, sys)
      && pass.queue == queue && pass.states == states && pass.graph == graph && pass.blocking == blocking
      && pass.unschedulable == unschedulable && pass.chunk == chunk
      && tracker.generator.issued + |start.queue| <= U64_MAX + 1 + Sends(moves)
    }

    ghost predicate InPass(container: TransactionStateContainer, graph: Graph, blocking: ReadWriteAccountSet,
                           batches: Batches, unschedulable: seq<TransactionPriorityId>,
                           chunk: seq<TransactionPriorityId>)
      reads this, tracker, tracker.generator, locks, container, blocking, batches
    {
      Valid() && Passing(container, graph, blocking.Locked(), batches, unschedulable, chunk) && batches.Open()
    }

    /** The loads compared are the work of the threads: everything placed on them and not yet back. */
    lemma WorkKnown(batches: Batches)
      requires Valid() && batches.Match(sys, numThreads)
      ensures |tracker.cusInFlightPerThread| == |tracker.numInFlightPerThread| == numThreads
      ensures Loads(batches.totalCus, tracker.cusInFlightPerThread, batches.transactions,
                    tracker.numInFlightPerThread) ==
        WorkOf(sys.log, sys.released, numThreads)
    {
      var x := Whole(sys, Wires(), locks.holds);
      var loads := Loads(batches.totalCus, tracker.cusInFlightPerThread, batches.transactions,
                         tracker.numInFlightPerThread);
      forall t: nat | t < numThreads ensures loads[t] == WorkOf(sys.log, sys.released, numThreads)[t] {
        RunWork(numThreads, events, x, t, true);
        RunWork(numThreads, events, x, t, false);
        assert Fills(batches.ids[t], batches.transactions[t], batches.maxAges[t], batches.totalCus[t],
                     SlotItems(sys.log, t, sys.tail[t]));
      }
    }

    /** What is left of the threads with room when a node was placed on `t`. */
    lemma RoomKnown(batches: Batches, log: seq<Attempt>, t: nat, share: nat)
      requires Valid() && batches.Match(sys, numThreads) && t < numThreads && OneMore(log, sys.log, sys.released, t)
      ensures t < |tracker.cusInFlightPerThread| && t < |batches.totalCus|
      ensures WithRoom(sys.log, sys.released, numThreads, share) ==
        if tracker.cusInFlightPerThread[t] + batches.totalCus[t] >= share
        then WithRoom(log, sys.released, numThreads, share) - {t} else WithRoom(log, sys.released, numThreads, share)
      ensures tracker.cusInFlightPerThread[t] + batches.totalCus[t] < share ==>
        t in WithRoom(sys.log, sys.released, numThreads, share)
    {
      WorkKnown(batches);
      RoomNext(log, sys.log, sys.released, numThreads, share, t);
    }

    /** Before a pass, the threads with room are those with less than their share in flight. */
    lemma FreshStart(share: nat, room: set<nat>)
      requires Valid() && start.Valid() && pass == First(start) && Linked(start, pass, sys) && start.share == share
      requires NothingOpen(sys.log, sys.tail)
      requires forall t: nat :: t in room <==>
        t < numThreads && t < |tracker.cusInFlightPerThread| && tracker.cusInFlightPerThread[t] < share
      ensures Fresh(start, pass, numThreads, share, room)
    {
      var x := Whole(sys, Wires(), locks.holds);
      RunShape(numThreads, events, x);
      forall t: nat | t < numThreads ensures t in room <==> LiveWork(sys.log, sys.released, t, true) < share {
        RunWork(numThreads, events, x, t, true);
        SlotItemsNone(sys.log, t, sys.tail[t]);
      }
    }

    // One ghost method per move of a pass.

    ghost method Make(m: Move)
      requires start.Valid() && PassAfter(start, moves) == Some(pass) && Allowed(start, pass, m)
      modifies `moves, `pass
      ensures PassAfter(start, moves) == Some(pass) && pass == Moved(start, old(pass), m)
      ensures Sends(moves) == Sends(old(moves)) + if m.Sending() then 1 else 0
    {
      PassNext(start, moves, pass, m);
      pass := Moved(start, pass, m);
      assert (moves + [m])[..|moves|] == moves;
      moves := moves + [m];
    }

    ghost method MakeSend(m: Move)
      requires start.Valid() && PassAfter(start, moves) == Some(pass) && Sendable(start, pass, m)
      requires SlotItems(pass.log, m.thread, pass.tail[m.thread]) != []
      modifies `moves, `pass
      ensures PassAfter(start, moves) == Some(pass) && Sends(moves) == Sends(old(moves)) + 1
      ensures m.thread < |old(pass.tail)| && pass.tail == AdvancedTail(old(pass.tail), m.thread)
      ensures Same(old(pass), pass) && (m.SendTo? ==> pass.flushing == old(pass.flushing))
    {
      Make(m);
    }

    ghost method MakeNextRound()
      requires start.Valid() && PassAfter(start, moves) == Some(pass)
      requires RoundOver(start, pass) && NothingOpen(pass.log, pass.tail)
      modifies `moves, `pass
      ensures PassAfter(start, moves) == Some(pass) && Sends(moves) == Sends(old(moves))
      ensures pass.marks == old(pass.marks) + [Mark(|pass.log|, pass.tail)] && !pass.flushing
      ensures pass == old(pass).(marks := pass.marks, flushing := false)
    {
      Make(NextRound);
    }

    ghost method MakeDrop(l: TransactionPriorityId)
      requires start.Valid() && PassAfter(start, moves) == Some(pass) && Foremost(pass.graph, l)
      requires l in start.queue && !start.filter(start.Ttl(l).transaction) && Working(start, pass)
      modifies `moves, `pass
      ensures PassAfter(start, moves) == Some(pass) && Sends(moves) == Sends(old(moves))
      ensures pass.graph == Popped(old(pass.graph), l) && pass.states == old(pass.states) - {l.id}
      ensures SameAfterPop(old(pass), pass) && pass.tail == old(pass.tail) && pass.log == old(pass.log)
      ensures pass.who == old(pass.who)
      ensures |pass.out| == |old(pass.out)| + 1
      ensures pass.blocking == old(pass.blocking) && pass.unschedulable == old(pass.unschedulable)
    {
      Undecided(start, moves, pass, l);
      Make(DropNode(l));
    }

    ghost method MakeBlock(l: TransactionPriorityId)
      requires start.Valid() && PassAfter(start, moves) == Some(pass) && l in start.queue
      requires Allowed(start, pass, BlockNode(l))
      modifies `moves, `pass
      ensures PassAfter(start, moves) == Some(pass) && Sends(moves) == Sends(old(moves))
      ensures pass.graph == Popped(old(pass.graph), l) && pass.states == old(pass.states)
      ensures SameAfterPop(old(pass), pass) && pass.tail == old(pass.tail) && pass.log == old(pass.log)
      ensures pass.who == old(pass.who)
      ensures |pass.out| == |old(pass.out)| + 1
      ensures pass.blocking == old(pass.blocking).Plus(start.Uses(l))
      ensures pass.unschedulable == old(pass.unschedulable) + [l]
    {
      Undecided(start, moves, pass, l);
      Make(BlockNode(l));
    }

    ghost method MakeTake(x: TransactionPriorityId)
      requires start.Valid() && PassAfter(start, moves) == Some(pass) && IsMax(pass.queue, x)
      requires Quiet(pass)
      modifies `moves, `pass
      ensures PassAfter(start, moves) == Some(pass) && Sends(moves) == Sends(old(moves))
      ensures pass.queue == old(pass.queue) - {x} && pass.chunk == old(pass.chunk) + [x]
      ensures pass.graph == old(pass.graph) && pass.states == old(pass.states) && pass.out == old(pass.out)
      ensures SameWork(old(pass), pass)
    {
      Make(TakeTop(x));
    }

    ghost method MakeAdmit(x: TransactionPriorityId, txs: seq<Transaction>, n: nat, i: nat)
      requires start.Valid() && PassAfter(start, moves) == Some(pass)
      requires pass.chunk != [] && pass.chunk[0] == x && x in start.queue && AnswerAt(start, x, txs, n, i, true)
      requires Quiet(pass)
      modifies `moves, `pass
      ensures PassAfter(start, moves) == Some(pass) && Sends(moves) == Sends(old(moves))
      ensures pass.queue == old(pass.queue) && pass.chunk == old(pass.chunk)[1..]
      ensures pass.graph == Inserted(old(pass.graph), x, start.Uses(x)) && pass.states == old(pass.states)
      ensures pass.out == old(pass.out) && SameWork(old(pass), pass)
    {
      Make(AdmitFirst(txs, n, i));
    }

    ghost method MakeReject(x: TransactionPriorityId, txs: seq<Transaction>, n: nat, i: nat)
      requires start.Valid() && PassAfter(start, moves) == Some(pass) && pass.chunk != [] && pass.chunk[0] == x
      requires x in start.queue && AnswerAt(start, x, txs, n, i, false)
      requires Quiet(pass)
      modifies `moves, `pass
      ensures PassAfter(start, moves) == Some(pass) && Sends(moves) == Sends(old(moves))
      ensures pass.queue == old(pass.queue) && pass.chunk == old(pass.chunk)[1..]
      ensures pass.graph == old(pass.graph) && pass.states == old(pass.states) - {x.id}
      ensures |pass.out| == |old(pass.out)| + 1 && SameWork(old(pass), pass)
    {
      ChunkKnown(start, moves, pass, x);
      Make(RejectFirst(txs, n, i));
    }

    ghost method MakeUnblock(l: TransactionPriorityId)
      requires start.Valid() && PassAfter(start, moves) == Some(pass) && NothingOpen(pass.log, pass.tail)
      requires l in pass.graph.popped
      requires Quiet(pass)
      modifies `moves, `pass
      ensures PassAfter(start, moves) == Some(pass) && Sends(moves) == Sends(old(moves))
      ensures pass.queue == old(pass.queue) && pass.chunk == old(pass.chunk)
      ensures pass.graph == Unblocked(old(pass.graph), l) && pass.states == old(pass.states)
      ensures pass.out == old(pass.out) && SameWork(old(pass), pass)
    {
      Make(UnblockNode(l));
    }

    /** Placing a node, as an event of the run. */
    ghost method RunPlace(l: TransactionPriorityId, t: nat, a: Attempt, holds: multiset<Hold>)
      requires Stands(holds) && start.Valid() && l in start.queue
      requires Permitted(numThreads, Whole(sys, Wires(), holds), PlacedEvent(start, l, t))
      requires locks.holds == holds + TxHolds(start.Ttl(l).transaction, t)
      requires t < |sys.tail| && a == Attempt(l.id, start.Ttl(l), start.states[l.id].cost, t, sys.tail[t])
      modifies `sys, `events
      ensures Valid() && old(events) <= events && sys == Extended(old(sys), a)
    {
      var before, event := Whole(sys, Wires(), holds), PlacedEvent(start, l, t);
      RunNext(numThreads, events, before, event);
      events, sys := events + [event], Next(numThreads, before, event).s;
    }

    ghost method MovePlace(l: TransactionPriorityId, t: nat, a: Attempt)
      requires start.Valid() && PassAfter(start, moves) == Some(pass) && l in start.queue
      requires Allowed(start, pass, PlaceNode(l, t)) && a == NewAttempt(start, pass, l, t)
      modifies `moves, `pass
      ensures PassAfter(start, moves) == Some(pass) && Sends(moves) == Sends(old(moves))
      ensures pass.log == old(pass.log) + [a] && pass.tail == old(pass.tail)
      ensures pass.graph == Popped(old(pass.graph), l)
      ensures pass.states == old(pass.states)[l.id := start.states[l.id].TransitionToPending().0]
      ensures SameAfterPop(old(pass), pass) && |pass.who| == |old(pass.who)| + 1 && |pass.out| == |old(pass.out)| + 1
      ensures pass.blocking == old(pass.blocking) && pass.unschedulable == old(pass.unschedulable)
      ensures SentCount(pass.log, pass.tail) == old(SentCount(pass.log, pass.tail))
    {
      SentCountNext(pass.log, pass.tail, a);
      Undecided(start, moves, pass, l);
      Make(PlaceNode(l, t));
    }

    ghost method PlaceInPass(l: TransactionPriorityId, t: nat, a: Attempt, state: TransactionState,
                             holds: multiset<Hold>,
                             queue: set<TransactionPriorityId>, states: States, graph: Graph, blocking: Access,
                             unschedulable: seq<TransactionPriorityId>)
      requires Stands(holds) && PassIs(queue, states, graph, blocking, unschedulable, [])
      requires Foremost(graph, l) && l in start.queue && t < numThreads && start.states[l.id].Unprocessed?
      requires locks.holds == holds + TxHolds(start.Ttl(l).transaction, t)
      requires Chosen(numThreads, sys, holds, start.Ttl(l).transaction, t)
      requires !Conflict(blocking, start.Uses(l)) && start.filter(start.Ttl(l).transaction) && Working(start, pass)
      requires t < |sys.tail| && a == Attempt(l.id, start.Ttl(l), start.states[l.id].cost, t, sys.tail[t])
      requires state == start.states[l.id].TransitionToPending().0
      modifies `sys, `events, `moves, `pass
      ensures Valid() && old(events) <= events && sys == Extended(old(sys), a)
      ensures PassIs(queue, states[l.id := state], Popped(graph, l), blocking, unschedulable, [])
      ensures |pass.who| == |old(pass.who)| + 1 && |pass.out| == |old(pass.out)| + 1 && SameRound(old(pass), pass)
      ensures SentCount(sys.log, sys.tail) == old(SentCount(sys.log, sys.tail))
    {
      PlaceAllowed(numThreads, events, Whole(sys, Wires(), holds), start, moves, pass, l, t);
      RunPlace(l, t, a, holds);
      MovePlace(l, t, a);
    }

    /** Sends the batch of worker `t` within a pass, if there is anything in it, as the move `m`. */
    method FlushBatch(t: nat, ghost m: Move, container: TransactionStateContainer, ghost graph: Graph,
                      blocking: ReadWriteAccountSet, batches: Batches, ghost unschedulable: seq<TransactionPriorityId>)
      returns (numSent: nat)
      requires Valid() && Passing(container, graph, blocking.Locked(), batches, unschedulable, [])
      requires batches.OpenBut(t) && Sendable(start, pass, m) && m.thread == t < numThreads
      modifies `channels, `events, `sys, `slotOf, `moves, `pass
      modifies tracker, tracker.generator, batches
      ensures InPass(container, graph, blocking, batches, unschedulable, [])
      ensures sys.log == old(sys.log) && old(events) <= events
      ensures sys.tail == old(sys.tail) || (t < |old(sys.tail)| && sys.tail == AdvancedTail(old(sys.tail), t))
      ensures t < |sys.tail| && SlotItems(sys.log, t, sys.tail[t]) == []
      ensures SentCount(sys.log, sys.tail) == old(SentCount(sys.log, sys.tail)) + numSent
      ensures pass.out == old(pass.out) && pass.who == old(pass.who) && pass.marks == old(pass.marks)
      ensures m.SendTo? ==> pass.flushing == old(pass.flushing)
      ensures numSent == |SlotItems(old(sys.log), t, old(sys.tail)[t])|
    {
      if batches.ids[t] != [] {
        SendRoom(start, moves, pass, t);
      }
      numSent := SendBatch(batches, t);
      if numSent != 0 {
        MakeSend(m);
      }
    }

    // ---- Filling the window ----

    method PopChunk(size: nat, container: TransactionStateContainer, ghost graph: Graph, blocking: ReadWriteAccountSet,
                    batches: Batches, ghost unschedulable: seq<TransactionPriorityId>)
      returns (ids: seq<TransactionPriorityId>)
      requires InPass(container, graph, blocking, batches, unschedulable, []) && Quiet(pass)
      modifies `moves, `pass, container`priorityQueue
      ensures InPass(container, graph, blocking, batches, unschedulable, ids)
      ensures |ids| <= size && (|ids| < size ==> container.priorityQueue == {})
      ensures |container.priorityQueue| + |ids| == |old(container.priorityQueue)|
      ensures pass.out == old(pass.out) && pass.who == old(pass.who) && SameRound(old(pass), pass)
    {
      ids := [];
      for i := 0 to size
        invariant InPass(container, graph, blocking, batches, unschedulable, ids) && |ids| == i
        invariant |container.priorityQueue| + |ids| == |old(container.priorityQueue)|
        invariant pass.out == old(pass.out) && pass.who == old(pass.who) && SameRound(old(pass), pass)
      {
        var top := PopNext(container, graph, blocking, batches, unschedulable, ids);
        if top.None? {
          break;
        }
        ids := ids + [top.value];
      }
    }

    method PopNext(container: TransactionStateContainer, ghost graph: Graph, blocking: ReadWriteAccountSet,
                   batches: Batches, ghost unschedulable: seq<TransactionPriorityId>,
                   ghost ids: seq<TransactionPriorityId>)
      returns (top: Option<TransactionPriorityId>)
      requires InPass(container, graph, blocking, batches, unschedulable, ids) && Quiet(pass)
      modifies `moves, `pass, container`priorityQueue
      ensures top.None? ==> InPass(container, graph, blocking, batches, unschedulable, ids)
      ensures top.Some? ==> InPass(container, graph, blocking, batches, unschedulable, ids + [top.value])
      ensures if top.None? then container.priorityQueue == old(container.priorityQueue) == {}
        else |container.priorityQueue| + 1 == |old(container.priorityQueue)|
      ensures pass.out == old(pass.out) && pass.who == old(pass.who) && SameRound(old(pass), pass)
    {
      top := container.Pop();
      if top.Some? {
        MakeTake(top.value);
      }
    }

    /** Admits to the graph what the filter lets through, and forgets the rest. */
    method FilterChunk(ids: seq<TransactionPriorityId>, filter: seq<bool>, ghost txs: seq<Transaction>, ghost n: nat,
                       container: TransactionStateContainer, graph: PrioGraph, blocking: ReadWriteAccountSet,
                       batches: Batches, ghost unschedulable: seq<TransactionPriorityId>)
      returns (numFilteredOut: nat)
      requires InPass(container, graph.graph, blocking, batches, unschedulable, ids) && Quiet(pass) && |ids| <= |filter|
      requires filter == start.graphFilter(txs, n) && TransactionsOf(ids, txs) && |ids| <= n <= 128
      modifies `moves, `pass, container`states, graph
      ensures InPass(container, graph.graph, blocking, batches, unschedulable, [])
      ensures |pass.out| == |old(pass.out)| + numFilteredOut && pass.who == old(pass.who) && SameRound(old(pass), pass)
      ensures graph.graph.popped == old(graph.graph.popped) && graph.graph.unblocked == old(graph.graph.unblocked)
    {
      numFilteredOut := 0;
      for i := 0 to |ids|
        invariant InPass(container, graph.graph, blocking, batches, unschedulable, ids[i..])
        invariant |pass.out| == |old(pass.out)| + numFilteredOut && pass.who == old(pass.who)
        invariant SameRound(old(pass), pass)
        invariant graph.graph.popped == old(graph.graph.popped) && graph.graph.unblocked == old(graph.graph.unblocked)
      {
        assert ids[i..][0] == ids[i] && ids[i..][1..] == ids[i + 1..];
        if !filter[i] {
          numFilteredOut := numFilteredOut + 1;
        }
        FilterOne(ids[i], filter[i], txs, n, i, container, graph, blocking, batches, unschedulable, ids[i..]);
      }
    }

    method FilterOne(x: TransactionPriorityId, admitted: bool, ghost txs: seq<Transaction>, ghost n: nat, ghost i: nat,
                     container: TransactionStateContainer, graph: PrioGraph, blocking: ReadWriteAccountSet,
                     batches: Batches, ghost unschedulable: seq<TransactionPriorityId>,
                     ghost chunk: seq<TransactionPriorityId>)
      requires InPass(container, graph.graph, blocking, batches, unschedulable, chunk) && chunk != [] && chunk[0] == x
      requires Quiet(pass) && x in start.queue && AnswerAt(start, x, txs, n, i, admitted)
      modifies `moves, `pass, container`states, graph
      ensures InPass(container, graph.graph, blocking, batches, unschedulable, chunk[1..])
      ensures |pass.out| == |old(pass.out)| + (if admitted then 0 else 1) && pass.who == old(pass.who)
      ensures SameRound(old(pass), pass)
      ensures graph.graph.popped == old(graph.graph.popped) && graph.graph.unblocked == old(graph.graph.unblocked)
    {
      ChunkKnown(start, moves, pass, x);
      if admitted {
        AdmitNode(x, txs, n, i, container, graph, blocking, batches, unschedulable, chunk);
      } else {
        RejectNode(x, txs, n, i, container, graph, blocking, batches, unschedulable, chunk);
      }
    }

    /** Fills the look-ahead window from the queue, a chunk at a time. While something waits, what
        was taken from the queue is what was taken off the budget. */
    method ChunkedPops(preGraphFilter: GraphFilter, budget: nat, container: TransactionStateContainer, graph: PrioGraph,
                       blocking: ReadWriteAccountSet, batches: Batches, ghost unschedulable: seq<TransactionPriorityId>)
      returns (budget': nat, numFilteredOut: nat)
      requires InPass(container, graph.graph, blocking, batches, unschedulable, []) && Quiet(pass)
      requires preGraphFilter == start.graphFilter
      modifies `moves, `pass, container, graph
      ensures InPass(container, graph.graph, blocking, batches, unschedulable, [])
      ensures budget' == 0 || |container.priorityQueue| == 0
      ensures Charged(budget, |old(container.priorityQueue)|, budget', |container.priorityQueue|)
      ensures |pass.out| == |old(pass.out)| + numFilteredOut && pass.who == old(pass.who) && SameRound(old(pass), pass)
      ensures graph.graph.popped == old(graph.graph.popped) && graph.graph.unblocked == old(graph.graph.unblocked)
    {
      budget', numFilteredOut := budget, 0;
      while budget' > 0
        invariant InPass(container, graph.graph, blocking, batches, unschedulable, [])
        invariant Charged(budget, |old(container.priorityQueue)|, budget', |container.priorityQueue|)
        invariant |pass.out| == |old(pass.out)| + numFilteredOut && pass.who == old(pass.who)
        invariant SameRound(old(pass), pass)
        invariant graph.graph.popped == old(graph.graph.popped) && graph.graph.unblocked == old(graph.graph.unblocked)
      {
        var chunkSize := if budget' < MAX_FILTER_CHUNK_SIZE then budget' else MAX_FILTER_CHUNK_SIZE;
        budget' := budget' - chunkSize;
        var numPopped, n := TakeChunk(preGraphFilter, chunkSize, container, graph, blocking, batches, unschedulable);
        numFilteredOut := numFilteredOut + n;
        if numPopped != chunkSize {
          break;
        }
      }
    }

    /** Takes one chunk from the queue into the graph, less what the filter turns away. */
    method TakeChunk(preGraphFilter: GraphFilter, chunkSize: nat, container: TransactionStateContainer,
                     graph: PrioGraph,
                     blocking: ReadWriteAccountSet, batches: Batches, ghost unschedulable: seq<TransactionPriorityId>)
      returns (numPopped: nat, numFilteredOut: nat)
      requires InPass(container, graph.graph, blocking, batches, unschedulable, []) && Quiet(pass)
      requires preGraphFilter == start.graphFilter && chunkSize <= 128
      modifies `moves, `pass, container, graph
      ensures InPass(container, graph.graph, blocking, batches, unschedulable, [])
      ensures numPopped <= chunkSize && (numPopped < chunkSize ==> container.priorityQueue == {})
      ensures |container.priorityQueue| + numPopped == |old(container.priorityQueue)|
      ensures |pass.out| == |old(pass.out)| + numFilteredOut && pass.who == old(pass.who) && SameRound(old(pass), pass)
      ensures graph.graph.popped == old(graph.graph.popped) && graph.graph.unblocked == old(graph.graph.unblocked)
    {
      var ids := PopChunk(chunkSize, container, graph.graph, blocking, batches, unschedulable);
      numPopped := |ids|;
      numFilteredOut := SiftChunk(preGraphFilter, chunkSize, ids, container, graph, blocking, batches, unschedulable);
    }

    method SiftChunk(preGraphFilter: GraphFilter, chunkSize: nat, ids: seq<TransactionPriorityId>,
                     container: TransactionStateContainer, graph: PrioGraph, blocking: ReadWriteAccountSet,
                     batches: Batches, ghost unschedulable: seq<TransactionPriorityId>)
      returns (numFilteredOut: nat)
      requires InPass(container, graph.graph, blocking, batches, unschedulable, ids) && |ids| <= chunkSize
      requires Quiet(pass) && preGraphFilter == start.graphFilter && chunkSize <= 128
      modifies `moves, `pass, container`states, graph
      ensures InPass(container, graph.graph, blocking, batches, unschedulable, [])
      ensures |pass.out| == |old(pass.out)| + numFilteredOut && pass.who == old(pass.who) && SameRound(old(pass), pass)
      ensures graph.graph.popped == old(graph.graph.popped) && graph.graph.unblocked == old(graph.graph.unblocked)
    {
      var filter, txs := AskFilter(preGraphFilter, chunkSize, ids, container, graph.graph, blocking, batches,
                                   unschedulable);
      numFilteredOut := FilterChunk(ids, filter, txs, chunkSize, container, graph, blocking, batches, unschedulable);
    }

    /** What the filter answers for a chunk. */
    method AskFilter(preGraphFilter: GraphFilter, chunkSize: nat, ids: seq<TransactionPriorityId>,
                     container: TransactionStateContainer, ghost graph: Graph, blocking: ReadWriteAccountSet,
                     batches: Batches, ghost unschedulable: seq<TransactionPriorityId>)
      returns (filter: seq<bool>, ghost txs: seq<Transaction>)
      requires InPass(container, graph, blocking, batches, unschedulable, ids) && preGraphFilter == start.graphFilter
      ensures TransactionsOf(ids, txs) && filter == start.graphFilter(txs, chunkSize) && |filter| == chunkSize
    {
      var asked := ChunkTransactions(ids, container, graph, blocking, batches, unschedulable);
      txs := asked;
      filter := preGraphFilter(asked, chunkSize);
    }

    /** These are the transactions of the waiting `ids`. */
    ghost predicate TransactionsOf(ids: seq<TransactionPriorityId>, txs: seq<Transaction>)
      requires start.Valid()
      reads `start
    {
      |txs| == |ids| && forall i :: 0 <= i < |ids| ==> ids[i] in start.queue && txs[i] == start.Ttl(ids[i]).transaction
    }

    method ChunkTransactions(ids: seq<TransactionPriorityId>, container: TransactionStateContainer, ghost graph: Graph,
                             blocking: ReadWriteAccountSet, batches: Batches,
                             ghost unschedulable: seq<TransactionPriorityId>)
      returns (txs: seq<Transaction>)
      requires InPass(container, graph, blocking, batches, unschedulable, ids)
      ensures TransactionsOf(ids, txs)
    {
      txs := [];
      for i := 0 to |ids|
        invariant TransactionsOf(ids[..i], txs)
      {
        ChunkKnown(start, moves, pass, ids[i]);
        assert ids[..i + 1] == ids[..i] + [ids[i]];
        txs := txs + [container.states[ids[i].id].transactionTtl.transaction];
      }
      assert ids[..|ids|] == ids;
    }

    method AdmitNode(x: TransactionPriorityId, ghost txs: seq<Transaction>, ghost n: nat, ghost i: nat,
                     container: TransactionStateContainer, graph: PrioGraph,
                     blocking: ReadWriteAccountSet, batches: Batches, ghost unschedulable: seq<TransactionPriorityId>,
                     ghost chunk: seq<TransactionPriorityId>)
      requires InPass(container, graph.graph, blocking, batches, unschedulable, chunk) && chunk != [] && chunk[0] == x
      requires Quiet(pass)
      requires x in start.queue && x.id in container.states && container.states[x.id] == start.states[x.id]
      requires x !in graph.graph.nodes && AnswerAt(start, x, txs, n, i, true)
      modifies `moves, `pass, graph
      ensures InPass(container, graph.graph, blocking, batches, unschedulable, chunk[1..])
      ensures pass.out == old(pass.out) && pass.who == old(pass.who) && SameRound(old(pass), pass)
      ensures graph.graph.popped == old(graph.graph.popped) && graph.graph.unblocked == old(graph.graph.unblocked)
    {
      GraphValid(start, moves, pass);
      graph.InsertTransaction(x, AccessOf(container.states[x.id].transactionTtl.transaction));
      MakeAdmit(x, txs, n, i);
    }

    method RejectNode(x: TransactionPriorityId, ghost txs: seq<Transaction>, ghost n: nat, ghost i: nat,
                      container: TransactionStateContainer, graph: PrioGraph,
                      blocking: ReadWriteAccountSet, batches: Batches, ghost unschedulable: seq<TransactionPriorityId>,
                      ghost chunk: seq<TransactionPriorityId>)
      requires InPass(container, graph.graph, blocking, batches, unschedulable, chunk) && chunk != [] && chunk[0] == x
      requires Quiet(pass)
      requires x.id in container.states && x in start.queue && AnswerAt(start, x, txs, n, i, false)
      modifies `moves, `pass, container`states
      ensures InPass(container, graph.graph, blocking, batches, unschedulable, chunk[1..])
      ensures |pass.out| == |old(pass.out)| + 1 && pass.who == old(pass.who) && SameRound(old(pass), pass)
    {
      container.RemoveById(x.id);
      MakeReject(x, txs, n, i);
    }

    /** Sends every batch with something in it. */
    method SendBatches(container: TransactionStateContainer, ghost graph: Graph, blocking: ReadWriteAccountSet,
                       batches: Batches, ghost unschedulable: seq<TransactionPriorityId>)
      returns (numSent: nat)
      requires InPass(container, graph, blocking, batches, unschedulable, []) && RoundOver(start, pass)
      modifies `channels, `events, `sys, `slotOf, `moves, `pass, tracker, tracker.generator, batches
      ensures InPass(container, graph, blocking, batches, unschedulable, []) && old(events) <= events
      ensures RoundOver(start, pass) && sys.log == old(sys.log)
      ensures pass.out == old(pass.out) && pass.who == old(pass.who) && pass.marks == old(pass.marks)
      ensures SentCount(sys.log, sys.tail) == old(SentCount(sys.log, sys.tail)) + numSent
      ensures NothingOpen(sys.log, sys.tail) && SentCount(sys.log, sys.tail) == |start.log| + |pass.who|
    {
      numSent := 0;
      for t := 0 to numThreads
        invariant InPass(container, graph, blocking, batches, unschedulable, []) && old(events) <= events
        invariant pass.out == old(pass.out) && pass.who == old(pass.who) && sys.log == old(sys.log)
        invariant pass.marks == old(pass.marks) && RoundOver(start, pass)
        invariant SentCount(sys.log, sys.tail) == old(SentCount(sys.log, sys.tail)) + numSent
        invariant Emptied(sys.log, sys.tail, t)
      {
        ghost var tail := sys.tail;
        var n := FlushAtEnd(t, container, graph, blocking, batches, unschedulable);
        EmptiedNext(sys.log, tail, sys.tail, t);
        numSent := numSent + n;
      }
      AllSent(start, moves, pass);
    }

    /** Sends what the batch of `t` holds at the end of a round. */
    method FlushAtEnd(t: nat, container: TransactionStateContainer, ghost graph: Graph, blocking: ReadWriteAccountSet,
                      batches: Batches, ghost unschedulable: seq<TransactionPriorityId>)
      returns (numSent: nat)
      requires InPass(container, graph, blocking, batches, unschedulable, []) && RoundOver(start, pass)
      requires t < numThreads
      modifies `channels, `events, `sys, `slotOf, `moves, `pass, tracker, tracker.generator, batches
      ensures InPass(container, graph, blocking, batches, unschedulable, []) && RoundOver(start, pass)
      ensures sys.log == old(sys.log) && old(events) <= events
      ensures sys.tail == old(sys.tail) || (t < |old(sys.tail)| && sys.tail == AdvancedTail(old(sys.tail), t))
      ensures t < |sys.tail| && SlotItems(sys.log, t, sys.tail[t]) == []
      ensures SentCount(sys.log, sys.tail) == old(SentCount(sys.log, sys.tail)) + numSent
      ensures pass.out == old(pass.out) && pass.who == old(pass.who) && pass.marks == old(pass.marks)
    {
      batches.ItemsInBatch(sys, numThreads, t);
      numSent := FlushBatch(t, FlushTo(t), container, graph, blocking, batches, unschedulable);
    }

    // ---- The scheduling loop ----

    /** Pops the best node that can be popped and decides about it; a batch that has become full is
        sent at once. */
    method ScheduleNext(preLockFilter: Transaction -> bool, container: TransactionStateContainer, graph: PrioGraph,
                        blocking: ReadWriteAccountSet, batches: Batches, unschedulable: seq<TransactionPriorityId>)
      returns (popped: Option<TransactionPriorityId>, unschedulable': seq<TransactionPriorityId>, placed: Option<nat>,
               numSent: nat)
      requires InPass(container, graph.graph, blocking, batches, unschedulable, []) && preLockFilter == start.filter
      requires !pass.flushing && !Halted(start, pass)
      modifies `channels, `events, `sys, `slotOf, `moves, `pass, tracker, tracker.generator, locks
      modifies container`states, graph, blocking, batches
      ensures InPass(container, graph.graph, blocking, batches, unschedulable', []) && old(events) <= events
      ensures graph.graph.unblocked == old(graph.graph.unblocked)
      ensures popped.None? <==> Stuck(old(graph.graph))
      ensures popped.None? ==> graph.graph == old(graph.graph) && pass == old(pass) && placed.None?
      ensures SameRound(old(pass), pass)
      ensures if placed.Some? then OneMore(old(sys.log), sys.log, start.released, placed.value)
        else sys.log == old(sys.log)
      ensures popped.Some? ==>
        && graph.graph.popped == old(graph.graph.popped) + {popped.value}
        && |graph.graph.popped| == |old(graph.graph.popped)| + 1 && |pass.out| == |old(pass.out)| + 1
      ensures |pass.who| == |old(pass.who)| + if placed.Some? then 1 else 0
      ensures SentCount(sys.log, sys.tail) == old(SentCount(sys.log, sys.tail)) + numSent
      ensures placed.Some? ==> placed.value < numThreads
    {
      ghost var g := graph.graph;
      GraphValid(start, moves, pass);
      unschedulable', placed, numSent := unschedulable, None, 0;
      popped := graph.Pop();
      if popped.Some? {
        unschedulable', placed, numSent := ScheduleAndFlush(popped.value, preLockFilter, container, g, blocking,
                                                            batches, unschedulable);
      }
    }

    /** Decides about the node `l` just popped, and sends the batch it may have filled. */
    method ScheduleAndFlush(l: TransactionPriorityId, preLockFilter: Transaction -> bool,
                            container: TransactionStateContainer, ghost graph: Graph, blocking: ReadWriteAccountSet,
                            batches: Batches, unschedulable: seq<TransactionPriorityId>)
      returns (unschedulable': seq<TransactionPriorityId>, placed: Option<nat>, numSent: nat)
      requires InPass(container, graph, blocking, batches, unschedulable, []) && Foremost(graph, l)
      requires preLockFilter == start.filter && !pass.flushing && !Halted(start, pass)
      modifies `channels, `events, `sys, `slotOf, `moves, `pass, tracker, tracker.generator, locks
      modifies container`states, blocking, batches
      ensures InPass(container, Popped(graph, l), blocking, batches, unschedulable', []) && old(events) <= events
      ensures |pass.who| == |old(pass.who)| + if placed.Some? then 1 else 0
      ensures |pass.out| == |old(pass.out)| + 1
      ensures SentCount(sys.log, sys.tail) == old(SentCount(sys.log, sys.tail)) + numSent
      ensures placed.Some? ==> placed.value < numThreads
      ensures SameRound(old(pass), pass)
      ensures if placed.Some? then OneMore(old(sys.log), sys.log, start.released, placed.value)
        else sys.log == old(sys.log)
    {
      unschedulable', placed := ScheduleNode(l, preLockFilter, container, graph, blocking, batches, unschedulable);
      numSent := FlushPlaced(placed, container, Popped(graph, l), blocking, batches, unschedulable');
    }

    method FlushPlaced(placed: Option<nat>, container: TransactionStateContainer, ghost graph: Graph,
                       blocking: ReadWriteAccountSet, batches: Batches,
                       ghost unschedulable: seq<TransactionPriorityId>)
      returns (numSent: nat)
      requires Valid() && Passing(container, graph, blocking.Locked(), batches, unschedulable, []) && !pass.flushing
      requires if placed.Some? then placed.value < numThreads && batches.OpenBut(placed.value) else batches.Open()
      modifies `channels, `events, `sys, `slotOf, `moves, `pass, tracker, tracker.generator, batches
      ensures InPass(container, graph, blocking, batches, unschedulable, []) && old(events) <= events
      ensures SentCount(sys.log, sys.tail) == old(SentCount(sys.log, sys.tail)) + numSent
      ensures pass.out == old(pass.out) && pass.who == old(pass.who) && SameRound(old(pass), pass)
      ensures sys.log == old(sys.log)
    {
      numSent := 0;
      if placed.Some? {
        numSent := FlushIfFull(placed.value, container, graph, blocking, batches, unschedulable);
      }
    }

    method FlushIfFull(t: nat, container: TransactionStateContainer, ghost graph: Graph, blocking: ReadWriteAccountSet,
                       batches: Batches, ghost unschedulable: seq<TransactionPriorityId>)
      returns (numSent: nat)
      requires Valid() && Passing(container, graph, blocking.Locked(), batches, unschedulable, [])
      requires batches.OpenBut(t) && t < numThreads && !pass.flushing
      modifies `channels, `events, `sys, `slotOf, `moves, `pass, tracker, tracker.generator, batches
      ensures InPass(container, graph, blocking, batches, unschedulable, []) && old(events) <= events
      ensures SentCount(sys.log, sys.tail) == old(SentCount(sys.log, sys.tail)) + numSent
      ensures numSent == 0 || numSent == 128
      ensures pass.out == old(pass.out) && pass.who == old(pass.who) && SameRound(old(pass), pass)
      ensures sys.log == old(sys.log)
    {
      numSent := 0;
      if |batches.ids[t]| >= TARGET_NUM_TRANSACTIONS_PER_BATCH {
        batches.ItemsInBatch(sys, numThreads, t);
        numSent := FlushBatch(t, SendTo(t), container, graph, blocking, batches, unschedulable);
      }
    }

    /** Takes `t` out of the schedulable threads once it has as much work as it should get, and
        says to stop when it was the last one. */
    method NarrowSchedulable(schedulable: ThreadSet, t: nat, maxCu: nat, batches: Batches)
      returns (r: ThreadSet, stop: bool)
      requires t < |tracker.cusInFlightPerThread| && t < |batches.totalCus| && t < MAX_THREADS
      ensures r.Threads() == if tracker.cusInFlightPerThread[t] + batches.totalCus[t] >= maxCu
        then schedulable.Threads() - {t} else schedulable.Threads()
      ensures stop <==> tracker.cusInFlightPerThread[t] + batches.totalCus[t] >= maxCu && r.Threads() == {}
    {
      r, stop := schedulable, false;
      if tracker.cusInFlightPerThread[t] + batches.totalCus[t] >= maxCu {
        r := schedulable.Remove(t);
        stop := r.IsEmpty();
      }
    }

    /** The filters are the ones the pass began with. */
    ghost predicate Using(filters: Filters)
      reads `start
    {
      start.filter == filters.lock && start.graphFilter == filters.graph
    }

    /** The counters of the pass: placed, sent, and filtered out before the graph. */
    ghost predicate Counted(numScheduled: nat, numSent: nat, numFilteredOut: nat)
      reads `start, `sys, `pass
    {
      && numScheduled == |pass.who|
      && SentCount(sys.log, sys.tail) == |start.log| + numSent
      && |pass.out| == |pass.graph.popped| + numFilteredOut
    }

    /** One turn of the inner loop. */
    method ScheduleTurn(preLockFilter: Transaction -> bool, maxCu: nat, schedulable: ThreadSet, numScheduled: nat,
                        numSent: nat, ghost numFilteredOut: nat, container: TransactionStateContainer, graph: PrioGraph,
                        blocking: ReadWriteAccountSet, batches: Batches, unschedulable: seq<TransactionPriorityId>)
      returns (popped: Option<TransactionPriorityId>, stop: bool, schedulable': ThreadSet, numScheduled': nat,
               numSent': nat, unschedulable': seq<TransactionPriorityId>)
      requires InPass(container, graph.graph, blocking, batches, unschedulable, []) && preLockFilter == start.filter
      requires Counted(numScheduled, numSent, numFilteredOut)
      requires Rolling(start, pass, numThreads, maxCu, schedulable.Threads()) && !Halted(start, pass)
      modifies `channels, `events, `sys, `slotOf, `moves, `pass, tracker, tracker.generator, locks
      modifies container`states, graph, blocking, batches
      ensures InPass(container, graph.graph, blocking, batches, unschedulable', []) && old(events) <= events
      ensures Counted(numScheduled', numSent', numFilteredOut)
      ensures numScheduled' == numScheduled || numScheduled' == numScheduled + 1
      ensures Rolling(start, pass, numThreads, maxCu, schedulable'.Threads()) && (stop <==> Halted(start, pass))
      ensures graph.graph.unblocked == old(graph.graph.unblocked)
      ensures popped.None? <==> Stuck(old(graph.graph))
      ensures popped.None? ==> graph.graph == old(graph.graph) && pass == old(pass)
      ensures popped.Some? ==>
        graph.graph.popped == old(graph.graph.popped) + {popped.value} && |pass.out| == |old(pass.out)| + 1
    {
      var placed, n;
      stop, schedulable', numScheduled' := false, schedulable, numScheduled;
      popped, unschedulable', placed, n :=
        ScheduleNext(preLockFilter, container, graph, blocking, batches, unschedulable);
      numSent' := numSent + n;
      if placed.Some? {
        numScheduled' := numScheduled' + 1;
        schedulable', stop := StopOrNarrow(schedulable', placed.value, maxCu, numScheduled', batches, old(pass));
      } else {
        RollsOn(start, old(pass), pass, numThreads, maxCu, schedulable.Threads());
      }
    }

    /** After a node was placed on `t`: the threads that still have room, and whether to stop. */
    method StopOrNarrow(schedulable: ThreadSet, t: nat, maxCu: nat, numScheduled: nat, batches: Batches,
                        ghost before: Pass)
      returns (r: ThreadSet, stop: bool)
      requires Valid() && batches.Match(sys, numThreads) && Linked(start, pass, sys) && numScheduled == |pass.who|
      requires Rolling(start, before, numThreads, maxCu, schedulable.Threads()) && SameRound(before, pass)
      requires t < numThreads && OneMore(before.log, pass.log, start.released, t)
      ensures Rolling(start, pass, numThreads, maxCu, r.Threads()) && (stop <==> Halted(start, pass))
    {
      RoomKnown(batches, before.log, t, maxCu);
      r, stop := NarrowSchedulable(schedulable, t, maxCu, batches);
      HaltsWhenPlaced(start, before, pass, numThreads, maxCu, schedulable.Threads(), r.Threads(), t);
      stop := stop || numScheduled >= MAX_TRANSACTIONS_PER_SCHEDULING_PASS;
    }

    /** Schedules until nothing more can be popped, the pass is full or no thread has room. */
    method ScheduleRound(preLockFilter: Transaction -> bool, maxCu: nat, schedulable: ThreadSet, numScheduled: nat,
                         numSent: nat, ghost numFilteredOut: nat, container: TransactionStateContainer,
                         graph: PrioGraph, blocking: ReadWriteAccountSet, batches: Batches,
                         unschedulable: seq<TransactionPriorityId>)
      returns (schedulable': ThreadSet, numScheduled': nat, numSent': nat, unschedulable': seq<TransactionPriorityId>,
               unblock: seq<TransactionPriorityId>)
      requires InPass(container, graph.graph, blocking, batches, unschedulable, []) && preLockFilter == start.filter
      requires Counted(numScheduled, numSent, numFilteredOut) && numScheduled < MAX_TRANSACTIONS_PER_SCHEDULING_PASS
      requires Fresh(start, pass, numThreads, maxCu, schedulable.Threads())
      modifies `channels, `events, `sys, `slotOf, `moves, `pass, tracker, tracker.generator, locks
      modifies container`states, graph, blocking, batches
      ensures InPass(container, graph.graph, blocking, batches, unschedulable', []) && old(events) <= events
      ensures Counted(numScheduled', numSent', numFilteredOut) && numScheduled' <= MAX_TRANSACTIONS_PER_SCHEDULING_PASS
      ensures Rolling(start, pass, numThreads, maxCu, schedulable'.Threads()) && RoundOver(start, pass)
      ensures graph.graph.unblocked == old(graph.graph.unblocked)
      ensures graph.graph.popped == AddAll(old(graph.graph.popped), unblock)
      ensures |pass.out| == |old(pass.out)| + |unblock| && (!Stuck(old(graph.graph)) ==> unblock != [])
    {
      schedulable', numScheduled', numSent', unschedulable', unblock :=
        schedulable, numScheduled, numSent, unschedulable, [];
      var stop := false;
      while !stop
        invariant InPass(container, graph.graph, blocking, batches, unschedulable', []) && old(events) <= events
        invariant Counted(numScheduled', numSent', numFilteredOut)
        invariant numScheduled' <= MAX_TRANSACTIONS_PER_SCHEDULING_PASS
        invariant Rolling(start, pass, numThreads, maxCu, schedulable'.Threads()) && (stop <==> Halted(start, pass))
        invariant graph.graph.unblocked == old(graph.graph.unblocked)
        invariant graph.graph.popped == AddAll(old(graph.graph.popped), unblock)
        invariant |pass.out| == |old(pass.out)| + |unblock|
        invariant unblock == [] ==> graph.graph == old(graph.graph) && !stop
        decreases |start.queue| - |pass.out|
      {
        var popped;
        popped, stop, schedulable', numScheduled', numSent', unschedulable' :=
          ScheduleTurn(preLockFilter, maxCu, schedulable', numScheduled', numSent', numFilteredOut,
                       container, graph, blocking, batches, unschedulable');
        if popped.None? {
          break;
        }
        DecisionsFit(start, moves, pass);
        AddAllNext(old(graph.graph.popped), unblock, popped.value);
        unblock := unblock + [popped.value];
      }
    }

    /** One turn of the outer loop: a round, all batches sent, the window refilled, and only then
        the popped nodes unblocked. */
    method PassTurn(filters: Filters, maxCu: nat, schedulable: ThreadSet, budget: nat, numScheduled: nat,
                    numSent: nat, numFilteredOut: nat,
                    container: TransactionStateContainer, graph: PrioGraph, blocking: ReadWriteAccountSet,
                    batches: Batches, unschedulable: seq<TransactionPriorityId>)
      returns (schedulable': ThreadSet, budget': nat, numScheduled': nat, numSent': nat, numFilteredOut': nat,
               unschedulable': seq<TransactionPriorityId>)
      requires InPass(container, graph.graph, blocking, batches, unschedulable, [])
      requires Counted(numScheduled, numSent, numFilteredOut) && numScheduled < MAX_TRANSACTIONS_PER_SCHEDULING_PASS
      requires Windowed(container, budget, numFilteredOut)
      requires graph.graph.unblocked == graph.graph.popped && !Stuck(graph.graph) && Using(filters)
      requires Fresh(start, pass, numThreads, maxCu, schedulable.Threads())
      modifies `channels, `events, `sys, `slotOf, `moves, `pass, tracker, tracker.generator, locks
      modifies container, graph, blocking, batches
      ensures InPass(container, graph.graph, blocking, batches, unschedulable', []) && old(events) <= events
      ensures Counted(numScheduled', numSent', numFilteredOut') && Windowed(container, budget', numFilteredOut')
      ensures numScheduled' <= MAX_TRANSACTIONS_PER_SCHEDULING_PASS
      ensures Fresh(start, pass, numThreads, maxCu, schedulable'.Threads())
      ensures graph.graph.unblocked == graph.graph.popped && |pass.out| > |old(pass.out)|
    {
      var unblock;
      schedulable', numScheduled', numSent', unschedulable', unblock :=
        ScheduleRound(filters.lock, maxCu, schedulable, numScheduled, numSent, numFilteredOut,
                      container, graph, blocking, batches, unschedulable);
      ghost var waiting := |container.priorityQueue|;
      budget', numSent', numFilteredOut' :=
        FinishRound(filters.graph, unblock, budget, numScheduled', numSent', numFilteredOut,
                    container, graph, blocking, batches, unschedulable');
      WindowRefilled(|start.queue|, lookAheadWindowSize, budget, waiting, numFilteredOut, |old(pass.out)|, |unblock|,
                     budget', |container.priorityQueue|, numFilteredOut');
    }

    /** Sends all batches, refills the window, and only then unblocks the popped nodes. */
    method FinishRound(preGraphFilter: GraphFilter, unblock: seq<TransactionPriorityId>, budget: nat,
                       ghost numScheduled: nat, numSent: nat, numFilteredOut: nat, container: TransactionStateContainer,
                       graph: PrioGraph, blocking: ReadWriteAccountSet, batches: Batches,
                       ghost unschedulable: seq<TransactionPriorityId>)
      returns (budget': nat, numSent': nat, numFilteredOut': nat)
      requires InPass(container, graph.graph, blocking, batches, unschedulable, [])
      requires Counted(numScheduled, numSent, numFilteredOut) && preGraphFilter == start.graphFilter
      requires RoundOver(start, pass)
      requires graph.graph.popped == AddAll(graph.graph.unblocked, unblock)
      modifies `channels, `events, `sys, `slotOf, `moves, `pass, tracker, tracker.generator
      modifies container, graph, batches
      ensures InPass(container, graph.graph, blocking, batches, unschedulable, []) && old(events) <= events
      ensures Counted(numScheduled, numSent', numFilteredOut')
      ensures graph.graph.unblocked == graph.graph.popped
      ensures numFilteredOut <= numFilteredOut' && |pass.out| == |old(pass.out)| + numFilteredOut' - numFilteredOut
      ensures budget' == 0 || |container.priorityQueue| == 0
      ensures Charged(budget + |unblock|, |old(container.priorityQueue)|, budget', |container.priorityQueue|)
      ensures !pass.flushing && Quiet(pass)
      ensures sys.log == old(sys.log)
    {
      var n := EndRound(container, graph.graph, blocking, batches, unschedulable);
      numSent' := numSent + n;
      budget', n := Refill(preGraphFilter, unblock, budget + |unblock|, container, graph, blocking, batches,
                           unschedulable);
      numFilteredOut' := numFilteredOut + n;
    }

    /** Sends all batches, which ends the round. */
    method EndRound(container: TransactionStateContainer, ghost graph: Graph, blocking: ReadWriteAccountSet,
                    batches: Batches, ghost unschedulable: seq<TransactionPriorityId>)
      returns (numSent: nat)
      requires InPass(container, graph, blocking, batches, unschedulable, []) && RoundOver(start, pass)
      modifies `channels, `events, `sys, `slotOf, `moves, `pass, tracker, tracker.generator, batches
      ensures InPass(container, graph, blocking, batches, unschedulable, []) && old(events) <= events
      ensures !pass.flushing && Quiet(pass)
      ensures pass.out == old(pass.out) && pass.who == old(pass.who) && sys.log == old(sys.log)
      ensures SentCount(sys.log, sys.tail) == old(SentCount(sys.log, sys.tail)) + numSent
      ensures NothingOpen(sys.log, sys.tail)
    {
      numSent := SendBatches(container, graph, blocking, batches, unschedulable);
      MakeNextRound();
    }

    /** Refills the window, and only then unblocks the popped nodes. */
    method Refill(preGraphFilter: GraphFilter, unblock: seq<TransactionPriorityId>, budget: nat,
                  container: TransactionStateContainer, graph: PrioGraph, blocking: ReadWriteAccountSet,
                  batches: Batches, ghost unschedulable: seq<TransactionPriorityId>)
      returns (budget': nat, numFilteredOut: nat)
      requires InPass(container, graph.graph, blocking, batches, unschedulable, []) && NothingOpen(sys.log, sys.tail)
      requires graph.graph.popped == AddAll(graph.graph.unblocked, unblock) && Quiet(pass)
      requires preGraphFilter == start.graphFilter
      modifies `moves, `pass, container, graph
      ensures InPass(container, graph.graph, blocking, batches, unschedulable, [])
      ensures budget' == 0 || |container.priorityQueue| == 0
      ensures Charged(budget, |old(container.priorityQueue)|, budget', |container.priorityQueue|)
      ensures |pass.out| == |old(pass.out)| + numFilteredOut && pass.who == old(pass.who)
      ensures SameRound(old(pass), pass)
      ensures graph.graph.unblocked == graph.graph.popped == old(graph.graph.popped)
    {
      budget', numFilteredOut := ChunkedPops(preGraphFilter, budget, container, graph, blocking, batches,
                                             unschedulable);
      UnblockAll(unblock, container, graph, blocking, batches, unschedulable);
    }

    ghost predicate Windowed(container: TransactionStateContainer, budget: nat, numFilteredOut: nat)
      reads `start, `pass, container
    {
      WindowFull(|start.queue|, lookAheadWindowSize, budget, |container.priorityQueue|, numFilteredOut, |pass.out|)
    }

    /** A pass ends when it has placed all it may, when the pre-graph filter used up the window, or
        when it has decided about everything that was waiting. */
    ghost predicate Thorough(numScheduled: nat, numFilteredOut: nat)
      reads `start, `pass
    {
      && numScheduled <= 100_000
      && (|| numScheduled == 100_000
          || numFilteredOut == lookAheadWindowSize
          || pass.out.Keys == start.queue)
    }

    /** The pass proper: everything up to putting back what was not placed. */
    method RunPass(filters: Filters, maxCu: nat, schedulable: ThreadSet,
                   container: TransactionStateContainer, graph: PrioGraph, blocking: ReadWriteAccountSet,
                   batches: Batches)
      returns (unschedulable: seq<TransactionPriorityId>, numScheduled: nat, numFilteredOut: nat)
      requires InPass(container, graph.graph, blocking, batches, [], [])
      requires Counted(0, 0, 0) && graph.graph.unblocked == graph.graph.popped && Using(filters)
      requires Fresh(start, pass, numThreads, maxCu, schedulable.Threads())
      requires |pass.out| == 0 && |start.queue| == |container.priorityQueue|
      modifies `channels, `events, `sys, `slotOf, `moves, `pass, tracker, tracker.generator, locks
      modifies container, graph, blocking, batches
      ensures InPass(container, graph.graph, blocking, batches, unschedulable, []) && old(events) <= events
      ensures numScheduled == |pass.who| && |pass.out| == |pass.graph.popped| + numFilteredOut
      ensures NothingOpen(sys.log, sys.tail) && graph.graph.unblocked == graph.graph.popped
      ensures Thorough(numScheduled, numFilteredOut)
    {
      var numSent;
      unschedulable, numScheduled, numSent, numFilteredOut :=
        FillAndRun(filters, maxCu, schedulable, container, graph, blocking, batches);
      ghost var sofar := events;
      var n := SendBatches(container, graph.graph, blocking, batches, unschedulable);
      LaterStill(old(events), sofar, events);
      numSent := numSent + n;
      assert numScheduled == numSent;
    }

    method FillAndRun(filters: Filters, maxCu: nat, schedulable: ThreadSet,
                      container: TransactionStateContainer, graph: PrioGraph, blocking: ReadWriteAccountSet,
                      batches: Batches)
      returns (unschedulable: seq<TransactionPriorityId>, numScheduled: nat, numSent: nat, numFilteredOut: nat)
      requires InPass(container, graph.graph, blocking, batches, [], [])
      requires Counted(0, 0, 0) && graph.graph.unblocked == graph.graph.popped && Using(filters)
      requires Fresh(start, pass, numThreads, maxCu, schedulable.Threads())
      requires |pass.out| == 0 && |start.queue| == |container.priorityQueue|
      modifies `channels, `events, `sys, `slotOf, `moves, `pass, tracker, tracker.generator, locks
      modifies container, graph, blocking, batches
      ensures InPass(container, graph.graph, blocking, batches, unschedulable, []) && old(events) <= events
      ensures Counted(numScheduled, numSent, numFilteredOut) && Thorough(numScheduled, numFilteredOut)
      ensures RoundOver(start, pass)
      ensures graph.graph.unblocked == graph.graph.popped
    {
      var budget;
      budget, numFilteredOut := ChunkedPops(filters.graph, lookAheadWindowSize, container, graph, blocking, batches,
                                            []);
      unschedulable, numScheduled, numSent, numFilteredOut :=
        RunRounds(filters, maxCu, schedulable, budget, numFilteredOut, container, graph, blocking, batches);
    }

    method RunRounds(filters: Filters, maxCu: nat, schedulable: ThreadSet, budget: nat, numFilteredOut: nat,
                     container: TransactionStateContainer, graph: PrioGraph, blocking: ReadWriteAccountSet,
                     batches: Batches)
      returns (unschedulable: seq<TransactionPriorityId>, numScheduled: nat, numSent: nat, numFilteredOut': nat)
      requires InPass(container, graph.graph, blocking, batches, [], [])
      requires Counted(0, 0, numFilteredOut) && Windowed(container, budget, numFilteredOut)
      requires graph.graph.unblocked == graph.graph.popped && Using(filters)
      requires Fresh(start, pass, numThreads, maxCu, schedulable.Threads())
      modifies `channels, `events, `sys, `slotOf, `moves, `pass, tracker, tracker.generator, locks
      modifies container, graph, blocking, batches
      ensures InPass(container, graph.graph, blocking, batches, unschedulable, []) && old(events) <= events
      ensures Counted(numScheduled, numSent, numFilteredOut') && Thorough(numScheduled, numFilteredOut')
      ensures RoundOver(start, pass)
      ensures graph.graph.unblocked == graph.graph.popped
    {
      unschedulable, numScheduled, numSent, numFilteredOut' := [], 0, 0, numFilteredOut;
      var schedulable', budget' := schedulable, budget;
      DecisionsFit(start, moves, pass);
      while numScheduled < MAX_TRANSACTIONS_PER_SCHEDULING_PASS
        invariant InPass(container, graph.graph, blocking, batches, unschedulable, []) && old(events) <= events
        invariant Counted(numScheduled, numSent, numFilteredOut') && Windowed(container, budget', numFilteredOut')
        invariant numScheduled <= MAX_TRANSACTIONS_PER_SCHEDULING_PASS
        invariant Fresh(start, pass, numThreads, maxCu, schedulable'.Threads())
        invariant graph.graph.unblocked == graph.graph.popped && |pass.out| <= |start.queue|
        decreases |start.queue| - |pass.out|
      {
        GraphValid(start, moves, pass);
        if graph.IsEmpty() {
          RanOut(start, moves, pass, lookAheadWindowSize, budget', numFilteredOut');
          break;
        }
        schedulable', budget', numScheduled, numSent, numFilteredOut', unschedulable :=
          PassTurn(filters, maxCu, schedulable', budget', numScheduled, numSent, numFilteredOut',
                   container, graph, blocking, batches, unschedulable);
        DecisionsFit(start, moves, pass);
      }
    }

    /** Unblocks what was popped, once everything placed has been sent. */
    method UnblockAll(unblock: seq<TransactionPriorityId>, container: TransactionStateContainer, graph: PrioGraph,
                      blocking: ReadWriteAccountSet, batches: Batches, ghost unschedulable: seq<TransactionPriorityId>)
      requires InPass(container, graph.graph, blocking, batches, unschedulable, []) && NothingOpen(sys.log, sys.tail)
      requires graph.graph.popped == AddAll(graph.graph.unblocked, unblock) && Quiet(pass)
      modifies `moves, `pass, graph
      ensures InPass(container, graph.graph, blocking, batches, unschedulable, []) && NothingOpen(sys.log, sys.tail)
      ensures graph.graph.unblocked == graph.graph.popped == old(graph.graph.popped)
      ensures pass.out == old(pass.out) && pass.who == old(pass.who) && SameRound(old(pass), pass)
    {
      ghost var base := graph.graph.unblocked;
      for i := 0 to |unblock|
        invariant InPass(container, graph.graph, blocking, batches, unschedulable, []) && NothingOpen(sys.log, sys.tail)
        invariant graph.graph.popped == old(graph.graph.popped)
        invariant graph.graph.unblocked == AddAll(base, unblock[..i])
        invariant pass.out == old(pass.out) && pass.who == old(pass.who) && SameRound(old(pass), pass)
      {
        AddAllHas(base, unblock, i);
        assert unblock[..i + 1] == unblock[..i] + [unblock[i]];
        AddAllNext(base, unblock[..i], unblock[i]);
        UnblockOne(unblock[i], container, graph, blocking, batches, unschedulable);
      }
      assert unblock[..|unblock|] == unblock;
    }

    method UnblockOne(l: TransactionPriorityId, container: TransactionStateContainer, graph: PrioGraph,
                      blocking: ReadWriteAccountSet, batches: Batches, ghost unschedulable: seq<TransactionPriorityId>)
      requires InPass(container, graph.graph, blocking, batches, unschedulable, []) && NothingOpen(sys.log, sys.tail)
      requires l in graph.graph.popped && Quiet(pass)
      modifies `moves, `pass, graph
      ensures InPass(container, graph.graph, blocking, batches, unschedulable, []) && NothingOpen(sys.log, sys.tail)
      ensures graph.graph.popped == old(graph.graph.popped)
      ensures graph.graph.unblocked == old(graph.graph.unblocked) + {l}
      ensures pass.out == old(pass.out) && pass.who == old(pass.who) && SameRound(old(pass), pass)
    {
      GraphValid(start, moves, pass);
      graph.Unblock(l);
      MakeUnblock(l);
    }

    /** Decides about the node `l` just popped: drops it, finds it unschedulable, or places it. */
    method ScheduleNode(l: TransactionPriorityId, preLockFilter: Transaction -> bool,
                        container: TransactionStateContainer, ghost graph: Graph, blocking: ReadWriteAccountSet,
                        batches: Batches, unschedulable: seq<TransactionPriorityId>)
      returns (unschedulable': seq<TransactionPriorityId>, placed: Option<nat>)
      requires InPass(container, graph, blocking, batches, unschedulable, []) && Foremost(graph, l)
      requires preLockFilter == start.filter && !pass.flushing && !Halted(start, pass)
      modifies `events, `sys, `moves, `pass, locks, container`states, blocking, batches
      ensures Valid() && Passing(container, Popped(graph, l), blocking.Locked(), batches, unschedulable', [])
      ensures if placed.Some? then batches.OpenBut(placed.value) else batches.Open()
      ensures old(events) <= events && sys.tail == old(sys.tail)
      ensures |pass.who| == |old(pass.who)| + if placed.Some? then 1 else 0
      ensures |pass.out| == |old(pass.out)| + 1
      ensures SentCount(sys.log, sys.tail) == old(SentCount(sys.log, sys.tail))
      ensures placed.Some? ==> placed.value < numThreads
      ensures SameRound(old(pass), pass)
      ensures if placed.Some? then OneMore(old(sys.log), sys.log, start.released, placed.value)
        else sys.log == old(sys.log)
    {
      NodeState(start, moves, pass, l);
      batches.OpenNoneFull(sys, numThreads);
      var loads := Loads(batches.totalCus, tracker.cusInFlightPerThread, batches.transactions,
                         tracker.numInFlightPerThread);
      WorkKnown(batches);
      var verdict, state := TryScheduleTransaction(container.states[l.id], preLockFilter, blocking, locks, loads);
      unschedulable', placed := unschedulable, None;
      ghost var holds, blocked := old(locks.holds), old(blocking.Locked());
      assert Stands(holds) && Passing(container, graph, blocked, batches, unschedulable, []);
      if verdict.Filtered? {
        DropPopped(l, container, graph, blocking, batches, unschedulable);
      } else if verdict.UnschedulableConflicts? {
        unschedulable' := BlockPopped(l, container, graph, blocking, batches, unschedulable, blocked);
      } else {
        batches.OpenItems(sys, numThreads, verdict.threadId);
        PlaceOnThread(l, verdict.threadId, state, verdict.ttl, verdict.cost, container, graph, blocking, batches,
                      unschedulable, holds);
        placed := Some(verdict.threadId);
      }
    }

    method DropPopped(l: TransactionPriorityId, container: TransactionStateContainer, ghost graph: Graph,
                      blocking: ReadWriteAccountSet, batches: Batches, ghost unschedulable: seq<TransactionPriorityId>)
      requires InPass(container, graph, blocking, batches, unschedulable, [])
      requires Foremost(graph, l) && l.id in container.states
      requires l in start.queue && !start.filter(start.Ttl(l).transaction) && Working(start, pass)
      modifies `moves, `pass, container`states
      ensures InPass(container, Popped(graph, l), blocking, batches, unschedulable, [])
      ensures pass.who == old(pass.who) && |pass.out| == |old(pass.out)| + 1 && SameRound(old(pass), pass)
    {
      container.RemoveById(l.id);
      MakeDrop(l);
    }

    method BlockPopped(l: TransactionPriorityId, container: TransactionStateContainer, ghost graph: Graph,
                       blocking: ReadWriteAccountSet, batches: Batches, unschedulable: seq<TransactionPriorityId>,
                       ghost blocked: Access)
      returns (unschedulable': seq<TransactionPriorityId>)
      requires Valid() && Passing(container, graph, blocked, batches, unschedulable, []) && batches.Open()
      requires Foremost(graph, l) && l in start.queue && blocking.Locked() == blocked.Plus(start.Uses(l))
      requires start.filter(start.Ttl(l).transaction) && Working(start, pass)
      requires Conflict(blocked, start.Uses(l)) || NoThreadFor(locks.holds, start.Ttl(l).transaction, numThreads)
      modifies `moves, `pass
      ensures InPass(container, Popped(graph, l), blocking, batches, unschedulable', [])
      ensures pass.who == old(pass.who) && |pass.out| == |old(pass.out)| + 1 && SameRound(old(pass), pass)
    {
      unschedulable' := unschedulable + [l];
      BlockAllowed(numThreads, events, Whole(sys, Wires(), locks.holds), start, moves, pass, l);
      MakeBlock(l);
    }

    method PlaceOnThread(l: TransactionPriorityId, t: nat, state: TransactionState, ttl: TransactionTTL, cost: nat,
                     container: TransactionStateContainer, ghost graph: Graph, blocking: ReadWriteAccountSet,
                     batches: Batches, ghost unschedulable: seq<TransactionPriorityId>, ghost holds: multiset<Hold>)
      requires Stands(holds) && Passing(container, graph, blocking.Locked(), batches, unschedulable, [])
      requires batches.Open()
      requires Foremost(graph, l) && l in start.queue && t < numThreads && start.states[l.id].Unprocessed?
      requires ttl == start.Ttl(l) && cost == start.states[l.id].cost
      requires state == start.states[l.id].TransitionToPending().0
      requires locks.holds == holds + TxHolds(ttl.transaction, t) && Chosen(numThreads, sys, holds, ttl.transaction, t)
      requires !Conflict(blocking.Locked(), start.Uses(l)) && start.filter(ttl.transaction) && Working(start, pass)
      modifies `events, `sys, `moves, `pass, container`states, batches
      ensures Valid() && Passing(container, Popped(graph, l), blocking.Locked(), batches, unschedulable, [])
      ensures batches.OpenBut(t)
      ensures old(events) <= events && sys.tail == old(sys.tail)
      ensures |pass.who| == |old(pass.who)| + 1 && |pass.out| == |old(pass.out)| + 1 && SameRound(old(pass), pass)
      ensures SentCount(sys.log, sys.tail) == old(SentCount(sys.log, sys.tail))
      ensures OneMore(old(sys.log), sys.log, start.released, t)
    {
      ghost var a := Attempt(l.id, ttl, cost, t, sys.tail[t]);
      NotReleased(start, moves, pass, t);
      batches.Add(t, l.id, ttl, cost, a, sys, numThreads);
      ghost var states := container.states;
      container.states := container.states[l.id := state];
      PlaceInPass(l, t, a, state, holds, container.priorityQueue, states, graph, blocking.Locked(), unschedulable);
    }

    /** What a pass that began from `start` has come to. Everything placed has been sent. What was
        neither placed nor dropped is waiting again, nothing else is, and the container's books are in
        order. The pass invariant says what was placed where and in which order, what was found
        unschedulable is held back for a reason, and each round sent as few batches as it could. */
    ghost predicate PassEnded(container: TransactionStateContainer, r: SchedulingSummary)
      reads `start, `moves, `pass, `sys, container
    {
      && start.Valid() && PassAfter(start, moves) == Some(pass) && CutIntoRounds(start, pass)
      && PassInv(start, pass) && Linked(start, pass, sys) && NothingOpen(sys.log, sys.tail)
      && Justified(start, pass.log, pass.unschedulable)
      && container.states == pass.states && SameTerms(start.states, container.states)
      && container.priorityQueue == start.queue - Gone(pass.out) && |container.priorityQueue| <= container.capacity
      && Tracks(container.states, container.priorityQueue, LiveIds(sys.log, sys.released))
      && r == SchedulingSummary(|pass.who|, |pass.unschedulable|, |PreFilteredIn(pass.out)|)
    }

    /** One pass over the queue. */
    method Schedule(container: TransactionStateContainer, filters: Filters)
      returns (r: SchedulingSummary)
      requires Valid() && NothingOpen(sys.log, sys.tail)
      requires Tracks(container.states, container.priorityQueue, LiveIds(sys.log, sys.released))
      requires |container.priorityQueue| <= container.capacity
      requires tracker.generator.issued + |container.priorityQueue| <= U64_MAX + 1 && Recorded()
      modifies `channels, `events, `sys, `slotOf, `start, `moves, `pass, `turns, tracker, tracker.generator, locks
      modifies container
      ensures Valid() && old(events) <= events && Recorded() && turns == old(turns) + [Turn(start, pass)]
      ensures BeganFrom(start, old(container.priorityQueue), old(container.states), old(sys), filters,
                        maxBlockUnits / numThreads)
      ensures PassEnded(container, r)
      ensures if old(HasRoom()) then Thorough(r.numScheduled, r.numFilteredOut) else pass == First(start) && !HasRoom()
    {
      r := OnePass(container, filters);
      RecordPass(container, r);
    }

    method OnePass(container: TransactionStateContainer, filters: Filters)
      returns (r: SchedulingSummary)
      requires Valid() && NothingOpen(sys.log, sys.tail)
      requires Tracks(container.states, container.priorityQueue, LiveIds(sys.log, sys.released))
      requires |container.priorityQueue| <= container.capacity
      requires tracker.generator.issued + |container.priorityQueue| <= U64_MAX + 1 && Recorded()
      modifies `channels, `events, `sys, `slotOf, `start, `moves, `pass, tracker, tracker.generator, locks, container
      ensures Valid() && old(events) <= events
      ensures BeganFrom(start, old(container.priorityQueue), old(container.states), old(sys), filters,
                        maxBlockUnits / numThreads)
      ensures PassEnded(container, r) && Chained(turns, start.log)
      ensures if old(HasRoom()) then Thorough(r.numScheduled, r.numFilteredOut) else pass == First(start) && !HasRoom()
    {
      BeginPass(container, filters);
      r := PassIfRoom(container, filters);
    }

    ghost method RecordPass(container: TransactionStateContainer, r: SchedulingSummary)
      requires Valid() && Chained(turns, start.log) && PassEnded(container, r)
      modifies `turns
      ensures Valid() && PassEnded(container, r) && events == old(events) && start == old(start) && pass == old(pass)
      ensures Thorough(r.numScheduled, r.numFilteredOut) == old(Thorough(r.numScheduled, r.numFilteredOut))
      ensures HasRoom() == old(HasRoom())
      ensures Recorded() && turns == old(turns) + [Turn(start, pass)]
    {
      ChainedNext(turns, start, pass);
      turns := turns + [Turn(start, pass)];
    }

    /** Does nothing while every thread has all the work it should get. */
    method PassIfRoom(container: TransactionStateContainer, filters: Filters)
      returns (r: SchedulingSummary)
      requires Valid() && PassBegun(container, filters)
      modifies `channels, `events, `sys, `slotOf, `moves, `pass, tracker, tracker.generator, locks, container
      ensures Valid() && old(events) <= events && PassEnded(container, r)
      ensures if old(HasRoom()) then Thorough(r.numScheduled, r.numFilteredOut) else pass == First(start) && !HasRoom()
    {
      var maxCu, schedulable := ThreadsWithRoom();
      if schedulable.IsEmpty() {
        r := NoPass(container, filters);
      } else {
        FreshStart(maxCu, schedulable.Threads());
        r := FullPass(container, filters, maxCu, schedulable);
      }
    }

    ghost predicate PassBegun(container: TransactionStateContainer, filters: Filters)
      requires numThreads > 0
      reads `start, `moves, `pass, `sys, tracker, tracker.generator, container
    {
      && start == StartOf(container.priorityQueue, container.states, sys, filters, maxBlockUnits / numThreads)
      && start.Valid() && NothingOpen(sys.log, sys.tail)
      && moves == [] && pass == First(start)
      && |sys.tail| == numThreads && SentCount(sys.log, sys.tail) == |start.log|
      && Tracks(start.states, start.queue, LiveIds(start.log, start.released))
      && |start.queue| <= container.capacity && tracker.generator.issued + |start.queue| <= U64_MAX + 1
    }

    method NoPass(container: TransactionStateContainer, ghost filters: Filters) returns (r: SchedulingSummary)
      requires numThreads > 0 && PassBegun(container, filters)
      ensures PassEnded(container, r)
    {
      FirstInv(start);
      PassIsCut(start, moves, pass);
      BooksKeepTerms(start, pass.states, pass.out, LiveIds(start.log, start.released));
      assert Gone(pass.out) == {} && PreFilteredIn(pass.out) == {};
      r := SchedulingSummary(0, 0, 0);
    }

    method FullPass(container: TransactionStateContainer, filters: Filters,
                    maxCu: nat, schedulable: ThreadSet)
      returns (r: SchedulingSummary)
      requires Valid() && PassBegun(container, filters) && Fresh(start, pass, numThreads, maxCu, schedulable.Threads())
      modifies `channels, `events, `sys, `slotOf, `moves, `pass, tracker, tracker.generator, locks, container
      ensures Valid() && old(events) <= events && PassEnded(container, r) && Thorough(r.numScheduled, r.numFilteredOut)
    {
      var graph := new PrioGraph();
      var blocking := new ReadWriteAccountSet();
      var batches := new Batches(numThreads, sys);
      r := PassWith(container, filters, maxCu, schedulable, graph, blocking, batches);
    }

    method PassWith(container: TransactionStateContainer, filters: Filters,
                    maxCu: nat, schedulable: ThreadSet, graph: PrioGraph, blocking: ReadWriteAccountSet,
                    batches: Batches)
      returns (r: SchedulingSummary)
      requires InPass(container, graph.graph, blocking, batches, [], []) && Counted(0, 0, 0) && Using(filters)
      requires Fresh(start, pass, numThreads, maxCu, schedulable.Threads())
      requires graph.graph.unblocked == graph.graph.popped && |start.queue| <= container.capacity
      requires |pass.out| == 0 && |start.queue| == |container.priorityQueue|
      requires Tracks(start.states, start.queue, LiveIds(start.log, start.released))
      modifies `channels, `events, `sys, `slotOf, `moves, `pass, tracker, tracker.generator, locks
      modifies container, graph, blocking, batches
      ensures Valid() && old(events) <= events && PassEnded(container, r) && Thorough(r.numScheduled, r.numFilteredOut)
    {
      var unschedulable, numScheduled, numFilteredOut :=
        RunPass(filters, maxCu, schedulable, container, graph, blocking, batches);
      r := SchedulingSummary(numScheduled, |unschedulable|, numFilteredOut);
      PutBack(container, graph, blocking, batches, unschedulable, r);
    }

    /** Puts back what was found unschedulable and what is left in the graph. */
    method PutBack(container: TransactionStateContainer, graph: PrioGraph, ghost blocking: ReadWriteAccountSet,
                   ghost batches: Batches, unschedulable: seq<TransactionPriorityId>, ghost r: SchedulingSummary)
      requires InPass(container, graph.graph, blocking, batches, unschedulable, []) && NothingOpen(sys.log, sys.tail)
      requires Tracks(start.states, start.queue, LiveIds(start.log, start.released))
      requires |start.queue| <= container.capacity && graph.graph.unblocked == graph.graph.popped
      requires r == SchedulingSummary(|pass.who|, |unschedulable|, r.numFilteredOut)
      requires |pass.out| == |pass.graph.popped| + r.numFilteredOut
      modifies container, graph
      ensures Valid() && PassEnded(container, r)
    {
      EndOfPass(start, moves, pass);
      PassIsCut(start, moves, pass);
      Requeue(container, unschedulable, graph, start.queue - Gone(pass.out));
    }

    ghost method BeginPass(container: TransactionStateContainer, filters: Filters)
      requires Valid() && NothingOpen(sys.log, sys.tail)
      requires Tracks(container.states, container.priorityQueue, LiveIds(sys.log, sys.released))
      requires |container.priorityQueue| <= container.capacity
      requires tracker.generator.issued + |container.priorityQueue| <= U64_MAX + 1 && Recorded()
      modifies `start, `moves, `pass
      ensures Valid() && PassBegun(container, filters) && Chained(turns, start.log)
      ensures BeganFrom(start, container.priorityQueue, container.states, sys, filters, maxBlockUnits / numThreads)
    {
      StartValid(numThreads, events, Whole(sys, Wires(), locks.holds), container.priorityQueue, container.states,
                 filters, maxBlockUnits / numThreads);
      RunShape(numThreads, events, Whole(sys, Wires(), locks.holds));
      SentCountAll(sys.log, sys.tail);
      start := StartOf(container.priorityQueue, container.states, sys, filters, maxBlockUnits / numThreads);
      moves := [];
      pass := First(start);
    }

    /** Some thread has less than its share of the block's compute units in flight. */
    ghost predicate HasRoom()
      requires numThreads > 0
      reads tracker
    {
      exists t: nat :: t < numThreads && t < |tracker.cusInFlightPerThread| &&
        tracker.cusInFlightPerThread[t] < maxBlockUnits / numThreads
    }

    /** The compute units a thread should have at most, and the threads with room for more. */
    method ThreadsWithRoom() returns (maxCu: nat, r: ThreadSet)
      requires Valid()
      ensures maxCu == maxBlockUnits / numThreads
      ensures forall t: nat :: t in r.Threads() <==>
        t < numThreads && t < |tracker.cusInFlightPerThread| && tracker.cusInFlightPerThread[t] < maxCu
      ensures r.Threads() == {} <==> !HasRoom()
    {
      maxCu := maxBlockUnits / numThreads;
      r := ThreadsBelow(maxCu, numThreads, tracker.cusInFlightPerThread);
    }

    // ---- Results ----

    /** Stops tracking a batch and gives back the locks of its transactions. */
    method CompleteBatch(batchId: BatchId, transactions: seq<Transaction>, ghost items: seq<Attempt>, ghost t: nat)
      requires locks.Valid() && tracker.Valid() && batchId in tracker.batches && tracker.batches[batchId].threadId == t
      requires |transactions| == |items|
      requires forall i :: 0 <= i < |items| ==> transactions[i] == items[i].ttl.transaction
      requires ItemsHolds(items, t) <= locks.holds
      modifies tracker, locks
      ensures locks.Valid() && locks.holds == old(locks.holds) - ItemsHolds(items, t)
      ensures tracker.Valid() && |tracker.numInFlightPerThread| == old(|tracker.numInFlightPerThread|)
      ensures tracker.batches == old(tracker.batches) - {batchId}
    {
      var thread := tracker.CompleteBatch(batchId);
      UnlockTransactions(locks, transactions, thread, items);
    }

    /** Completes the batch of the oldest result. */
    method CompleteOldest(result: SchedulingBatchResult)
      requires Valid() && finished != [] && result == finished[0]
      modifies tracker, locks
      ensures locks.Valid() && tracker.Valid() && |tracker.numInFlightPerThread| == numThreads
      ensures tracker.batches == old(tracker.batches) - {result.batch.batchId} && result.batch.batchId in slotOf
      ensures locks.holds == old(locks.holds) - old(ResultHolds(Whole(sys, Wires(), locks.holds)))
    {
      ghost var before := Whole(sys, Wires(), locks.holds);
      ResultKnown(numThreads, events, before);
      ghost var at := ResultAt(before);
      CompleteBatch(result.batch.batchId, result.batch.transactions, SlotItems(sys.log, at.0, at.1), at.0);
    }

    /** Frees what the oldest result's batch held. */
    method FreeBatch(result: SchedulingBatchResult)
      requires Valid() && finished != [] && result == finished[0]
      modifies `finished, `events, `sys, `slotOf, tracker, locks
      ensures Valid() && finished == old(finished)[1..] && old(events) <= events
      ensures old(result.batch.batchId in slotOf) && sys == Released(old(sys), old(slotOf[result.batch.batchId]))
    {
      ghost var before := Whole(sys, Wires(), locks.holds);
      ReceiveRuns(numThreads, events, before);
      CompleteOldest(result);
      finished := finished[1..];
      events, sys := events + [Received], Released(sys, slotOf[result.batch.batchId]);
      slotOf := slotOf - {result.batch.batchId};
    }

    /** What receiving a result does to the container. */
    ghost predicate ResultSettled(result: SchedulingBatchResult, container: TransactionStateContainer, states: States,
                                  queue: set<TransactionPriorityId>)
      reads container
    {
      var b, retried := result.batch, Scan(|result.batch.ids|, 0, result.retryableIndexes);
      && Aligned(b) && AllPending(b, states) && InRange(retried, |b.ids|)
      && Settling(b, states, |b.ids|, retried, container.states)
      && container.priorityQueue == QueueAfter(b, states, queue, container.capacity, retried)
    }

    /** Receives one result, if there is one: its locks are given back, the transactions the scan
        finds retryable wait again, and the others are forgotten. */
    method TryReceiveCompleted(container: TransactionStateContainer) returns (numTransactions: nat, numRetryable: nat)
      requires Valid() && Tracks(container.states, container.priorityQueue, LiveIds(sys.log, sys.released))
      requires |container.priorityQueue| <= container.capacity
      modifies `finished, `events, `sys, `slotOf, tracker, locks, container
      ensures Valid() && Tracks(container.states, container.priorityQueue, LiveIds(sys.log, sys.released))
      ensures old(events) <= events && sys.log == old(sys.log) && sys.tail == old(sys.tail)
      ensures |container.priorityQueue| <= container.capacity && SameTerms(old(container.states), container.states)
      ensures numTransactions == 0 <==> old(finished) == []
      ensures old(finished) == [] ==> numRetryable == 0 && events == old(events) && finished == []
      ensures old(finished) != [] ==>
        && finished == old(finished)[1..]
        && numTransactions == |old(finished)[0].batch.ids| && numRetryable == |old(finished)[0].retryableIndexes|
        && ResultSettled(old(finished)[0], container, old(container.states), old(container.priorityQueue))
    {
      if finished == [] {
        return 0, 0;
      }
      var result := finished[0];
      ghost var before := Whole(sys, Wires(), locks.holds);
      ResultKnown(numThreads, events, before);
      ResultInFlight(numThreads, events, before, container.states, container.priorityQueue);
      FreeBatch(result);
      ReturnToContainer(container, result, LiveIds(sys.log, sys.released));
      numTransactions, numRetryable := |result.batch.ids|, |result.retryableIndexes|;
    }

    method ReturnToContainer(container: TransactionStateContainer, result: SchedulingBatchResult,
                             ghost others: set<TransactionId>)
      requires |container.priorityQueue| <= container.capacity && Aligned(result.batch)
      requires AllPending(result.batch, container.states) && others !! Carried(result.batch)
      requires Tracks(container.states, container.priorityQueue, others + Carried(result.batch))
      modifies container
      ensures Tracks(container.states, container.priorityQueue, others)
      ensures |container.priorityQueue| <= container.capacity && SameTerms(old(container.states), container.states)
      ensures ResultSettled(result, container, old(container.states), old(container.priorityQueue))
    {
      ghost var states, queue := container.states, container.priorityQueue;
      RetryOrRemove(container, result.batch, result.retryableIndexes, others);
      SettlingKeepsTerms(result.batch, states, Scan(|result.batch.ids|, 0, result.retryableIndexes), container.states,
                         queue, others + Carried(result.batch));
      OfferedFits(old(container.priorityQueue), container.capacity,
                  Entries(result.batch, old(container.states), Scan(|result.batch.ids|, 0, result.retryableIndexes)));
    }

    /** Receives every result there is. */
    method ReceiveCompleted(container: TransactionStateContainer) returns (numTransactions: nat, numRetryable: nat)
      requires Valid() && Tracks(container.states, container.priorityQueue, LiveIds(sys.log, sys.released))
      requires |container.priorityQueue| <= container.capacity
      modifies `finished, `events, `sys, `slotOf, tracker, locks, container
      ensures Valid() && Tracks(container.states, container.priorityQueue, LiveIds(sys.log, sys.released))
      ensures old(events) <= events && sys.log == old(sys.log) && sys.tail == old(sys.tail)
      ensures finished == [] && |container.priorityQueue| <= container.capacity
      ensures SameTerms(old(container.states), container.states)
      ensures numTransactions == TransactionCount(old(finished)) && numRetryable == RetryableCount(old(finished))
    {
      numTransactions, numRetryable := 0, 0;
      var more := true;
      while more
        invariant Valid() && Tracks(container.states, container.priorityQueue, LiveIds(sys.log, sys.released))
        invariant old(events) <= events && sys.log == old(sys.log) && sys.tail == old(sys.tail)
        invariant (more || finished == []) && |container.priorityQueue| <= container.capacity
        invariant SameTerms(old(container.states), container.states)
        invariant numTransactions + TransactionCount(finished) == TransactionCount(old(finished))
        invariant numRetryable + RetryableCount(finished) == RetryableCount(old(finished))
        decreases |finished|, more
      {
        var n, m := TryReceiveCompleted(container);
        more := n != 0;
        numTransactions, numRetryable := numTransactions + n, numRetryable + m;
      }
    }

    // ---- The workers ----

    /** A worker executes an attempt of the batch it is working on. */
    ghost method WorkerExecute(k: nat)
      requires Valid() && Enabled(sys, Execute(k))
      modifies `events, `sys
      ensures Valid() && events == old(events) + [Ran(k)] && sys == Apply(old(sys), Execute(k))
    {
      var before := Whole(sys, Wires(), locks.holds);
      RunShape(numThreads, events, before);
      RunNext(numThreads, events, before, Ran(k));
      events, sys := events + [Ran(k)], Next(numThreads, before, Ran(k)).s;
    }

    /** A worker that has executed all of its batch hands it back unchanged. */
    method WorkerFinish(t: nat, retryable: seq<nat>)
      requires Valid() && Enabled(sys, Finish(t)) && t < |channels| && channels[t] != []
      modifies `channels, `finished, `events, `sys
      ensures Valid() && events == old(events) + [Returned(t, retryable)] && sys == Apply(old(sys), Finish(t))
      ensures channels == old(channels)[t := old(channels)[t][1..]]
      ensures finished == old(finished) + [SchedulingBatchResult(old(channels)[t][0], retryable)]
    {
      ghost var before := Whole(sys, Wires(), locks.holds);
      RunShape(numThreads, events, before);
      RunNext(numThreads, events, before, Event.Returned(t, retryable));
      ghost var next := Next(numThreads, before, Event.Returned(t, retryable));
      finished := finished + [SchedulingBatchResult(channels[t][0], retryable)];
      channels := channels[t := channels[t][1..]];
      events, sys := events + [Event.Returned(t, retryable)], next.s;
      assert Wires() == next.w;
    }

    /** Sends the batch being filled for worker `t`, if there is anything in it. */
    method SendBatch(batches: Batches, t: nat) returns (numSent: nat)
      requires Valid() && batches.Match(sys, numThreads) && batches.OpenBut(t) && t < numThreads
      requires batches.ids[t] != [] ==> tracker.generator.issued <= U64_MAX
      modifies `channels, `events, `sys, `slotOf, tracker, tracker.generator, batches
      ensures Valid() && batches.Match(sys, numThreads) && batches.Open()
      ensures numSent == |SlotItems(old(sys.log), t, old(sys.tail)[t])|
      ensures if numSent == 0 then sys == old(sys) && events == old(events)
        else sys == Advanced(old(sys), t) && old(events) <= events
      ensures sys.log == old(sys.log) && t < |sys.tail| && SlotItems(sys.log, t, sys.tail[t]) == []
      ensures SentCount(sys.log, sys.tail) == old(SentCount(sys.log, sys.tail)) + numSent
      ensures tracker.generator.issued == old(tracker.generator.issued) + if numSent == 0 then 0 else 1
    {
      if |batches.ids[t]| == 0 {
        return 0;
      }
      RunShape(numThreads, events, Whole(sys, Wires(), locks.holds));
      SendOpens(sys, numThreads, t);
      var ids, transactions, maxAges, totalCus := batches.TakeBatch(t, sys, numThreads);
      numSent := |ids|;
      Dispatch(ids, transactions, maxAges, totalCus, t);
    }

    method Dispatch(ids: seq<TransactionId>, transactions: seq<Transaction>, maxAges: seq<MaxAge>, totalCus: nat,
                    t: nat)
      requires Valid() && t < numThreads == |sys.tail| && ids != [] && tracker.generator.issued <= U64_MAX
      requires Fills(ids, transactions, maxAges, totalCus, SlotItems(sys.log, t, sys.tail[t]))
      modifies `channels, `events, `sys, `slotOf, tracker, tracker.generator
      ensures Valid()
      ensures sys == Advanced(old(sys), t) && old(events) <= events
      ensures tracker.generator.issued == old(tracker.generator.issued) + 1
    {
      ghost var before := Whole(sys, Wires(), locks.holds);
      RunShape(numThreads, events, before);
      var batchId := tracker.TrackBatch(|ids|, totalCus, t);
      var work := SchedulingBatch(batchId, ids, transactions, maxAges);
      channels := channels[t := channels[t] + [work]];
      RunNext(numThreads, events, before, Sent(t, work));
      ghost var next := Next(numThreads, before, Sent(t, work));
      events, sys, slotOf := events + [Sent(t, work)], next.s, next.w.slotOf;
      assert Wires() == next.w;
    }
  }
}
