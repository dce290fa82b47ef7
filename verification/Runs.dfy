/** Whole runs of the scheduler and its workers: what the lock table, the channels, the results and
    the tracked batches become event by event, and what holds after every run. */
module Runs {
  import opened Basics
  import opened Messages
  import opened AccountLocks
  import opened InFlight
  import opened Protocol
  import opened Coupling

  datatype Whole = Whole(s: System, w: Wiring, holds: multiset<Hold>)

  datatype Event =
    | Placed(id: TransactionId, ttl: TransactionTTL, cost: nat, thread: nat)
    | Sent(thread: nat, batch: SchedulingBatch)
    | Ran(attempt: nat)
    | Returned(thread: nat, retryable: seq<nat>)
    | Received

  /** The work queued on a thread: its compute units, then its transactions. */
  datatype Load = Load(cus: nat, transactions: nat) {
    predicate Below(other: Load) {
      cus < other.cus || (cus == other.cus && transactions < other.transactions)
    }
  }

  /** No candidate is less loaded than `r`, and the lower numbered ones are more loaded. */
  ghost predicate BestOf(loads: seq<Load>, candidates: set<nat>, r: nat) {
    && r in candidates
    && forall t :: t in candidates ==>
         t < |loads| && r < |loads| && !loads[t].Below(loads[r]) && (t < r ==> loads[r].Below(loads[t]))
  }

  /** The work of each thread: all that was placed on it and has not come back. */
  ghost function WorkOf(log: seq<Attempt>, released: set<(nat, nat)>, n: nat): (r: seq<Load>)
    ensures |r| == n
    ensures forall t: nat :: t < n ==> r[t] == Load(LiveWork(log, released, t, true), LiveWork(log, released, t, false))
  {
    seq(n, (t: nat) => Load(LiveWork(log, released, t, true), LiveWork(log, released, t, false)))
  }

  /** `t` is the least loaded of all the threads that can take the locks, and its batch is not full. */
  ghost predicate Chosen(n: nat, s: System, holds: multiset<Hold>, tx: Transaction, t: nat) {
    && BestOf(WorkOf(s.log, s.released, n), CanLock(holds, WriteKeys(tx.accounts), ReadKeys(tx.accounts), n), t)
    && t < |s.tail| && |SlotItems(s.log, t, s.tail[t])| < TARGET_NUM_TRANSACTIONS_PER_BATCH
  }

  function Begin(n: nat): Whole {
    Whole(Initial(n), Wiring(seq(n, i => []), [], map[], map[]), multiset{})
  }

  ghost predicate Shaped(n: nat, x: Whole) {
    |x.s.head| == |x.s.tail| == |x.w.channels| == n
  }

  /** No open batch conflicts with `tx`, and no live attempt has the id. */
  ghost predicate Admissible(log: seq<Attempt>, tail: seq<nat>, released: set<(nat, nat)>, id: TransactionId,
                             tx: Transaction)
  {
    && (forall j: nat :: j < |log| && log[j].thread < |tail| && log[j].slot == tail[log[j].thread] ==>
          !Conflict(log[j].Access(), AccessOf(tx)))
    && (forall j: nat :: j < |log| && (log[j].thread, log[j].slot) !in released ==> log[j].id != id)
  }

  /** When each event may happen: the scheduler places a transaction on the least loaded worker that
      can take its locks, if no open batch conflicts with it and that worker's batch is not full; it
      sends what it has placed under an unused batch id, and receives the oldest result. A worker
      runs its oldest batch and hands it back. */
  ghost predicate Permitted(n: nat, x: Whole, e: Event) {
    && Shaped(n, x)
    && match e
       case Placed(id, ttl, cost, t) =>
         && t < n
         && Chosen(n, x.s, x.holds, ttl.transaction, t)
         && Admissible(x.s.log, x.s.tail, x.s.released, id, ttl.transaction)
       case Sent(t, b) =>
         && t < n && b.batchId !in x.w.tracked && b.ids != []
         && BatchCarries(b, SlotItems(x.s.log, t, x.s.tail[t]))
       case Ran(k) => Enabled(x.s, Execute(k))
       case Returned(t, retryable) => Enabled(x.s, Finish(t)) && t < n && x.w.channels[t] != []
       case Received => x.w.finished != [] && x.w.finished[0].batch.batchId in x.w.slotOf
  }

  ghost function Next(n: nat, x: Whole, e: Event): Whole
    requires Permitted(n, x, e)
  {
    match e
    case Placed(id, ttl, cost, t) =>
      x.(s := Extended(x.s, Attempt(id, ttl, cost, t, x.s.tail[t])),
         holds := x.holds + TxHolds(ttl.transaction, t))
    case Sent(t, b) =>
      var items := SlotItems(x.s.log, t, x.s.tail[t]);
      x.(s := Advanced(x.s, t),
         w := WiringSend(x.w, t, x.s.tail[t], b, BatchEntry(t, |items|, TotalCost(items))))
    case Ran(k) => x.(s := x.s.(done := x.s.done + [k]))
    case Returned(t, retryable) =>
      x.(s := Past(x.s, t), w := WiringFinish(x.w, t, retryable))
    case Received =>
      var at := x.w.slotOf[x.w.finished[0].batch.batchId];
      Whole(Released(x.s, at), WiringComplete(x.w),
            x.holds - ItemsHolds(SlotItems(x.s.log, at.0, at.1), at.0))
  }

  /** The protocol step an event is. */
  ghost function StepOf(n: nat, x: Whole, e: Event): Step
    requires Permitted(n, x, e)
  {
    match e
    case Placed(id, ttl, cost, t) => Acquire(id, ttl, cost, t)
    case Sent(t, _) => Send(t)
    case Ran(k) => Execute(k)
    case Returned(t, _) => Finish(t)
    case Received => var at := x.w.slotOf[x.w.finished[0].batch.batchId]; Complete(at.0, at.1)
  }

  /** The state after these events, if each of them was permitted in turn. */
  ghost function Run(n: nat, events: seq<Event>): Option<Whole>
    decreases |events|, 1
  {
    if events == [] then Some(Begin(n)) else WithLast(n, events)
  }

  ghost function WithLast(n: nat, events: seq<Event>): Option<Whole>
    requires events != []
    decreases |events|, 0
  {
    var before := Run(n, events[..|events| - 1]);
    var last := events[|events| - 1];
    if before.Some? && Permitted(n, before.value, last) then Some(Next(n, before.value, last)) else None
  }

  ghost function StepsOf(n: nat, events: seq<Event>): seq<Step>
    requires Run(n, events).Some?
    decreases |events|
  {
    if events == [] then []
    else
      assert Run(n, events) == WithLast(n, events);
      var init := events[..|events| - 1];
      StepsOf(n, init) + [StepOf(n, Run(n, init).value, events[|events| - 1])]
  }

  lemma RunNext(n: nat, events: seq<Event>, x: Whole, e: Event)
    requires Run(n, events) == Some(x) && Permitted(n, x, e)
    ensures Run(n, events + [e]) == Some(Next(n, x, e))
  {
    assert (events + [e])[..|events + [e]| - 1] == events;
    assert Run(n, events + [e]) == WithLast(n, events + [e]);
  }

  // ---- What every run keeps ----

  /** The holds are the locks of the live attempts, and no transaction is in flight twice. */
  ghost predicate LocksStand(s: System, holds: multiset<Hold>) {
    holds == LiveHolds(s.log, s.released) && DistinctLive(s.log, s.released)
  }

  ghost predicate Standing(n: nat, x: Whole) {
    && Inv(x.s, n)
    && LocksStand(x.s, x.holds)
    && Wired(x.s, x.w, n)
  }

  ghost predicate Moves(n: nat, x: Whole, e: Event)
    requires Permitted(n, x, e)
  {
    && Enabled(x.s, StepOf(n, x, e))
    && Next(n, x, e).s == Apply(x.s, StepOf(n, x, e))
    && Standing(n, Next(n, x, e))
  }

  lemma ChosenCanLock(n: nat, s: System, holds: multiset<Hold>, tx: Transaction, t: nat)
    requires Chosen(n, s, holds, tx, t)
    ensures Exclusive(holds + TxHolds(tx, t))
  {}

  lemma PlacedEnabled(n: nat, x: Whole, e: Event)
    requires Standing(n, x) && Permitted(n, x, e) && e.Placed?
    ensures Enabled(x.s, StepOf(n, x, e))
  {
    var s, t, tx := x.s, e.thread, e.ttl.transaction;
    ChosenCanLock(n, s, x.holds, tx, t);
    forall j: nat | j < |s.log| && s.Live(j) && Conflict(s.log[j].Access(), AccessOf(tx))
      ensures s.log[j].thread == t && s.log[j].slot < s.tail[t]
    {
      ExclusionGuards(s.log, s.released, tx, t, j);
    }
  }

  lemma PlacedStands(n: nat, x: Whole, e: Event)
    requires Standing(n, x) && Permitted(n, x, e) && e.Placed?
    ensures Moves(n, x, e)
  {
    var s, t := x.s, e.thread;
    PlacedEnabled(n, x, e);
    assert (t, s.tail[t]) !in s.released;
    LiveHoldsNext(s.log, s.released, Attempt(e.id, e.ttl, e.cost, t, s.tail[t]));
    AcquireKeeps(s, n, StepOf(n, x, e));
    WiredAcquire(s, Next(n, x, e).s, x.w, n);
  }

  lemma SentStands(n: nat, x: Whole, e: Event)
    requires Standing(n, x) && Permitted(n, x, e) && e.Sent?
    ensures Moves(n, x, e)
  {
    SlotItemsNone(x.s.log, e.thread, x.s.tail[e.thread]);
    SendKeeps(x.s, n, Send(e.thread));
    WiredSend(x.s, Next(n, x, e).s, x.w, n, e.thread, e.batch);
  }

  lemma RanStands(n: nat, x: Whole, e: Event)
    requires Standing(n, x) && Permitted(n, x, e) && e.Ran?
    ensures Moves(n, x, e)
  {
    ExecuteKeeps(x.s, n, Execute(e.attempt));
    WiredFrame(x.s, Next(n, x, e).s, x.w, n);
  }

  lemma ReturnedStands(n: nat, x: Whole, e: Event)
    requires Standing(n, x) && Permitted(n, x, e) && e.Returned?
    ensures Moves(n, x, e)
  {
    FinishKeeps(x.s, n, Finish(e.thread));
    WiredFinish(x.s, Past(x.s, e.thread), x.w, n, e.thread, e.retryable);
  }

  lemma ReceivedStands(n: nat, x: Whole, e: Event)
    requires Standing(n, x) && Permitted(n, x, e) && e.Received?
    ensures Moves(n, x, e)
  {
    var at := x.w.slotOf[x.w.finished[0].batch.batchId];
    assert ResultStands(x.s, x.w, n, x.w.finished[0].batch);
    assert EntryStands(x.s, n, x.w.tracked[x.w.finished[0].batch.batchId], at.0, at.1);
    ReleaseHolds(x.s.log, x.s.released, at.0, at.1);
    CompleteKeeps(x.s, n, Complete(at.0, at.1));
    WiredComplete(x.s, Next(n, x, e).s, x.w, n);
  }

  lemma NextStands(n: nat, x: Whole, e: Event)
    requires Standing(n, x) && Permitted(n, x, e)
    ensures Moves(n, x, e)
  {
    match e
    case Placed(_, _, _, _) => PlacedStands(n, x, e);
    case Sent(_, _) => SentStands(n, x, e);
    case Ran(_) => RanStands(n, x, e);
    case Returned(_, _) => ReturnedStands(n, x, e);
    case Received => ReceivedStands(n, x, e);
  }

  /** After every run the parts fit together, and the run is a run of the protocol. */
  lemma {:induction false} RunStands(n: nat, events: seq<Event>, x: Whole)
    requires Run(n, events) == Some(x)
    ensures Standing(n, x) && Reaches(n, StepsOf(n, events), x.s)
    decreases |events|
  {
    if events != [] {
      assert Run(n, events) == WithLast(n, events);
      var before := Run(n, events[..|events| - 1]).value;
      RunStands(n, events[..|events| - 1], before);
      NextStands(n, before, events[|events| - 1]);
      ReachesNext(n, StepsOf(n, events[..|events| - 1]), before.s, StepOf(n, before, events[|events| - 1]));
    }
  }

  // ---- The work of the threads, and the size of batches ----

  ghost predicate WorkStands(x: Whole, t: nat, cus: bool) {
    t < |x.s.tail| ==>
      Total(x.w.tracked, t, cus) + ItemsWork(SlotItems(x.s.log, t, x.s.tail[t]), cus) ==
      LiveWork(x.s.log, x.s.released, t, cus)
  }

  lemma PlacedWork(n: nat, x: Whole, e: Event, t: nat, cus: bool)
    requires Standing(n, x) && Permitted(n, x, e) && e.Placed? && WorkStands(x, t, cus)
    ensures WorkStands(Next(n, x, e), t, cus)
  {
    var a := Attempt(e.id, e.ttl, e.cost, e.thread, x.s.tail[e.thread]);
    assert (a.thread, a.slot) !in x.s.released;
    LiveWorkNext(x.s.log, x.s.released, a, t, cus);
    if t < n {
      SlotItemsNext(x.s.log, a, t, x.s.tail[t]);
      ItemsWorkNext(SlotItems(x.s.log, t, x.s.tail[t]), a, cus);
    }
  }

  lemma SentWork(n: nat, x: Whole, e: Event, t: nat, cus: bool)
    requires Standing(n, x) && Permitted(n, x, e) && e.Sent? && WorkStands(x, t, cus)
    ensures WorkStands(Next(n, x, e), t, cus)
  {
    var items := SlotItems(x.s.log, e.thread, x.s.tail[e.thread]);
    TotalWith(x.w.tracked, t, cus, e.batch.batchId, BatchEntry(e.thread, |items|, TotalCost(items)));
    SlotItemsNone(x.s.log, e.thread, x.s.tail[e.thread] + 1);
  }

  lemma ReceivedWork(n: nat, x: Whole, e: Event, t: nat, cus: bool)
    requires Standing(n, x) && Permitted(n, x, e) && e.Received? && WorkStands(x, t, cus)
    ensures WorkStands(Next(n, x, e), t, cus)
  {
    var id := x.w.finished[0].batch.batchId;
    var at := x.w.slotOf[id];
    assert ResultStands(x.s, x.w, n, x.w.finished[0].batch);
    assert EntryStands(x.s, n, x.w.tracked[id], at.0, at.1);
    TotalWithout(x.w.tracked, t, cus, id);
    ReleaseWork(x.s.log, x.s.released, at.0, at.1, t, cus);
  }

  lemma NextWork(n: nat, x: Whole, e: Event, t: nat, cus: bool)
    requires Standing(n, x) && Permitted(n, x, e) && WorkStands(x, t, cus)
    ensures WorkStands(Next(n, x, e), t, cus)
  {
    match e
    case Placed(_, _, _, _) => PlacedWork(n, x, e, t, cus);
    case Sent(_, _) => SentWork(n, x, e, t, cus);
    case Ran(_) =>
    case Returned(_, _) =>
    case Received => ReceivedWork(n, x, e, t, cus);
  }

  /** Conservation: after every run, what is tracked for a thread and what is in its open batch add
      up to all that was placed on it and has not come back, in cost and in number. */
  lemma {:induction false} RunWork(n: nat, events: seq<Event>, x: Whole, t: nat, cus: bool)
    requires Run(n, events) == Some(x)
    ensures WorkStands(x, t, cus)
    decreases |events|
  {
    if events != [] {
      assert Run(n, events) == WithLast(n, events);
      var before := Run(n, events[..|events| - 1]).value;
      RunStands(n, events[..|events| - 1], before);
      RunWork(n, events[..|events| - 1], before, t, cus);
      NextWork(n, before, events[|events| - 1], t, cus);
    }
  }

  /** No batch is ever larger than the target. */
  lemma {:induction false} RunSmallBatches(n: nat, events: seq<Event>, x: Whole, t: nat, slot: nat)
    requires Run(n, events) == Some(x)
    ensures |SlotItems(x.s.log, t, slot)| <= TARGET_NUM_TRANSACTIONS_PER_BATCH
    decreases |events|
  {
    if events != [] {
      assert Run(n, events) == WithLast(n, events);
      var before, e := Run(n, events[..|events| - 1]).value, events[|events| - 1];
      RunSmallBatches(n, events[..|events| - 1], before, t, slot);
      if e.Placed? {
        SlotItemsNext(before.s.log, Attempt(e.id, e.ttl, e.cost, e.thread, before.s.tail[e.thread]), t, slot);
      }
    }
  }

  // ---- Where transactions are placed ----

  /** In every run, a transaction goes to a worker with the least cost placed on it and not yet back,
      and among those with the fewest transactions, of all the workers that can take its locks. An
      idle one is preferred to one with work. */
  lemma PlacedOnLeast(n: nat, events: seq<Event>, x: Whole, k: nat, before: Whole, u: nat)
    requires Run(n, events) == Some(x) && k < |events| && events[k].Placed? && Run(n, events[..k]) == Some(before)
    requires u < n && Exclusive(before.holds + TxHolds(events[k].ttl.transaction, u))
    ensures var t, log, released := events[k].thread, before.s.log, before.s.released;
      && Exclusive(before.holds + TxHolds(events[k].ttl.transaction, t))
      && LiveWork(log, released, t, true) <= LiveWork(log, released, u, true)
      && (LiveWork(log, released, t, true) == LiveWork(log, released, u, true) ==>
            LiveWork(log, released, t, false) <= LiveWork(log, released, u, false))
      && (LiveWork(log, released, u, true) == 0 ==> LiveWork(log, released, t, true) == 0)
  {
    PrefixRuns(n, events, k + 1);
    var upTo, e := events[..k + 1], events[k];
    assert upTo[..|upTo| - 1] == events[..k];
    assert Run(n, upTo) == WithLast(n, upTo);
    ChosenIsLeast(n, before.s, before.holds, e.ttl.transaction, e.thread, u);
  }

  lemma ChosenIsLeast(n: nat, s: System, holds: multiset<Hold>, tx: Transaction, t: nat, u: nat)
    requires Chosen(n, s, holds, tx, t) && u < n && Exclusive(holds + TxHolds(tx, u))
    ensures Exclusive(holds + TxHolds(tx, t))
    ensures LiveWork(s.log, s.released, t, true) <= LiveWork(s.log, s.released, u, true)
    ensures LiveWork(s.log, s.released, t, true) == LiveWork(s.log, s.released, u, true) ==>
      LiveWork(s.log, s.released, t, false) <= LiveWork(s.log, s.released, u, false)
  {
    ChosenCanLock(n, s, holds, tx, t);
    assert u in CanLock(holds, WriteKeys(tx.accounts), ReadKeys(tx.accounts), n);
  }

  lemma ShorterRuns(n: nat, events: seq<Event>)
    requires Run(n, events).Some? && events != []
    ensures Run(n, events[..|events| - 1]).Some?
  {
    assert Run(n, events) == WithLast(n, events);
  }

  lemma {:induction false} PrefixRuns(n: nat, events: seq<Event>, k: nat)
    requires Run(n, events).Some? && k <= |events|
    ensures Run(n, events[..k]).Some?
    decreases |events|
  {
    if k == |events| {
      assert events[..k] == events;
    } else {
      var init := events[..|events| - 1];
      ShorterRuns(n, events);
      PrefixRuns(n, init, k);
      assert init[..k] == events[..k];
    }
  }

  lemma ChannelBatchOf(n: nat, events: seq<Event>, x: Whole, t: nat, p: nat) returns (slot: nat)
    requires Run(n, events) == Some(x) && t < n && t < |x.w.channels| && p < |x.w.channels[t]|
    ensures 1 <= |x.w.channels[t][p].ids| == |SlotItems(x.s.log, t, slot)|
  {
    RunStands(n, events, x);
    slot := ChannelBatchItems(x.s, x.w, n, t, p);
  }

  /** Every batch on its way to a worker carries between 1 and 128 transactions. */
  lemma ChannelBatchSmall(n: nat, events: seq<Event>, x: Whole, t: nat, p: nat)
    requires Run(n, events) == Some(x) && t < n && t < |x.w.channels| && p < |x.w.channels[t]|
    ensures 1 <= |x.w.channels[t][p].ids| <= TARGET_NUM_TRANSACTIONS_PER_BATCH
  {
    var slot := ChannelBatchOf(n, events, x, t, p);
    RunSmallBatches(n, events, x, t, slot);
  }
}
