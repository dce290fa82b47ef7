/** How the scheduler's concrete state - lock holds, channels, results, tracked batches - stands for
    a state of the protocol, and what each kind of step does to that correspondence. */
module Coupling {
  import opened Messages
  import opened AccountLocks
  import opened InFlight
  import opened Protocol

  const TARGET_NUM_TRANSACTIONS_PER_BATCH: nat := 128

  // ---- The attempts of a batch ----

  ghost function SlotItems(log: seq<Attempt>, t: nat, slot: nat): seq<Attempt> {
    if log == [] then []
    else
      var last := log[|log| - 1];
      var before := SlotItems(log[..|log| - 1], t, slot);
      if last.thread == t && last.slot == slot then before + [last] else before
  }

  ghost function TotalCost(items: seq<Attempt>): nat {
    if items == [] then 0 else TotalCost(items[..|items| - 1]) + items[|items| - 1].cost
  }

  /** The work of some attempts, as their cost or as their number. */
  ghost function ItemsWork(items: seq<Attempt>, cus: bool): nat {
    if cus then TotalCost(items) else |items|
  }

  /** The work in flight or about to be sent on thread `t`. */
  ghost function LiveWork(log: seq<Attempt>, released: set<(nat, nat)>, t: nat, cus: bool): nat {
    if log == [] then 0
    else
      var last := log[|log| - 1];
      LiveWork(log[..|log| - 1], released, t, cus) +
      if last.thread == t && (last.thread, last.slot) !in released then (if cus then last.cost else 1) else 0
  }

  lemma LiveWorkNext(log: seq<Attempt>, released: set<(nat, nat)>, a: Attempt, t: nat, cus: bool)
    requires (a.thread, a.slot) !in released
    ensures LiveWork(log + [a], released, t, cus) ==
      LiveWork(log, released, t, cus) + if a.thread == t then (if cus then a.cost else 1) else 0
  {
    assert (log + [a])[..|log|] == log;
  }

  lemma ItemsWorkNext(items: seq<Attempt>, a: Attempt, cus: bool)
    ensures ItemsWork(items + [a], cus) == ItemsWork(items, cus) + if cus then a.cost else 1
  {
    assert (items + [a])[..|items|] == items;
  }

  /** Completing a batch takes exactly its work off its thread. */
  lemma {:induction false} ReleaseWork(log: seq<Attempt>, released: set<(nat, nat)>, t: nat, slot: nat, u: nat,
                                       cus: bool)
    requires (t, slot) !in released
    ensures LiveWork(log, released, u, cus) ==
      LiveWork(log, released + {(t, slot)}, u, cus) + if u == t then ItemsWork(SlotItems(log, t, slot), cus) else 0
  {
    if log != [] {
      var init, last := log[..|log| - 1], log[|log| - 1];
      ReleaseWork(init, released, t, slot, u, cus);
      ItemsWorkNext(SlotItems(init, t, slot), last, cus);
    }
  }

  lemma SlotItemsNext(log: seq<Attempt>, a: Attempt, t: nat, slot: nat)
    ensures SlotItems(log + [a], t, slot) ==
      if a.thread == t && a.slot == slot then SlotItems(log, t, slot) + [a] else SlotItems(log, t, slot)
  {
    assert (log + [a])[..|log|] == log;
  }

  /** A batch carries the ids, transactions and ages of its attempts, aligned. */
  ghost predicate Carries(ids: seq<TransactionId>, transactions: seq<Transaction>, maxAges: seq<MaxAge>,
                          items: seq<Attempt>)
  {
    && |ids| == |transactions| == |maxAges| == |items|
    && forall i :: 0 <= i < |items| ==>
         ids[i] == items[i].id && TransactionTTL(transactions[i], maxAges[i]) == items[i].ttl
  }

  ghost predicate BatchCarries(b: SchedulingBatch, items: seq<Attempt>) {
    Carries(b.ids, b.transactions, b.maxAges, items)
  }

  // ---- Locks ----

  ghost function TxHolds(tx: Transaction, t: nat): multiset<Hold> {
    LockHolds(WriteKeys(tx.accounts), ReadKeys(tx.accounts), t)
  }

  ghost function ItemsHolds(items: seq<Attempt>, t: nat): multiset<Hold> {
    if items == [] then multiset{}
    else ItemsHolds(items[..|items| - 1], t) + TxHolds(items[|items| - 1].ttl.transaction, t)
  }

  /** The locks of every attempt whose batch has not been completed, each on its worker. */
  ghost function LiveHolds(log: seq<Attempt>, released: set<(nat, nat)>): multiset<Hold> {
    if log == [] then multiset{}
    else
      var last := log[|log| - 1];
      var before := LiveHolds(log[..|log| - 1], released);
      if (last.thread, last.slot) in released then before else before + TxHolds(last.ttl.transaction, last.thread)
  }

  lemma LiveHoldsNext(log: seq<Attempt>, released: set<(nat, nat)>, a: Attempt)
    requires (a.thread, a.slot) !in released
    ensures LiveHolds(log + [a], released) == LiveHolds(log, released) + TxHolds(a.ttl.transaction, a.thread)
  {
    assert (log + [a])[..|log|] == log;
  }

  /** Completing a batch gives back exactly the locks of its attempts. */
  lemma {:induction false} ReleaseHolds(log: seq<Attempt>, released: set<(nat, nat)>, t: nat, slot: nat)
    requires (t, slot) !in released
    ensures LiveHolds(log, released) ==
      LiveHolds(log, released + {(t, slot)}) + ItemsHolds(SlotItems(log, t, slot), t)
  {
    if log != [] {
      var init, last := log[..|log| - 1], log[|log| - 1];
      ReleaseHolds(init, released, t, slot);
      var items := SlotItems(init, t, slot);
      if last.thread == t && last.slot == slot {
        assert (items + [last])[..|items|] == items;
      }
    }
  }

  lemma ItemsHoldsNext(items: seq<Attempt>, t: nat, i: nat)
    requires i < |items|
    ensures ItemsHolds(items[..i + 1], t) == ItemsHolds(items[..i], t) + TxHolds(items[i].ttl.transaction, t)
  {
    assert items[..i + 1][..i] == items[..i];
  }

  lemma {:induction false} ItemsHoldsPrefix(items: seq<Attempt>, t: nat, i: nat)
    requires i <= |items|
    ensures ItemsHolds(items[..i], t) <= ItemsHolds(items, t)
    decreases |items| - i
  {
    if i < |items| {
      ItemsHoldsNext(items, t, i);
      ItemsHoldsPrefix(items, t, i + 1);
    } else {
      assert items[..i] == items;
    }
  }

  lemma {:induction false} LiveHoldsInclude(log: seq<Attempt>, released: set<(nat, nat)>, i: nat)
    requires i < |log| && (log[i].thread, log[i].slot) !in released
    ensures TxHolds(log[i].ttl.transaction, log[i].thread) <= LiveHolds(log, released)
  {
    if i < |log| - 1 { LiveHoldsInclude(log[..|log| - 1], released, i); }
  }

  lemma TxHoldsElements(tx: Transaction, t: nat)
    ensures forall k :: k in AccessOf(tx).writeSet ==> Hold(k, t, Write) in TxHolds(tx, t)
    ensures forall k :: k in AccessOf(tx).readSet ==> Hold(k, t, Read) in TxHolds(tx, t)
  {
    KeyHoldsOnThread(WriteKeys(tx.accounts), Write, t);
    KeyHoldsOnThread(ReadKeys(tx.accounts), Read, t);
  }

  /** If placing `tx` on `t` keeps mutual exclusion, the attempts it conflicts with are all on `t`. */
  lemma ExclusionGuards(log: seq<Attempt>, released: set<(nat, nat)>, tx: Transaction, t: nat, j: nat)
    requires Exclusive(LiveHolds(log, released) + TxHolds(tx, t))
    requires j < |log| && (log[j].thread, log[j].slot) !in released && Conflict(log[j].Access(), AccessOf(tx))
    ensures log[j].thread == t
  {
    LiveHoldsInclude(log, released, j);
    TxHoldsElements(log[j].ttl.transaction, log[j].thread);
    TxHoldsElements(tx, t);
    var h := LiveHolds(log, released) + TxHolds(tx, t);
    var a, b := log[j].Access(), AccessOf(tx);
    if k :| k in a.writeSet && k in b.writeSet {
      assert Hold(k, log[j].thread, Write) in h && Hold(k, t, Write) in h;
    } else if k :| k in a.writeSet && k in b.readSet {
      assert Hold(k, log[j].thread, Write) in h && Hold(k, t, Read) in h;
    } else {
      var k :| k in a.readSet && k in b.writeSet;
      assert Hold(k, log[j].thread, Read) in h && Hold(k, t, Write) in h;
    }
  }

  // ---- Ids in flight ----

  ghost function LiveIds(log: seq<Attempt>, released: set<(nat, nat)>): set<TransactionId> {
    set i: nat | i < |log| && (log[i].thread, log[i].slot) !in released :: log[i].id
  }

  ghost predicate DistinctLive(log: seq<Attempt>, released: set<(nat, nat)>) {
    forall i: nat, j: nat ::
      i < j < |log| && (log[i].thread, log[i].slot) !in released && (log[j].thread, log[j].slot) !in released ==>
      log[i].id != log[j].id
  }

  ghost function ItemIds(items: seq<Attempt>): set<TransactionId> {
    set k: nat | k < |items| :: items[k].id
  }

  /** The ids of a live batch are distinct, and no other live attempt has one of them. */
  lemma {:induction false} BatchIds(log: seq<Attempt>, released: set<(nat, nat)>, t: nat, slot: nat)
    requires DistinctLive(log, released) && (t, slot) !in released
    ensures var items, others := SlotItems(log, t, slot), LiveIds(log, released + {(t, slot)});
      && (forall i: nat, j: nat :: i < j < |items| ==> items[i].id != items[j].id)
      && LiveIds(log, released) == others + ItemIds(items) && others !! ItemIds(items)
  {
    if log == [] {
      assert LiveIds(log, released) == {} && ItemIds([]) == {};
    } else {
      var init, last := log[..|log| - 1], log[|log| - 1];
      BatchIds(init, released, t, slot);
      LastId(log, released);
      LastId(log, released + {(t, slot)});
      LastItem(SlotItems(init, t, slot), last);
    }
  }

  /** The last attempt adds its id to the live ones, if it is live. */
  lemma LastId(log: seq<Attempt>, released: set<(nat, nat)>)
    requires log != []
    ensures var init, last := log[..|log| - 1], log[|log| - 1];
      && LiveIds(log, released) ==
         LiveIds(init, released) + (if (last.thread, last.slot) in released then {} else {last.id})
      && (DistinctLive(log, released) && (last.thread, last.slot) !in released ==> last.id !in LiveIds(init, released))
  {
    var init, last := log[..|log| - 1], log[|log| - 1];
    forall id | id in LiveIds(init, released) ensures id in LiveIds(log, released) {
      var i: nat :| i < |init| && (init[i].thread, init[i].slot) !in released && init[i].id == id;
      assert log[i] == init[i];
    }
    forall id | id in LiveIds(log, released)
      ensures id in LiveIds(init, released) || (id == last.id && (last.thread, last.slot) !in released)
    {
      var i: nat :| i < |log| && (log[i].thread, log[i].slot) !in released && log[i].id == id;
      if i < |init| { assert log[i] == init[i]; }
    }
  }

  lemma LastItem(items: seq<Attempt>, a: Attempt)
    ensures ItemIds(items + [a]) == ItemIds(items) + {a.id}
  {
    forall id | id in ItemIds(items) ensures id in ItemIds(items + [a]) {
      var k: nat :| k < |items| && items[k].id == id;
      assert (items + [a])[k] == items[k];
    }
    assert (items + [a])[|items|] == a;
  }

  // ---- Channels, results and tracked batches ----

  datatype Wiring = Wiring(
    channels: seq<seq<SchedulingBatch>>,
    finished: seq<SchedulingBatchResult>,
    tracked: Tracked,
    slotOf: map<BatchId, (nat, nat)>)

  /** Batch `b` is the one numbered `slot` on worker `t`, and it is tracked as such. */
  ghost predicate Stands(s: System, w: Wiring, b: SchedulingBatch, t: nat, slot: nat) {
    && BatchCarries(b, SlotItems(s.log, t, slot))
    && b.batchId in w.slotOf && w.slotOf[b.batchId] == (t, slot)
  }

  ghost predicate ChannelsStand(s: System, w: Wiring, n: nat)
    requires WellFormed(s, n)
  {
    && |w.channels| == n
    && (forall t: nat :: t < n ==> |w.channels[t]| == s.tail[t] - s.head[t])
    && (forall t: nat, p: nat :: t < n && p < |w.channels[t]| ==> Stands(s, w, w.channels[t][p], t, s.head[t] + p))
  }

  /** A result comes from a batch its worker is past, still tracked. */
  ghost predicate ResultStands(s: System, w: Wiring, n: nat, b: SchedulingBatch)
    requires WellFormed(s, n)
  {
    && b.batchId in w.slotOf
    && var (t, slot) := w.slotOf[b.batchId];
       t < n && slot < s.head[t] && BatchCarries(b, SlotItems(s.log, t, slot))
  }

  ghost predicate Returned(w: Wiring, t: nat, slot: nat) {
    exists q: nat :: q < |w.finished| && w.finished[q].batch.batchId in w.slotOf &&
                     w.slotOf[w.finished[q].batch.batchId] == (t, slot)
  }

  ghost predicate FinishedStand(s: System, w: Wiring, n: nat)
    requires WellFormed(s, n)
  {
    && (forall q: nat :: q < |w.finished| ==> ResultStands(s, w, n, w.finished[q].batch))
    && (forall q: nat, r: nat :: q < r < |w.finished| ==> w.finished[q].batch.batchId != w.finished[r].batch.batchId)
    && (forall t: nat, slot: nat :: t < n && slot < s.head[t] && (t, slot) !in s.released ==> Returned(w, t, slot))
  }

  ghost predicate EntryStands(s: System, n: nat, entry: BatchEntry, t: nat, slot: nat)
    requires WellFormed(s, n)
  {
    && t < n && slot < s.tail[t] && (t, slot) !in s.released
    && var items := SlotItems(s.log, t, slot);
       items != [] && entry == BatchEntry(t, |items|, TotalCost(items))
  }

  ghost predicate TrackedStand(s: System, w: Wiring, n: nat)
    requires WellFormed(s, n)
  {
    && w.slotOf.Keys == w.tracked.Keys
    && (forall id :: id in w.slotOf ==> EntryStands(s, n, w.tracked[id], w.slotOf[id].0, w.slotOf[id].1))
    && (forall id, id' :: id in w.slotOf && id' in w.slotOf && id != id' ==> w.slotOf[id] != w.slotOf[id'])
  }

  ghost predicate Wired(s: System, w: Wiring, n: nat)
    requires WellFormed(s, n)
  {
    ChannelsStand(s, w, n) && FinishedStand(s, w, n) && TrackedStand(s, w, n)
  }

  /** Placing a transaction in a batch still being filled disturbs none of those sent. */
  lemma WiredAcquire(s: System, s': System, w: Wiring, n: nat)
    requires WellFormed(s, n) && Wired(s, w, n) && WellFormed(s', n)
    requires |s'.log| == |s.log| + 1 && s'.log[..|s.log|] == s.log
    requires var a := s'.log[|s.log|]; a.thread < n && a.slot == s.tail[a.thread]
    requires s'.head == s.head && s'.tail == s.tail && s'.released == s.released
    ensures Wired(s', w, n)
  {
    var a := s'.log[|s.log|];
    assert s'.log == s.log + [a];
    forall t: nat, slot: nat | t < n && slot < s.tail[t]
      ensures SlotItems(s'.log, t, slot) == SlotItems(s.log, t, slot)
    {
      SlotItemsNext(s.log, a, t, slot);
    }
    forall t: nat, p: nat | t < n && p < |w.channels[t]| ensures Stands(s', w, w.channels[t][p], t, s'.head[t] + p) {
      assert Stands(s, w, w.channels[t][p], t, s.head[t] + p);
    }
    forall q: nat | q < |w.finished| ensures ResultStands(s', w, n, w.finished[q].batch) {
      assert ResultStands(s, w, n, w.finished[q].batch);
    }
    forall id | id in w.slotOf ensures EntryStands(s', n, w.tracked[id], w.slotOf[id].0, w.slotOf[id].1) {
      assert EntryStands(s, n, w.tracked[id], w.slotOf[id].0, w.slotOf[id].1);
    }
  }

  ghost function WiringSend(w: Wiring, t: nat, slot: nat, b: SchedulingBatch, entry: BatchEntry): Wiring
    requires t < |w.channels|
  {
    w.(channels := w.channels[t := w.channels[t] + [b]],
       tracked := w.tracked[b.batchId := entry],
       slotOf := w.slotOf[b.batchId := (t, slot)])
  }

  lemma ChannelsSend(s: System, s': System, w: Wiring, w': Wiring, n: nat, t: nat, b: SchedulingBatch)
    requires WellFormed(s, n) && ChannelsStand(s, w, n) && t < n
    requires s' == s.(tail := s.tail[t := s.tail[t] + 1]) && WellFormed(s', n)
    requires b.batchId !in w.slotOf && BatchCarries(b, SlotItems(s.log, t, s.tail[t]))
    requires w'.channels == w.channels[t := w.channels[t] + [b]] && w'.slotOf == w.slotOf[b.batchId := (t, s.tail[t])]
    ensures ChannelsStand(s', w', n)
  {
    forall u: nat, p: nat | u < n && p < |w'.channels[u]| ensures Stands(s', w', w'.channels[u][p], u, s'.head[u] + p) {
      if u != t || p < |w.channels[u]| { assert Stands(s, w, w.channels[u][p], u, s.head[u] + p); }
    }
  }

  lemma TrackedSend(s: System, s': System, w: Wiring, w': Wiring, n: nat, t: nat, id: BatchId)
    requires WellFormed(s, n) && TrackedStand(s, w, n) && t < n
    requires s' == s.(tail := s.tail[t := s.tail[t] + 1]) && WellFormed(s', n)
    requires id !in w.slotOf && w'.slotOf == w.slotOf[id := (t, s.tail[t])]
    requires var items := SlotItems(s.log, t, s.tail[t]);
      items != [] && w'.tracked == w.tracked[id := BatchEntry(t, |items|, TotalCost(items))]
    ensures TrackedStand(s', w', n)
  {
    assert (t, s.tail[t]) !in s.released;
    forall i | i in w.slotOf
      ensures EntryStands(s', n, w.tracked[i], w.slotOf[i].0, w.slotOf[i].1) && w.slotOf[i] != (t, s.tail[t])
    {
      assert EntryStands(s, n, w.tracked[i], w.slotOf[i].0, w.slotOf[i].1);
      EntrySend(s, s', n, t, w.tracked[i], w.slotOf[i].0, w.slotOf[i].1);
    }
    var items := SlotItems(s.log, t, s.tail[t]);
    assert EntryStands(s', n, BatchEntry(t, |items|, TotalCost(items)), t, s.tail[t]);
  }

  /** A batch sent before stands after another one is sent. */
  lemma EntrySend(s: System, s': System, n: nat, t: nat, entry: BatchEntry, u: nat, slot: nat)
    requires WellFormed(s, n) && t < n && EntryStands(s, n, entry, u, slot)
    requires s' == s.(tail := s.tail[t := s.tail[t] + 1]) && WellFormed(s', n)
    ensures EntryStands(s', n, entry, u, slot) && (u, slot) != (t, s.tail[t])
  {}

  /** Sending adds a batch at the end of a channel and tracks it under a new id. */
  lemma WiredSend(s: System, s': System, w: Wiring, n: nat, t: nat, b: SchedulingBatch)
    requires WellFormed(s, n) && Wired(s, w, n) && t < n
    requires s' == s.(tail := s.tail[t := s.tail[t] + 1]) && WellFormed(s', n)
    requires b.batchId !in w.tracked && BatchCarries(b, SlotItems(s.log, t, s.tail[t])) && b.ids != []
    ensures var items := SlotItems(s.log, t, s.tail[t]);
      Wired(s', WiringSend(w, t, s.tail[t], b, BatchEntry(t, |items|, TotalCost(items))), n)
  {
    var items := SlotItems(s.log, t, s.tail[t]);
    var w' := WiringSend(w, t, s.tail[t], b, BatchEntry(t, |items|, TotalCost(items)));
    assert b.batchId !in w.slotOf;
    ChannelsSend(s, s', w, w', n, t, b);
    FinishedSend(s, s', w, w', n, b.batchId);
    TrackedSend(s, s', w, w', n, t, b.batchId);
  }

  lemma FinishedSend(s: System, s': System, w: Wiring, w': Wiring, n: nat, id: BatchId)
    requires WellFormed(s, n) && WellFormed(s', n) && FinishedStand(s, w, n)
    requires s'.log == s.log && s'.head == s.head && s'.released == s.released
    requires w'.finished == w.finished && id !in w.slotOf && w'.slotOf.Keys == w.slotOf.Keys + {id}
    requires forall i :: i in w.slotOf ==> w'.slotOf[i] == w.slotOf[i]
    ensures FinishedStand(s', w', n)
  {
    forall q: nat | q < |w.finished| ensures ResultStands(s', w', n, w'.finished[q].batch) {
      assert ResultStands(s, w, n, w.finished[q].batch);
    }
    forall u: nat, slot: nat | u < n && slot < s.head[u] && (u, slot) !in s.released ensures Returned(w', u, slot) {
      assert Returned(w, u, slot);
    }
  }

  ghost function WiringFinish(w: Wiring, t: nat, retryable: seq<nat>): Wiring
    requires t < |w.channels| && w.channels[t] != []
  {
    w.(channels := w.channels[t := w.channels[t][1..]],
       finished := w.finished + [SchedulingBatchResult(w.channels[t][0], retryable)])
  }

  lemma ChannelsFinish(s: System, s': System, w: Wiring, n: nat, t: nat, retryable: seq<nat>)
    requires WellFormed(s, n) && ChannelsStand(s, w, n) && t < n && s.head[t] < s.tail[t]
    requires s' == s.(head := s.head[t := s.head[t] + 1]) && WellFormed(s', n)
    ensures w.channels[t] != [] && ChannelsStand(s', WiringFinish(w, t, retryable), n)
  {
    var w' := WiringFinish(w, t, retryable);
    forall u: nat, p: nat | u < n && p < |w'.channels[u]| ensures Stands(s', w', w'.channels[u][p], u, s'.head[u] + p) {
      var p' := if u == t then p + 1 else p;
      assert Stands(s, w, w.channels[u][p'], u, s.head[u] + p');
    }
  }

  lemma FinishedFinish(s: System, s': System, w: Wiring, n: nat, t: nat, retryable: seq<nat>)
    requires WellFormed(s, n) && FinishedStand(s, w, n) && t < n && s.head[t] < s.tail[t]
    requires s' == s.(head := s.head[t := s.head[t] + 1]) && WellFormed(s', n)
    requires t < |w.channels| && w.channels[t] != [] && Stands(s, w, w.channels[t][0], t, s.head[t])
    ensures FinishedStand(s', WiringFinish(w, t, retryable), n)
  {
    var w' := WiringFinish(w, t, retryable);
    assert forall u: nat :: u < n ==> s.head[u] <= s'.head[u];
    forall q: nat | q < |w'.finished| ensures ResultStands(s', w', n, w'.finished[q].batch) {
      if q < |w.finished| {
        assert ResultStands(s, w, n, w.finished[q].batch);
        assert s.head[w.slotOf[w.finished[q].batch.batchId].0] <= s'.head[w.slotOf[w.finished[q].batch.batchId].0];
      } else {
        assert w'.finished[q].batch == w.channels[t][0] && s'.head[t] == s.head[t] + 1;
      }
    }
    forall q: nat | q < |w.finished| ensures w'.finished[q].batch.batchId != w.channels[t][0].batchId {
      assert ResultStands(s, w, n, w.finished[q].batch);
    }
    forall u: nat, slot: nat | u < n && slot < s'.head[u] && (u, slot) !in s'.released
      ensures Returned(w', u, slot)
    {
      if u == t && slot == s.head[t] {
        assert w'.finished[|w.finished|].batch == w.channels[t][0];
      } else {
        ReturnedStill(w, w', u, slot);
      }
    }
  }

  lemma TrackedFrame(s: System, s': System, w: Wiring, w': Wiring, n: nat)
    requires WellFormed(s, n) && TrackedStand(s, w, n) && WellFormed(s', n)
    requires s'.log == s.log && s'.tail == s.tail && s'.released == s.released
    requires w'.slotOf == w.slotOf && w'.tracked == w.tracked
    ensures TrackedStand(s', w', n)
  {
    forall id | id in w.slotOf ensures EntryStands(s', n, w.tracked[id], w.slotOf[id].0, w.slotOf[id].1) {
      assert EntryStands(s, n, w.tracked[id], w.slotOf[id].0, w.slotOf[id].1);
    }
  }

  /** Nothing changes for the channels when a worker executes. */
  lemma WiredFrame(s: System, s': System, w: Wiring, n: nat)
    requires WellFormed(s, n) && Wired(s, w, n) && WellFormed(s', n)
    requires s'.log == s.log && s'.head == s.head && s'.tail == s.tail && s'.released == s.released
    ensures Wired(s', w, n)
  {
    TrackedFrame(s, s', w, w, n);
    ChannelsFrame(s, s', w, n);
    FinishedFrame(s, s', w, n);
  }

  lemma ChannelsFrame(s: System, s': System, w: Wiring, n: nat)
    requires WellFormed(s, n) && ChannelsStand(s, w, n) && WellFormed(s', n)
    requires s'.log == s.log && s'.head == s.head && s'.tail == s.tail
    ensures ChannelsStand(s', w, n)
  {
    forall t: nat, p: nat | t < n && p < |w.channels[t]| ensures Stands(s', w, w.channels[t][p], t, s'.head[t] + p) {
      assert Stands(s, w, w.channels[t][p], t, s.head[t] + p);
    }
  }

  lemma FinishedFrame(s: System, s': System, w: Wiring, n: nat)
    requires WellFormed(s, n) && FinishedStand(s, w, n) && WellFormed(s', n)
    requires s'.log == s.log && s'.head == s.head && s'.released == s.released
    ensures FinishedStand(s', w, n)
  {
    forall q: nat | q < |w.finished| ensures ResultStands(s', w, n, w.finished[q].batch) {
      assert ResultStands(s, w, n, w.finished[q].batch);
    }
    forall t: nat, slot: nat | t < n && slot < s'.head[t] && (t, slot) !in s'.released ensures Returned(w, t, slot) {
      assert slot < s.head[t] && (t, slot) !in s.released;
    }
  }

  /** A worker hands back the batch it was working on, unchanged. */
  lemma WiredFinish(s: System, s': System, w: Wiring, n: nat, t: nat, retryable: seq<nat>)
    requires WellFormed(s, n) && Wired(s, w, n) && t < n && s.head[t] < s.tail[t]
    requires s' == s.(head := s.head[t := s.head[t] + 1]) && WellFormed(s', n)
    ensures w.channels[t] != [] && Wired(s', WiringFinish(w, t, retryable), n)
  {
    ChannelsFinish(s, s', w, n, t, retryable);
    assert Stands(s, w, w.channels[t][0], t, s.head[t] + 0);
    FinishedFinish(s, s', w, n, t, retryable);
    TrackedFrame(s, s', w, WiringFinish(w, t, retryable), n);
  }

  lemma ReturnedStill(w: Wiring, w': Wiring, t: nat, slot: nat)
    requires Returned(w, t, slot) && w'.slotOf == w.slotOf && w.finished <= w'.finished
    ensures Returned(w', t, slot)
  {
    var q: nat :| q < |w.finished| && w.finished[q].batch.batchId in w.slotOf &&
                  w.slotOf[w.finished[q].batch.batchId] == (t, slot);
    assert w'.finished[q] == w.finished[q];
  }

  ghost function WiringComplete(w: Wiring): Wiring
    requires w.finished != []
  {
    var id := w.finished[0].batch.batchId;
    w.(finished := w.finished[1..], tracked := w.tracked - {id}, slotOf := w.slotOf - {id})
  }

  lemma FinishedComplete(s: System, s': System, w: Wiring, n: nat)
    requires WellFormed(s, n) && FinishedStand(s, w, n) && w.finished != [] && w.finished[0].batch.batchId in w.slotOf
    requires s' == s.(released := s.released + {w.slotOf[w.finished[0].batch.batchId]}) && WellFormed(s', n)
    ensures FinishedStand(s', WiringComplete(w), n)
  {
    var w' := WiringComplete(w);
    assert forall q: nat :: q < |w'.finished| ==> w'.finished[q] == w.finished[q + 1];
    forall q: nat | q < |w'.finished| ensures ResultStands(s', w', n, w'.finished[q].batch) {
      assert ResultStands(s, w, n, w.finished[q + 1].batch);
    }
    forall u: nat, v: nat | u < n && v < s'.head[u] && (u, v) !in s'.released ensures Returned(w', u, v) {
      assert Returned(w, u, v);
      var q: nat :| q < |w.finished| && w.finished[q].batch.batchId in w.slotOf &&
                    w.slotOf[w.finished[q].batch.batchId] == (u, v);
      assert w'.finished[q - 1] == w.finished[q];
    }
  }

  lemma ChannelsComplete(s: System, s': System, w: Wiring, n: nat)
    requires WellFormed(s, n) && ChannelsStand(s, w, n) && w.finished != []
    requires ResultStands(s, w, n, w.finished[0].batch)
    requires s'.log == s.log && s'.head == s.head && s'.tail == s.tail && WellFormed(s', n)
    ensures ChannelsStand(s', WiringComplete(w), n)
  {
    var w' := WiringComplete(w);
    forall u: nat, p: nat | u < n && p < |w'.channels[u]| ensures Stands(s', w', w'.channels[u][p], u, s'.head[u] + p) {
      assert Stands(s, w, w.channels[u][p], u, s.head[u] + p);
    }
  }

  lemma TrackedComplete(s: System, s': System, w: Wiring, n: nat)
    requires WellFormed(s, n) && TrackedStand(s, w, n) && w.finished != [] && w.finished[0].batch.batchId in w.slotOf
    requires s' == s.(released := s.released + {w.slotOf[w.finished[0].batch.batchId]}) && WellFormed(s', n)
    ensures TrackedStand(s', WiringComplete(w), n)
  {
    var w' := WiringComplete(w);
    forall i | i in w'.slotOf ensures EntryStands(s', n, w'.tracked[i], w'.slotOf[i].0, w'.slotOf[i].1) {
      assert EntryStands(s, n, w.tracked[i], w.slotOf[i].0, w.slotOf[i].1);
    }
  }

  /** Receiving a result ends the tracking of its batch. */
  lemma WiredComplete(s: System, s': System, w: Wiring, n: nat)
    requires WellFormed(s, n) && Wired(s, w, n) && w.finished != [] && w.finished[0].batch.batchId in w.slotOf
    requires s' == s.(released := s.released + {w.slotOf[w.finished[0].batch.batchId]}) && WellFormed(s', n)
    ensures Wired(s', WiringComplete(w), n)
  {
    assert ResultStands(s, w, n, w.finished[0].batch);
    ChannelsComplete(s, s', w, n);
    FinishedComplete(s, s', w, n);
    TrackedComplete(s, s', w, n);
  }

  /** With the channels empty and every result received, nothing is live or tracked. */
  lemma Drained(s: System, w: Wiring, n: nat)
    requires Inv(s, n) && Wired(s, w, n) && w.finished == []
    requires forall t: nat :: t < n ==> w.channels[t] == []
    requires forall i: nat :: i < |s.log| ==> s.log[i].slot < s.tail[s.log[i].thread]
    ensures w.tracked == map[] && LiveHolds(s.log, s.released) == multiset{}
    ensures forall i: nat :: i < |s.log| ==> !s.Live(i) && i in s.done
  {
    forall i: nat | i < |s.log| ensures !s.Live(i) && i in s.done {
      assert w.channels[s.log[i].thread] == [];
    }
    NoneLive(s.log, s.released);
    assert w.slotOf.Keys == {};
  }

  lemma {:induction false} NoneLive(log: seq<Attempt>, released: set<(nat, nat)>)
    requires forall i: nat :: i < |log| ==> (log[i].thread, log[i].slot) in released
    ensures LiveHolds(log, released) == multiset{}
  {
    if log != [] { NoneLive(log[..|log| - 1], released); }
  }

  // ---- Counting ----

  /** How many attempts are in batches already sent. */
  ghost function SentCount(log: seq<Attempt>, tail: seq<nat>): (c: nat)
    ensures c <= |log|
  {
    if log == [] then 0
    else
      var last := log[|log| - 1];
      SentCount(log[..|log| - 1], tail) + if last.thread < |tail| && last.slot < tail[last.thread] then 1 else 0
  }

  lemma SentCountNext(log: seq<Attempt>, tail: seq<nat>, a: Attempt)
    requires a.thread < |tail| && a.slot == tail[a.thread]
    ensures SentCount(log + [a], tail) == SentCount(log, tail)
  {
    assert (log + [a])[..|log|] == log;
  }

  lemma {:induction false} SentCountSend(log: seq<Attempt>, tail: seq<nat>, t: nat)
    requires t < |tail|
    ensures SentCount(log, tail[t := tail[t] + 1]) == SentCount(log, tail) + |SlotItems(log, t, tail[t])|
  {
    if log != [] { SentCountSend(log[..|log| - 1], tail, t); }
  }

  lemma {:induction false} SentCountAll(log: seq<Attempt>, tail: seq<nat>)
    requires forall i: nat :: i < |log| ==> log[i].thread < |tail| && log[i].slot < tail[log[i].thread]
    ensures SentCount(log, tail) == |log|
  {
    if log != [] { SentCountAll(log[..|log| - 1], tail); }
  }

  /** A batch is empty iff no attempt has its number. */
  lemma {:induction false} SlotItemsNone(log: seq<Attempt>, t: nat, slot: nat)
    ensures SlotItems(log, t, slot) == [] <==> forall i: nat :: i < |log| ==> log[i].thread != t || log[i].slot != slot
  {
    if log != [] {
      var init := log[..|log| - 1];
      SlotItemsNone(init, t, slot);
      assert forall i: nat :: i < |init| ==> init[i] == log[i];
    }
  }

  /** After a send the worker's next batch is empty, and what was in it counts as sent. */
  lemma SendOpens(s: System, n: nat, t: nat)
    requires WellFormed(s, n) && t < n
    ensures var s' := Advanced(s, t);
      && SlotItems(s'.log, t, s'.tail[t]) == []
      && SentCount(s'.log, s'.tail) == SentCount(s.log, s.tail) + |SlotItems(s.log, t, s.tail[t])|
  {
    SentCountSend(s.log, s.tail, t);
    SlotItemsNone(s.log, t, s.tail[t] + 1);
  }

  /** A batch in a channel carries the attempts of a slot, and there are some. */
  lemma ChannelBatchItems(s: System, w: Wiring, n: nat, t: nat, p: nat) returns (slot: nat)
    requires WellFormed(s, n) && ChannelsStand(s, w, n) && TrackedStand(s, w, n) && t < n && p < |w.channels[t]|
    ensures 1 <= |w.channels[t][p].ids| == |SlotItems(s.log, t, slot)|
  {
    slot := s.head[t] + p;
    assert Stands(s, w, w.channels[t][p], t, slot);
    assert EntryStands(s, n, w.tracked[w.channels[t][p].batchId], t, slot);
  }
}
