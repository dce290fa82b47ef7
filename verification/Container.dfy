/** The (priority, id) pairs the scheduler orders its work by. */
module PriorityIds {
  import opened Messages

  datatype TransactionPriorityId = TransactionPriorityId(priority: nat, id: TransactionId)

  /** Priority first, then id. */
  predicate Less(a: TransactionPriorityId, b: TransactionPriorityId) {
    a.priority < b.priority || (a.priority == b.priority && a.id < b.id)
  }

  ghost predicate IsMax(s: set<TransactionPriorityId>, p: TransactionPriorityId) {
    p in s && forall q :: q in s && q != p ==> Less(q, p)
  }

  ghost predicate IsMin(s: set<TransactionPriorityId>, p: TransactionPriorityId) {
    p in s && forall q :: q in s && q != p ==> Less(p, q)
  }

  lemma {:induction false} MaxExists(s: set<TransactionPriorityId>) returns (p: TransactionPriorityId)
    requires s != {}
    ensures IsMax(s, p)
    decreases s
  {
    p :| p in s;
    if s != {p} {
      var q := MaxExists(s - {p});
      assert forall r :: r in s ==> r == p || r in s - {p};
      if Less(p, q) { p := q; }
    }
  }

  lemma {:induction false} MinExists(s: set<TransactionPriorityId>) returns (p: TransactionPriorityId)
    requires s != {}
    ensures IsMin(s, p)
    decreases s
  {
    p :| p in s;
    if s != {p} {
      var q := MinExists(s - {p});
      assert forall r :: r in s ==> r == p || r in s - {p};
      if Less(q, p) { p := q; }
    }
  }

  /** The set of the elements of a list. */
  ghost function Elems(s: seq<TransactionPriorityId>): set<TransactionPriorityId> {
    set p | p in s
  }
}

/** `MinMaxHeap` with the container's push rule: a full queue takes a new element only by giving
    up its least one. */
module BoundedQueue {
  import opened PriorityIds

  ghost function Least(s: set<TransactionPriorityId>): (p: TransactionPriorityId)
    requires s != {}
    ensures IsMin(s, p)
  {
    assert exists p :: IsMin(s, p) by { var q := MinExists(s); }
    var p :| IsMin(s, p);
    p
  }

  lemma LeastUnique(s: set<TransactionPriorityId>, p: TransactionPriorityId)
    requires IsMin(s, p)
    ensures p == Least(s)
  {}

  /** The queue after pushing `p`. */
  ghost function Pushed(queue: set<TransactionPriorityId>, capacity: nat, p: TransactionPriorityId):
    set<TransactionPriorityId>
  {
    if |queue| >= capacity then queue + {p} - {Least(queue + {p})} else queue + {p}
  }

  /** The queue after pushing `ps` one after the other onto `queue`. */
  ghost function OfferedAll(queue: set<TransactionPriorityId>, capacity: nat, ps: seq<TransactionPriorityId>):
    set<TransactionPriorityId>
  {
    if ps == [] then queue else Pushed(OfferedAll(queue, capacity, ps[..|ps| - 1]), capacity, ps[|ps| - 1])
  }

  lemma OfferedNext(queue: set<TransactionPriorityId>, capacity: nat, ps: seq<TransactionPriorityId>,
                    p: TransactionPriorityId)
    ensures OfferedAll(queue, capacity, ps + [p]) == Pushed(OfferedAll(queue, capacity, ps), capacity, p)
  {
    assert (ps + [p])[..|ps|] == ps;
  }

  /** A queue within its capacity stays within it. */
  lemma PushFits(queue: set<TransactionPriorityId>, capacity: nat, p: TransactionPriorityId)
    requires |queue| <= capacity
    ensures |Pushed(queue, capacity, p)| <= capacity
  {}

  lemma {:induction false} OfferedFits(queue: set<TransactionPriorityId>, capacity: nat, ps: seq<TransactionPriorityId>)
    requires |queue| <= capacity
    ensures |OfferedAll(queue, capacity, ps)| <= capacity
  {
    if ps != [] {
      OfferedFits(queue, capacity, ps[..|ps| - 1]);
      PushFits(OfferedAll(queue, capacity, ps[..|ps| - 1]), capacity, ps[|ps| - 1]);
    }
  }

  /** `queue` holds the `capacity` greatest elements of `all`. */
  ghost predicate IsTop(queue: set<TransactionPriorityId>, all: set<TransactionPriorityId>, capacity: nat) {
    && queue <= all
    && |queue| == (if |all| <= capacity then |all| else capacity)
    && forall x, y :: x in queue && y in all - queue ==> Less(y, x)
  }

  lemma SubsetOfSameSize<T>(s: set<T>, t: set<T>)
    requires s <= t && |s| == |t|
    ensures s == t
  {
    assert |t - s| == |t| - |s|;
  }

  lemma PushTop(queue: set<TransactionPriorityId>, all: set<TransactionPriorityId>, capacity: nat,
                p: TransactionPriorityId)
    requires IsTop(queue, all, capacity) && p !in all
    ensures IsTop(Pushed(queue, capacity, p), all + {p}, capacity)
  {
    if |queue| < capacity {
      SubsetOfSameSize(queue, all);
    } else {
      var least := Least(queue + {p});
      var queue' := queue + {p} - {least};
      forall x, y | x in queue' && y in all + {p} - queue' ensures Less(y, x) {
        if y != least {
          assert y in all - queue;
          if x == p { assert Less(y, least) && Less(least, p); }
        }
      }
    }
  }

  /** New ids, each once. */
  ghost predicate AllNew(queue: set<TransactionPriorityId>, ps: seq<TransactionPriorityId>) {
    Elems(ps) !! queue && forall i, j :: 0 <= i < j < |ps| ==> ps[i] != ps[j]
  }

  /** Whatever was pushed, the queue holds the greatest of it and of what it held before. */
  lemma {:induction false} PushedAllIsTop(queue: set<TransactionPriorityId>, capacity: nat,
                                          ps: seq<TransactionPriorityId>)
    requires |queue| <= capacity && AllNew(queue, ps)
    ensures IsTop(OfferedAll(queue, capacity, ps), queue + Elems(ps), capacity)
  {
    if ps == [] {
      assert queue + Elems(ps) == queue;
    } else {
      var init, last := ps[..|ps| - 1], ps[|ps| - 1];
      LastIsNew(queue, ps);
      PushedAllIsTop(queue, capacity, init);
      PushTop(OfferedAll(queue, capacity, init), queue + Elems(init), capacity, last);
    }
  }

  /** What is kept has the highest priorities, and the greatest ids among equals. */
  lemma TopIsHighest(queue: set<TransactionPriorityId>, all: set<TransactionPriorityId>, capacity: nat,
                     kept: TransactionPriorityId, dropped: TransactionPriorityId)
    requires IsTop(queue, all, capacity) && kept in queue && dropped in all && dropped !in queue
    ensures dropped.priority <= kept.priority && (dropped.priority == kept.priority ==> dropped.id < kept.id)
  {
    assert Less(dropped, kept);
  }

  lemma LastIsNew(queue: set<TransactionPriorityId>, ps: seq<TransactionPriorityId>)
    requires AllNew(queue, ps) && ps != []
    ensures var init, last := ps[..|ps| - 1], ps[|ps| - 1];
      && AllNew(queue, init) && last !in queue + Elems(init)
      && queue + Elems(ps) == queue + Elems(init) + {last}
  {
    assert ps[|ps| - 1] in Elems(ps);
    assert Elems(ps) == Elems(ps[..|ps| - 1]) + {ps[|ps| - 1]};
  }

  lemma TopUnique(q1: set<TransactionPriorityId>, q2: set<TransactionPriorityId>, all: set<TransactionPriorityId>,
                  capacity: nat)
    requires IsTop(q1, all, capacity) && IsTop(q2, all, capacity)
    ensures q1 == q2
  {
    assert q1 == q1 * q2 + (q1 - q2) && q2 == q1 * q2 + (q2 - q1);
    assert |q1 - q2| == |q2 - q1|;
    assert forall x, y :: x in q1 - q2 && y in q2 - q1 ==> Less(y, x) && Less(x, y);
    if q1 - q2 != {} && q2 - q1 != {} {
      var x :| x in q1 - q2;
      assert forall y :: y in q2 - q1 ==> Less(y, x) && Less(x, y);
    }
  }

  /** The order of insertion does not matter. */
  lemma PushOrderIrrelevant(queue: set<TransactionPriorityId>, capacity: nat, ps: seq<TransactionPriorityId>,
                            qs: seq<TransactionPriorityId>)
    requires |queue| <= capacity && AllNew(queue, ps) && AllNew(queue, qs) && Elems(ps) == Elems(qs)
    ensures OfferedAll(queue, capacity, ps) == OfferedAll(queue, capacity, qs)
  {
    PushedAllIsTop(queue, capacity, ps);
    PushedAllIsTop(queue, capacity, qs);
    TopUnique(OfferedAll(queue, capacity, ps), OfferedAll(queue, capacity, qs), queue + Elems(ps), capacity);
  }
}

/** `TransactionStateContainer`: a bounded priority queue of waiting ids and a map of every
    transaction's state. */
module Container {
  import opened Basics
  import opened Messages
  import opened PriorityIds
  import opened BoundedQueue

  datatype TransactionState =
    | Unprocessed(transactionTtl: TransactionTTL, priority: nat, cost: nat)
    | Pending(transactionTtl: TransactionTTL, priority: nat, cost: nat)
    | Transitioning
  {
    /** Panics if the transaction is pending already. */
    function TransitionToPending(): (r: (TransactionState, TransactionTTL))
      requires Unprocessed?
      ensures r.0.Pending? && r.0.TransitionToUnprocessed(r.1) == this
    {
      (Pending(transactionTtl, priority, cost), transactionTtl)
    }

    /** Panics if the transaction is not pending. */
    function TransitionToUnprocessed(ttl: TransactionTTL): TransactionState
      requires Pending?
    {
      Unprocessed(ttl, priority, cost)
    }
  }

  type States = map<TransactionId, TransactionState>

  /** The states are exactly those of the `waiting` and the `inFlight` transactions: the former are
      Unprocessed with the priority they wait with, the latter Pending. */
  ghost predicate Tracks(states: States, waiting: set<TransactionPriorityId>, inFlight: set<TransactionId>) {
    && (forall id :: id in states ==>
          if states[id].Unprocessed? then TransactionPriorityId(states[id].priority, id) in waiting
          else states[id].Pending? && id in inFlight)
    && (forall p :: p in waiting ==>
          p.id in states && states[p.id].Unprocessed? && states[p.id].priority == p.priority)
    && (forall id :: id in inFlight ==> id in states && states[id].Pending?)
  }

  ghost function IdsOf(waiting: set<TransactionPriorityId>): set<TransactionId> {
    set p | p in waiting :: p.id
  }

  /** The map knows the waiting and those in flight, and no others; nobody is both. */
  lemma TracksKeys(states: States, waiting: set<TransactionPriorityId>, inFlight: set<TransactionId>)
    requires Tracks(states, waiting, inFlight)
    ensures states.Keys == IdsOf(waiting) + inFlight && IdsOf(waiting) !! inFlight
  {
    forall id | id in states ensures id in IdsOf(waiting) + inFlight {
      if states[id].Unprocessed? { assert TransactionPriorityId(states[id].priority, id).id == id; }
    }
  }

  /** Transactions come and go, but those that stay keep their priority and cost. */
  ghost predicate SameTerms(before: States, after: States) {
    forall id :: id in after ==>
      && id in before && !before[id].Transitioning? && !after[id].Transitioning?
      && after[id].priority == before[id].priority && after[id].cost == before[id].cost
  }

  /** The states after a push: those of the queue's members survive. */
  ghost function StatesAfterPush(states: States, queue: set<TransactionPriorityId>, capacity: nat,
                                 p: TransactionPriorityId): States
  {
    if |queue| >= capacity then states - {Least(queue + {p}).id} else states
  }

  /** Dropping a waiting transaction keeps the books. */
  lemma DropTracks(states: States, waiting: set<TransactionPriorityId>, inFlight: set<TransactionId>,
                   p: TransactionPriorityId)
    requires Tracks(states, waiting, inFlight) && p in waiting
    ensures Tracks(states - {p.id}, waiting - {p}, inFlight)
  {
    forall q | q in waiting - {p} ensures q.id in states - {p.id} {
      assert states[q.id].priority == q.priority && states[p.id].priority == p.priority;
    }
  }

  /** A push keeps the books. */
  lemma PushTracks(states: States, queue: set<TransactionPriorityId>, inFlight: set<TransactionId>, capacity: nat,
                   p: TransactionPriorityId)
    requires Tracks(states, queue + {p}, inFlight)
    ensures Tracks(StatesAfterPush(states, queue, capacity, p), Pushed(queue, capacity, p), inFlight)
  {
    if |queue| >= capacity { DropTracks(states, queue + {p}, inFlight, Least(queue + {p})); }
  }

  class TransactionStateContainer {
    const capacity: nat
    var priorityQueue: set<TransactionPriorityId>
    var states: States

    constructor (capacity: nat)
      ensures this.capacity == capacity && priorityQueue == {} && states == map[]
      ensures Tracks(states, priorityQueue, {})
    {
      this.capacity := capacity;
      priorityQueue := {};
      states := map[];
    }

    /** Takes the waiting id of the highest priority, the greatest id among equals. */
    method Pop() returns (r: Option<TransactionPriorityId>)
      modifies this`priorityQueue
      ensures r.None? <==> old(priorityQueue) == {}
      ensures r.Some? ==> IsMax(old(priorityQueue), r.value)
      ensures r.Some? ==> forall q :: q in old(priorityQueue) ==>
        q.priority <= r.value.priority && (q.priority == r.value.priority ==> q.id <= r.value.id)
      ensures priorityQueue == if r.Some? then old(priorityQueue) - {r.value} else {}
    {
      if priorityQueue == {} {
        return None;
      }
      ghost var witness_ := MaxExists(priorityQueue);
      var p :| p in priorityQueue && forall q :: q in priorityQueue && q != p ==> Less(q, p);
      priorityQueue := priorityQueue - {p};
      r := Some(p);
    }

    /** Adds a transaction under a fresh id. Returns whether one was dropped for capacity. */
    method InsertNewTransaction(id: TransactionId, ttl: TransactionTTL, priority: nat, cost: nat,
                                ghost inFlight: set<TransactionId>)
      returns (dropped: bool)
      requires Tracks(states, priorityQueue, inFlight) && id !in states
      modifies this`priorityQueue, this`states
      ensures Tracks(states, priorityQueue, inFlight)
      ensures priorityQueue == Pushed(old(priorityQueue), capacity, TransactionPriorityId(priority, id))
      ensures dropped <==> |old(priorityQueue)| >= capacity
      ensures id in states ==> states[id] == Unprocessed(ttl, priority, cost)
      ensures forall i :: i in states && i != id ==> i in old(states) && states[i] == old(states)[i]
    {
      var p := TransactionPriorityId(priority, id);
      states := states[id := Unprocessed(ttl, priority, cost)];
      PushTracks(states, priorityQueue, inFlight, capacity, p);
      dropped := PushIdIntoQueue(p);
    }

    /** Returns a pending transaction to the queue. */
    method RetryTransaction(id: TransactionId, ttl: TransactionTTL, ghost inFlight: set<TransactionId>)
      requires Tracks(states, priorityQueue, inFlight + {id}) && id !in inFlight
      modifies this`priorityQueue, this`states
      ensures Tracks(states, priorityQueue, inFlight)
      ensures priorityQueue ==
        Pushed(old(priorityQueue), capacity, TransactionPriorityId(old(states)[id].priority, id))
      ensures id in states ==> states[id] == Unprocessed(ttl, old(states)[id].priority, old(states)[id].cost)
      ensures forall i :: i in states && i != id ==> i in old(states) && states[i] == old(states)[i]
    {
      var p := TransactionPriorityId(states[id].priority, id);
      states := states[id := states[id].TransitionToUnprocessed(ttl)];
      PushTracks(states, priorityQueue, inFlight, capacity, p);
      var _ := PushIdIntoQueue(p);
    }

    /** Pushes an id whose state is known; a full queue drops its least id, state and all. What is
        dropped has no higher priority than anything kept. */
    method PushIdIntoQueue(p: TransactionPriorityId) returns (dropped: bool)
      requires forall q :: q in priorityQueue + {p} ==> q.id in states
      modifies this`priorityQueue, this`states
      ensures forall x, y :: x in priorityQueue && y in old(priorityQueue) + {p} - priorityQueue ==>
        y.priority <= x.priority && (y.priority == x.priority ==> y.id < x.id)
      ensures priorityQueue == Pushed(old(priorityQueue), capacity, p)
      ensures states == StatesAfterPush(old(states), old(priorityQueue), capacity, p)
      ensures dropped <==> |old(priorityQueue)| >= capacity
    {
      if |priorityQueue| >= capacity {
        var all := priorityQueue + {p};
        ghost var witness_ := MinExists(all);
        var least :| least in all && forall q :: q in all && q != least ==> Less(least, q);
        LeastUnique(all, least);
        priorityQueue := all - {least};
        RemoveById(least.id);
        dropped := true;
      } else {
        priorityQueue := priorityQueue + {p};
        dropped := false;
      }
    }

    /** Panics if the transaction does not exist. */
    method RemoveById(id: TransactionId)
      requires id in states
      modifies this`states
      ensures states == old(states) - {id}
    {
      states := states - {id};
    }
  }
}
