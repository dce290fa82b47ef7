/** What happens to the transactions of a batch that came back: those at the retryable indexes wait
    again, the others are forgotten. */
module Retries {
  import opened Messages
  import opened PriorityIds
  import opened BoundedQueue
  import opened Container

  // ---- The scan ----

  /** The indexes from `i` to `n` that a single pass over both lists, peeking at the next retryable
      index, finds to be retryable. */
  function Scan(n: nat, i: nat, rest: seq<nat>): (r: seq<nat>)
    requires i <= n
    ensures forall k :: k in r ==> i <= k < n
    decreases n - i
  {
    if i == n then []
    else if rest != [] && rest[0] == i then [i] + Scan(n, i + 1, rest[1..])
    else Scan(n, i + 1, rest)
  }

  lemma ScanMatch(n: nat, i: nat, rest: seq<nat>, taken: seq<nat>)
    requires i < n && rest != [] && rest[0] == i
    ensures (taken + [i]) + Scan(n, i + 1, rest[1..]) == taken + Scan(n, i, rest)
  {
    var tail := Scan(n, i + 1, rest[1..]);
    assert Scan(n, i, rest) == [i] + tail;
    assert (taken + [i]) + tail == taken + ([i] + tail);
  }

  ghost predicate Increasing(r: seq<nat>, n: nat) {
    && (forall i, j :: 0 <= i < j < |r| ==> r[i] < r[j])
    && (forall i :: 0 <= i < |r| ==> r[i] < n)
  }

  /** How far `r` goes up strictly from `low`, staying below `n`. */
  ghost function Climb(r: seq<nat>, low: nat, n: nat): (m: nat)
    ensures m <= |r|
  {
    if r != [] && low <= r[0] < n then 1 + Climb(r[1..], r[0] + 1, n) else 0
  }

  lemma {:induction false} ScanIsClimb(n: nat, i: nat, rest: seq<nat>)
    requires i <= n
    ensures Scan(n, i, rest) == rest[..Climb(rest, i, n)]
    decreases n - i
  {
    if i < n {
      if rest != [] && rest[0] == i {
        ScanIsClimb(n, i + 1, rest[1..]);
      } else {
        ScanIsClimb(n, i + 1, rest);
      }
    }
  }

  lemma {:induction false} ClimbIncreases(r: seq<nat>, low: nat, n: nat)
    ensures Increasing(r[..Climb(r, low, n)], n)
    ensures forall i :: 0 <= i < Climb(r, low, n) ==> low <= r[i]
  {
    if r != [] && low <= r[0] < n {
      ClimbIncreases(r[1..], r[0] + 1, n);
      var m := Climb(r[1..], r[0] + 1, n);
      assert r[..m + 1] == [r[0]] + r[1..][..m];
      assert forall i :: 0 <= i < m ==> r[i + 1] == r[1..][i] >= r[0] + 1;
    }
  }

  lemma {:induction false} ClimbIsLongest(r: seq<nat>, low: nat, n: nat, m: nat)
    requires m <= |r| && Increasing(r[..m], n) && (m > 0 ==> low <= r[0])
    ensures m <= Climb(r, low, n)
    decreases m
  {
    if m > 0 {
      var p := r[..m];
      assert p[0] == r[0];
      assert r[1..][..m - 1] == p[1..];
      if m > 1 { assert p[1] == r[1..][0]; }
      ClimbIsLongest(r[1..], r[0] + 1, n, m - 1);
    }
  }

  /** The scan retries the longest strictly increasing in-range prefix of the list, whatever the list. */
  lemma ScanIsLongestPrefix(n: nat, r: seq<nat>)
    ensures Scan(n, 0, r) <= r && Increasing(Scan(n, 0, r), n)
    ensures forall m: nat :: m <= |r| && Increasing(r[..m], n) ==> m <= |Scan(n, 0, r)|
  {
    ScanIsClimb(n, 0, r);
    ClimbIncreases(r, 0, n);
    forall m: nat | m <= |r| && Increasing(r[..m], n) ensures m <= Climb(r, 0, n) {
      ClimbIsLongest(r, 0, n, m);
    }
  }

  /** Every listed index is retried exactly when the list increases strictly and stays in range. */
  lemma ScanIsAll(n: nat, r: seq<nat>)
    ensures Scan(n, 0, r) == r <==> Increasing(r, n)
  {
    ScanIsLongestPrefix(n, r);
    assert r[..|r|] == r;
  }

  // ---- The container ----

  ghost predicate Aligned(b: SchedulingBatch) {
    && |b.ids| == |b.transactions| == |b.maxAges|
    && forall i, j :: 0 <= i < j < |b.ids| ==> b.ids[i] != b.ids[j]
  }

  ghost function IdsFrom(b: SchedulingBatch, i: nat): set<TransactionId> {
    set k | i <= k < |b.ids| :: b.ids[k]
  }

  ghost predicate AllPending(b: SchedulingBatch, states: States) {
    forall k: nat :: k < |b.ids| ==> b.ids[k] in states && states[b.ids[k]].Pending?
  }

  ghost function Entry(b: SchedulingBatch, states: States, k: nat): TransactionPriorityId
    requires AllPending(b, states) && k < |b.ids|
  {
    TransactionPriorityId(states[b.ids[k]].priority, b.ids[k])
  }

  /** The queue entries of the transactions at these indexes. */
  ghost function Entries(b: SchedulingBatch, states: States, indexes: seq<nat>): seq<TransactionPriorityId>
    requires AllPending(b, states) && InRange(indexes, |b.ids|)
  {
    seq(|indexes|, j requires 0 <= j < |indexes| => Entry(b, states, indexes[j]))
  }

  lemma EntriesNext(b: SchedulingBatch, states: States, indexes: seq<nat>, k: nat)
    requires AllPending(b, states) && k < |b.ids| && InRange(indexes, |b.ids|)
    ensures Entries(b, states, indexes + [k]) == Entries(b, states, indexes) + [Entry(b, states, k)]
  {}

  /** What became of transaction `k` of the batch, retried or not. */
  ghost predicate Settled(b: SchedulingBatch, before: States, states: States, k: nat, retried: bool)
    requires Aligned(b) && k < |b.ids| && b.ids[k] in before && before[b.ids[k]].Pending?
  {
    b.ids[k] in states ==>
      && retried
      && states[b.ids[k]] ==
         before[b.ids[k]].TransitionToUnprocessed(TransactionTTL(b.transactions[k], b.maxAges[k]))
  }

  /** The states once `i` transactions have been dealt with, those at `taken` being retried. */
  ghost predicate Settling(b: SchedulingBatch, before: States, i: nat, taken: seq<nat>, states: States)
    requires Aligned(b) && AllPending(b, before) && i <= |b.ids|
  {
    && (forall k: nat :: k < i ==> Settled(b, before, states, k, k in taken))
    && (forall id :: id in states && id !in b.ids[..i] ==> id in before && states[id] == before[id])
  }

  ghost predicate InRange(indexes: seq<nat>, n: nat) {
    forall j :: 0 <= j < |indexes| ==> indexes[j] < n
  }

  /** The queue once the transactions at `taken` have been offered to it. */
  ghost function QueueAfter(b: SchedulingBatch, before: States, queue: set<TransactionPriorityId>, capacity: nat,
                            taken: seq<nat>): set<TransactionPriorityId>
    requires AllPending(b, before) && InRange(taken, |b.ids|)
  {
    OfferedAll(queue, capacity, Entries(b, before, taken))
  }

  lemma QueueNext(b: SchedulingBatch, before: States, queue: set<TransactionPriorityId>, capacity: nat, taken: seq<nat>,
                  i: nat)
    requires AllPending(b, before) && InRange(taken, |b.ids|) && i < |b.ids|
    ensures InRange(taken + [i], |b.ids|)
    ensures QueueAfter(b, before, queue, capacity, taken + [i]) ==
      Pushed(QueueAfter(b, before, queue, capacity, taken), capacity, Entry(b, before, i))
  {
    EntriesNext(b, before, taken, i);
    OfferedNext(queue, capacity, Entries(b, before, taken), Entry(b, before, i));
  }

  lemma IdsFromNext(b: SchedulingBatch, i: nat)
    requires Aligned(b) && i < |b.ids|
    ensures IdsFrom(b, i) == IdsFrom(b, i + 1) + {b.ids[i]} && b.ids[i] !in IdsFrom(b, i + 1)
    ensures b.ids[i] !in b.ids[..i]
  {}

  /** Forgetting a pending transaction keeps the books. */
  lemma ForgetTracks(states: States, waiting: set<TransactionPriorityId>, inFlight: set<TransactionId>,
                     id: TransactionId)
    requires Tracks(states, waiting, inFlight + {id}) && id !in inFlight
    ensures Tracks(states - {id}, waiting, inFlight)
  {}

  lemma RetrySettles(b: SchedulingBatch, before: States, i: nat, taken: seq<nat>, states: States, states': States)
    requires Aligned(b) && AllPending(b, before) && i < |b.ids| && Settling(b, before, i, taken, states)
    requires b.ids[i] in states' ==>
      states'[b.ids[i]] == before[b.ids[i]].TransitionToUnprocessed(TransactionTTL(b.transactions[i], b.maxAges[i]))
    requires forall id :: id in states' && id != b.ids[i] ==> id in states && states'[id] == states[id]
    ensures Settling(b, before, i + 1, taken + [i], states')
  {
    forall k: nat | k < i + 1 ensures Settled(b, before, states', k, k in taken + [i]) {
      if k < i { assert Settled(b, before, states, k, k in taken); }
    }
    assert b.ids[..i + 1] == b.ids[..i] + [b.ids[i]];
  }

  lemma ForgetSettles(b: SchedulingBatch, before: States, i: nat, taken: seq<nat>, states: States)
    requires Aligned(b) && AllPending(b, before) && i < |b.ids| && Settling(b, before, i, taken, states)
    ensures Settling(b, before, i + 1, taken, states - {b.ids[i]})
  {
    forall k: nat | k < i + 1 ensures Settled(b, before, states - {b.ids[i]}, k, k in taken) {
      if k < i { assert Settled(b, before, states, k, k in taken); }
    }
    assert b.ids[..i + 1] == b.ids[..i] + [b.ids[i]];
  }

  /** The transaction about to be dealt with is still as it was. */
  lemma NextPending(b: SchedulingBatch, before: States, i: nat, taken: seq<nat>, states: States,
                    waiting: set<TransactionPriorityId>, others: set<TransactionId>)
    requires Aligned(b) && AllPending(b, before) && i < |b.ids| && Settling(b, before, i, taken, states)
    requires Tracks(states, waiting, others + IdsFrom(b, i)) && others !! IdsFrom(b, 0)
    ensures b.ids[i] in states && states[b.ids[i]] == before[b.ids[i]]
    ensures others + IdsFrom(b, i) == others + IdsFrom(b, i + 1) + {b.ids[i]} && b.ids[i] !in others + IdsFrom(b, i + 1)
  {
    IdsFromNext(b, i);
    assert b.ids[i] in IdsFrom(b, 0) && b.ids[i] in others + IdsFrom(b, i);
  }

  method DealWith(container: TransactionStateContainer, b: SchedulingBatch, i: nat, retry: bool,
                  ghost others: set<TransactionId>, ghost before: States, ghost taken: seq<nat>)
    requires Aligned(b) && AllPending(b, before) && i < |b.ids| && others !! IdsFrom(b, 0)
    requires Tracks(container.states, container.priorityQueue, others + IdsFrom(b, i))
    requires Settling(b, before, i, taken, container.states)
    modifies container
    ensures Tracks(container.states, container.priorityQueue, others + IdsFrom(b, i + 1))
    ensures Settling(b, before, i + 1, if retry then taken + [i] else taken, container.states)
    ensures container.priorityQueue ==
      if retry then Pushed(old(container.priorityQueue), container.capacity, Entry(b, before, i))
      else old(container.priorityQueue)
  {
    NextPending(b, before, i, taken, container.states, container.priorityQueue, others);
    ghost var states := container.states;
    if retry {
      container.RetryTransaction(b.ids[i], TransactionTTL(b.transactions[i], b.maxAges[i]), others + IdsFrom(b, i + 1));
      RetrySettles(b, before, i, taken, states, container.states);
    } else {
      ForgetTracks(states, container.priorityQueue, others + IdsFrom(b, i + 1), b.ids[i]);
      ForgetSettles(b, before, i, taken, states);
      container.RemoveById(b.ids[i]);
    }
  }

  /** Goes through a batch once: the transactions the scan finds retryable are Unprocessed again,
      with their priority and cost, and are offered to the queue in order; the others are forgotten. */
  method RetryOrRemove(container: TransactionStateContainer, b: SchedulingBatch, retryable: seq<nat>,
                       ghost others: set<TransactionId>)
    requires Aligned(b) && AllPending(b, container.states) && others !! IdsFrom(b, 0)
    requires Tracks(container.states, container.priorityQueue, others + IdsFrom(b, 0))
    modifies container
    ensures Tracks(container.states, container.priorityQueue, others)
    ensures Settling(b, old(container.states), |b.ids|, Scan(|b.ids|, 0, retryable), container.states)
    ensures InRange(Scan(|b.ids|, 0, retryable), |b.ids|)
    ensures container.priorityQueue == QueueAfter(b, old(container.states), old(container.priorityQueue),
                                                  container.capacity, Scan(|b.ids|, 0, retryable))
  {
    var rest := retryable;
    ghost var taken: seq<nat> := [];
    ghost var states, queue := container.states, container.priorityQueue;
    for i := 0 to |b.ids|
      invariant Dealt(container, b, i, others, states, queue, taken)
      invariant taken + Scan(|b.ids|, i, rest) == Scan(|b.ids|, 0, retryable)
    {
      rest, taken := DealNext(container, b, i, rest, others, states, queue, taken);
    }
    assert others + IdsFrom(b, |b.ids|) == others;
    assert taken == Scan(|b.ids|, 0, retryable);
  }

  /** The first `i` transactions have been dealt with, those at `taken` by retrying them. */
  ghost predicate Dealt(container: TransactionStateContainer, b: SchedulingBatch, i: nat, others: set<TransactionId>,
                        states: States, queue: set<TransactionPriorityId>, taken: seq<nat>)
    requires Aligned(b) && AllPending(b, states)
    reads container
  {
    && i <= |b.ids| && InRange(taken, |b.ids|)
    && Tracks(container.states, container.priorityQueue, others + IdsFrom(b, i))
    && Settling(b, states, i, taken, container.states)
    && container.priorityQueue == QueueAfter(b, states, queue, container.capacity, taken)
  }

  /** Deals with the transaction at `i`, peeking at the next retryable index. */
  method DealNext(container: TransactionStateContainer, b: SchedulingBatch, i: nat, rest: seq<nat>,
                  ghost others: set<TransactionId>, ghost states: States, ghost queue: set<TransactionPriorityId>,
                  ghost taken: seq<nat>)
    returns (rest': seq<nat>, ghost taken': seq<nat>)
    requires Aligned(b) && AllPending(b, states) && i < |b.ids| && others !! IdsFrom(b, 0)
    requires Dealt(container, b, i, others, states, queue, taken)
    modifies container
    ensures Dealt(container, b, i + 1, others, states, queue, taken')
    ensures taken' + Scan(|b.ids|, i + 1, rest') == taken + Scan(|b.ids|, i, rest)
  {
    rest', taken' := rest, taken;
    var retry := rest != [] && rest[0] == i;
    DealWith(container, b, i, retry, others, states, taken);
    if retry {
      QueueNext(b, states, queue, container.capacity, taken, i);
      ScanMatch(|b.ids|, i, rest, taken);
      rest', taken' := rest[1..], taken + [i];
    }
  }

  /** A round trip leaves priority and cost alone. */
  lemma SettlingKeepsTerms(b: SchedulingBatch, before: States, taken: seq<nat>, states: States,
                           waiting: set<TransactionPriorityId>, inFlight: set<TransactionId>)
    requires Aligned(b) && AllPending(b, before) && Settling(b, before, |b.ids|, taken, states)
    requires Tracks(before, waiting, inFlight)
    ensures SameTerms(before, states)
  {
    forall id | id in states
      ensures id in before && !before[id].Transitioning? && !states[id].Transitioning?
      ensures states[id].priority == before[id].priority && states[id].cost == before[id].cost
    {
      if id in b.ids[..|b.ids|] {
        var k: nat :| k < |b.ids| && b.ids[k] == id;
        assert Settled(b, before, states, k, k in taken);
      }
    }
  }
}
