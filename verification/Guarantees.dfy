/** Running the same attempts in another order. */
module Reordering {
  import opened Messages
  import opened Protocol

  ghost predicate Distinct(a: seq<nat>) {
    forall i, j :: 0 <= i < j < |a| ==> a[i] != a[j]
  }

  /** The attempts of `a` and `b` are the same. */
  ghost predicate SameAttempts(log: seq<Attempt>, a: seq<nat>, b: seq<nat>) {
    && Distinct(a) && Distinct(b) && |a| == |b|
    && (forall i :: 0 <= i < |a| ==> a[i] < |log| && a[i] in b)
    && (forall i :: 0 <= i < |b| ==> b[i] in a)
  }

  ghost predicate Rivals(log: seq<Attempt>, x: nat, y: nat) {
    x < |log| && y < |log| && Conflict(log[x].Access(), log[y].Access())
  }

  /** Attempts that conflict are in the same order in both. */
  ghost predicate SameConflictOrder(log: seq<Attempt>, a: seq<nat>, b: seq<nat>) {
    forall i, j, k, l :: 0 <= i < j < |a| && 0 <= k < l < |b| && a[i] == b[l] && a[j] == b[k] ==>
      !Rivals(log, a[i], a[j])
  }

  function Without(a: seq<nat>, k: nat): seq<nat>
    requires k < |a|
  {
    a[..k] + a[k + 1..]
  }

  /** An attempt that conflicts with none after it may as well be run last. */
  lemma {:induction false} MoveLast(effect: Effect, m: Memory, log: seq<Attempt>, a: seq<nat>, k: nat)
    requires RespectsLog(effect, log) && k < |a| && forall i :: 0 <= i < |a| ==> a[i] < |log|
    requires forall j :: k < j < |a| ==> !Rivals(log, a[k], a[j])
    ensures Replay(effect, m, a) == effect(a[k], Replay(effect, m, Without(a, k)))
    decreases |a|
  {
    var init, y := a[..|a| - 1], a[|a| - 1];
    WithoutInit(a, k);
    if k < |a| - 1 {
      MoveLast(effect, m, log, init, k);
      MovePast(effect, m, log, a, k);
    }
  }

  lemma MovePast(effect: Effect, m: Memory, log: seq<Attempt>, a: seq<nat>, k: nat)
    requires RespectsLog(effect, log) && k < |a| - 1 && a[k] < |log| && a[|a| - 1] < |log|
    requires !Rivals(log, a[k], a[|a| - 1])
    requires var init := a[..|a| - 1]; Replay(effect, m, init) == effect(a[k], Replay(effect, m, Without(init, k)))
    ensures Replay(effect, m, a) == effect(a[k], Replay(effect, m, Without(a, k)))
  {
    var init, y := a[..|a| - 1], a[|a| - 1];
    WithoutInit(a, k);
    ReplayLast(effect, m, Without(a, k), Without(init, k), y);
    SwapRivalless(effect, log, a[k], y, Replay(effect, m, Without(init, k)));
  }

  lemma ReplayLast(effect: Effect, m: Memory, order: seq<nat>, init: seq<nat>, last: nat)
    requires order != [] && order[..|order| - 1] == init && order[|order| - 1] == last
    ensures Replay(effect, m, order) == effect(last, Replay(effect, m, init))
  {}

  lemma WithoutInit(a: seq<nat>, k: nat)
    requires k < |a|
    ensures var init, rest := a[..|a| - 1], Without(a, k);
      if k == |a| - 1 then rest == init
      else rest != [] && rest[..|rest| - 1] == Without(init, k) && rest[|rest| - 1] == a[|a| - 1]
  {}

  lemma SwapRivalless(effect: Effect, log: seq<Attempt>, x: nat, y: nat, m: Memory)
    requires RespectsLog(effect, log) && x < |log| && y < |log| && !Rivals(log, x, y)
    ensures effect(x, effect(y, m)) == effect(y, effect(x, m))
  {
    Commute(effect, x, log[x].Access(), y, log[y].Access(), m);
  }

  lemma WithoutElements(a: seq<nat>, k: nat)
    requires Distinct(a) && k < |a|
    ensures Distinct(Without(a, k)) && forall x :: x in Without(a, k) <==> x in a && x != a[k]
  {
    var rest := Without(a, k);
    assert forall i :: 0 <= i < |rest| ==> rest[i] == a[if i < k then i else i + 1];
    forall x | x in a && x != a[k] ensures x in rest {
      var i :| 0 <= i < |a| && a[i] == x;
      assert rest[if i < k then i else i - 1] == x;
    }
  }

  lemma WithoutOrder(log: seq<Attempt>, a: seq<nat>, b: seq<nat>, k: nat)
    requires SameConflictOrder(log, a, b) && k < |a| && b != []
    ensures SameConflictOrder(log, Without(a, k), b[..|b| - 1])
  {
    var rest, init := Without(a, k), b[..|b| - 1];
    assert forall i :: 0 <= i < |rest| ==> rest[i] == a[if i < k then i else i + 1];
    forall i, j, u, v | 0 <= i < j < |rest| && 0 <= u < v < |init| && rest[i] == init[v] && rest[j] == init[u]
      ensures !Rivals(log, rest[i], rest[j])
    {
      var i', j' := if i < k then i else i + 1, if j < k then j else j + 1;
      assert a[i'] == b[v] && a[j'] == b[u];
    }
  }

  lemma WithoutLast(log: seq<Attempt>, a: seq<nat>, b: seq<nat>, k: nat)
    requires SameAttempts(log, a, b) && b != [] && k < |a| && a[k] == b[|b| - 1]
    ensures SameAttempts(log, Without(a, k), b[..|b| - 1])
  {
    var rest, init := Without(a, k), b[..|b| - 1];
    WithoutElements(a, k);
    forall i | 0 <= i < |rest| ensures rest[i] < |log| && rest[i] in init {
      var y := a[if i < k then i else i + 1];
      assert rest[i] == y && y in b;
      var u :| 0 <= u < |b| && b[u] == y;
      assert init[u] == y;
    }
    forall i | 0 <= i < |init| ensures init[i] in rest {
      assert b[i] in a && b[i] != a[k];
    }
  }

  /** What is last in one order has no rival after it in the other. */
  lemma NoRivalAfter(log: seq<Attempt>, a: seq<nat>, b: seq<nat>, k: nat)
    requires SameAttempts(log, a, b) && SameConflictOrder(log, a, b) && k < |a| && b != [] && a[k] == b[|b| - 1]
    ensures forall j :: k < j < |a| ==> !Rivals(log, a[k], a[j])
  {
    forall j | k < j < |a| ensures !Rivals(log, a[k], a[j]) {
      assert a[j] in b;
      var u :| 0 <= u < |b| && b[u] == a[j];
      assert u < |b| - 1;
    }
  }

  /** Two orders that agree on every conflicting pair leave the accounts the same. */
  lemma {:induction false} ReorderedReplay(effect: Effect, m: Memory, log: seq<Attempt>, a: seq<nat>, b: seq<nat>)
    requires RespectsLog(effect, log) && SameAttempts(log, a, b) && SameConflictOrder(log, a, b)
    ensures Replay(effect, m, a) == Replay(effect, m, b)
    decreases |b|
  {
    if b != [] {
      var init, x := b[..|b| - 1], b[|b| - 1];
      assert x in a;
      var k :| 0 <= k < |a| && a[k] == x;
      NoRivalAfter(log, a, b, k);
      MoveLast(effect, m, log, a, k);
      WithoutOrder(log, a, b, k);
      WithoutLast(log, a, b, k);
      ReorderedReplay(effect, m, log, Without(a, k), init);
    }
  }

  ghost function Members(a: seq<nat>): set<nat> {
    set x | x in a
  }

  lemma {:induction false} DistinctSize(a: seq<nat>)
    requires Distinct(a)
    ensures |Members(a)| == |a|
  {
    if a != [] {
      var init, last := a[..|a| - 1], a[|a| - 1];
      DistinctSize(init);
      assert last !in Members(init);
      assert Members(a) == Members(init) + {last};
    }
  }

  lemma SameSize(a: seq<nat>, b: seq<nat>)
    requires Distinct(a) && Distinct(b) && forall x :: x in a <==> x in b
    ensures |a| == |b|
  {
    DistinctSize(a);
    DistinctSize(b);
    assert Members(a) == Members(b);
  }

  /** The attempts from `low` on, in lock order. */
  function LockOrder(low: nat, high: nat): seq<nat>
    requires low <= high
  {
    seq(high - low, (i: nat) => low + i)
  }

  lemma {:induction false} LockOrderReplay(effect: Effect, m: Memory, low: nat, high: nat)
    requires low <= high
    ensures InLockOrder(effect, m, high) == Replay(effect, InLockOrder(effect, m, low), LockOrder(low, high))
    decreases high - low
  {
    if low < high {
      LockOrderReplay(effect, m, low, high - 1);
      var order := LockOrder(low, high);
      assert order[..|order| - 1] == LockOrder(low, high - 1);
    }
  }
}

/** What a maintainer may rely on: the promises of the scheduler over whole runs. */
module Guarantees {
  import opened Basics
  import opened Messages
  import opened AccountLocks
  import opened InFlight
  import opened PriorityIds
  import opened Container
  import opened Protocol
  import opened Coupling
  import opened Runs
  import opened Passes
  import opened Reasons
  import opened Reordering
  import opened Scheduler

  /** `order` lists the attempts of the pass by falling priority. */
  ghost predicate ByPriority(s: Start, who: seq<TransactionPriorityId>, order: seq<nat>) {
    && Distinct(order)
    && (forall k :: k in order <==> s.logLen <= k < s.logLen + |who|)
    && (forall i, j :: 0 <= i < j < |order| && s.logLen <= order[i] < s.logLen + |who| &&
                       s.logLen <= order[j] < s.logLen + |who| ==>
          Less(who[order[j] - s.logLen], who[order[i] - s.logLen]))
  }

  /** Of two placed transactions that conflict, the one placed later has the lower priority. */
  lemma PlacedByPriority(s: Start, p: Pass, i: nat, j: nat)
    requires s.Valid() && Passes.Placed(s, p.log, p.who, p.out) && ConflictOrder(s, p.log, p.out)
    requires i < j < |p.who| && Rivals(p.log, s.logLen + i, s.logLen + j)
    ensures Less(p.who[j], p.who[i]) && p.who[j].priority <= p.who[i].priority
  {
    var x, y := p.who[i], p.who[j];
    assert PlacedAt(s, p.log[s.logLen + i], x, p.out, s.logLen + i);
    assert PlacedAt(s, p.log[s.logLen + j], y, p.out, s.logLen + j);
    ConflictSymmetric(s.Uses(x), s.Uses(y));
    assert Less(x, y) ==> Follows(p.log, p.out, x, y);
  }

  /** Whatever waits with a higher priority, or with the same one and a greater id, goes first if it
      conflicts: it was placed before, on the same worker, unless a filter turned it away. */
  lemma HigherGoesFirst(s: Start, p: Pass, l: TransactionPriorityId, h: TransactionPriorityId)
    requires PassInv(s, p) && l in s.queue && h in s.queue && Conflict(s.Uses(h), s.Uses(l))
    requires h.priority > l.priority || (h.priority == l.priority && h.id > l.id)
    requires l in p.out && p.out[l].Scheduled?
    ensures Follows(p.log, p.out, l, h)
  {
    assert Less(l, h);
  }

  /** Within a pass, lock order and priority order agree on every conflicting pair. */
  lemma PriorityAgrees(s: Start, p: Pass, order: seq<nat>)
    requires s.Valid() && Passes.Placed(s, p.log, p.who, p.out) && ConflictOrder(s, p.log, p.out)
    requires ByPriority(s, p.who, order)
    ensures SameConflictOrder(p.log, LockOrder(s.logLen, |p.log|), order)
  {
    var a := LockOrder(s.logLen, |p.log|);
    forall i: nat, j: nat, k: nat, l: nat | i < j < |a| && k < l < |order| && a[i] == order[l] && a[j] == order[k]
      ensures !Rivals(p.log, a[i], a[j])
    {
      AgreesAt(s, p, order, i, j, k, l);
    }
  }

  lemma AgreesAt(s: Start, p: Pass, order: seq<nat>, i: nat, j: nat, k: nat, l: nat)
    requires s.Valid() && Passes.Placed(s, p.log, p.who, p.out) && ConflictOrder(s, p.log, p.out)
    requires ByPriority(s, p.who, order) && i < j < |p.who| && k < l < |order|
    requires s.logLen + i == order[l] && s.logLen + j == order[k]
    ensures !Rivals(p.log, s.logLen + i, s.logLen + j)
  {
    LowerIsLater(s, p.who, order, k, l);
    if Rivals(p.log, s.logLen + i, s.logLen + j) {
      PlacedByPriority(s, p, i, j);
      assert false;
    }
  }

  lemma LowerIsLater(s: Start, who: seq<TransactionPriorityId>, order: seq<nat>, k: nat, l: nat)
    requires ByPriority(s, who, order) && k < l < |order|
    ensures s.logLen <= order[k] < s.logLen + |who| && s.logLen <= order[l] < s.logLen + |who|
    ensures Less(who[order[l] - s.logLen], who[order[k] - s.logLen])
    ensures who[order[l] - s.logLen].priority <= who[order[k] - s.logLen].priority
  {
    assert order[k] in order && order[l] in order;
  }

  /** In lock order or by falling priority, the transactions of a pass have the same effect. */
  lemma PassReplay(s: Start, p: Pass, order: seq<nat>, effect: Effect, m: Memory)
    requires PassInv(s, p) && RespectsLog(effect, p.log) && ByPriority(s, p.who, order)
    ensures InLockOrder(effect, m, |p.log|) == Replay(effect, InLockOrder(effect, m, s.logLen), order)
  {
    LockOrderReplay(effect, m, s.logLen, |p.log|);
    PriorityAgrees(s, p, order);
    SameOnes(s, p.log, p.who, order);
    ReorderedReplay(effect, InLockOrder(effect, m, s.logLen), p.log, LockOrder(s.logLen, |p.log|), order);
  }

  /** Whatever the interleaving of the workers and whatever was placed later, once everything is
      executed the accounts are as if what was placed before the pass had run in lock order, then the
      transactions placed by the pass one at a time by falling priority, and then the rest. */
  lemma PassIsSerialByPriority(n: nat, steps: seq<Step>, sys: System, s: Start, p: Pass, order: seq<nat>,
                               effect: Effect, m: Memory)
    requires Reaches(n, steps, sys) && RespectsLog(effect, sys.log) && forall i: nat :: i < |sys.log| ==> i in sys.done
    requires PassInv(s, p) && p.log <= sys.log && ByPriority(s, p.who, order)
    ensures InLockOrder(effect, m, |p.log|) == Replay(effect, InLockOrder(effect, m, s.logLen), order)
    ensures Replay(effect, m, sys.done) ==
      Replay(effect, Replay(effect, InLockOrder(effect, m, s.logLen), order), LockOrder(|p.log|, |sys.log|))
  {
    QuiescentIsSerial(n, steps, sys, effect, m);
    LockOrderReplay(effect, m, |p.log|, |sys.log|);
    PassReplay(s, p, order, effect, m);
  }

  // ---- Whole runs, pass by pass ----

  /** An order by falling priority for each pass. */
  ghost predicate AllByPriority(turns: seq<Turn>, orders: seq<seq<nat>>) {
    |orders| == |turns| && forall k :: 0 <= k < |turns| ==> ByPriority(turns[k].start, turns[k].pass.who, orders[k])
  }

  /** The accounts after the passes, one after another. */
  ghost function PassByPass(effect: Effect, m: Memory, orders: seq<seq<nat>>): Memory {
    if orders == [] then m
    else Replay(effect, PassByPass(effect, m, orders[..|orders| - 1]), orders[|orders| - 1])
  }

  lemma {:induction false} ChainedReplay(turns: seq<Turn>, orders: seq<seq<nat>>, log: seq<Attempt>, effect: Effect,
                                         m: Memory)
    requires Chained(turns, log) && AllByPriority(turns, orders) && RespectsLog(effect, log)
    ensures InLockOrder(effect, m, |log|) == PassByPass(effect, m, orders)
    decreases |turns|
  {
    if turns != [] {
      assert Chained(turns, log) == ChainedOn(turns, log) == WithLastTurn(turns, log);
      var k := |turns| - 1;
      var last := turns[k];
      assert last.start.log == log[..last.start.logLen];
      ChainedReplay(turns[..k], orders[..k], last.start.log, effect, m);
      PassReplay(last.start, last.pass, orders[k], effect, m);
    }
  }

  /** Of every run of the scheduler: once everything placed is executed, whatever the workers did in
      the meantime, the accounts are as if the passes had run one after another, and each pass its
      transactions one at a time by falling priority. */
  lemma RunIsPassByPass(scheduler: PrioGraphScheduler, orders: seq<seq<nat>>, effect: Effect, m: Memory)
    requires scheduler.Valid() && scheduler.Recorded() && RespectsLog(effect, scheduler.sys.log)
    requires forall i: nat :: i < |scheduler.sys.log| ==> i in scheduler.sys.done
    requires AllByPriority(scheduler.turns, orders)
    ensures Replay(effect, m, scheduler.sys.done) == PassByPass(effect, m, orders)
  {
    RunStands(scheduler.numThreads, scheduler.events, Whole(scheduler.sys, scheduler.Wires(), scheduler.locks.holds));
    QuiescentIsSerial(scheduler.numThreads, StepsOf(scheduler.numThreads, scheduler.events), scheduler.sys, effect, m);
    ChainedReplay(scheduler.turns, orders, scheduler.sys.log, effect, m);
  }

  /** The attempts in `chosen` by falling priority. */
  ghost predicate Falls(who: seq<TransactionPriorityId>, low: nat, chosen: set<nat>, order: seq<nat>) {
    && (forall k :: k in order <==> k in chosen)
    && (forall i, j :: 0 <= i < j < |order| ==>
          && low <= order[i] < low + |who| && low <= order[j] < low + |who|
          && Less(who[order[j] - low], who[order[i] - low]))
  }

  lemma TopOf(who: seq<TransactionPriorityId>, low: nat, chosen: set<nat>) returns (top: nat)
    requires chosen != {} && forall i, j :: 0 <= i < j < |who| ==> who[i] != who[j]
    requires forall k :: k in chosen ==> low <= k < low + |who|
    ensures top in chosen && forall k :: k in chosen && k != top ==> Less(who[k - low], who[top - low])
  {
    var ids := IdsAt(who, low, chosen);
    var some :| some in chosen;
    assert who[some - low] in ids;
    var best := MaxExists(ids);
    top :| top in chosen && who[top - low] == best;
    forall k | k in chosen && k != top ensures Less(who[k - low], who[top - low]) {
      assert who[k - low] in ids && who[k - low] != who[top - low];
    }
  }

  ghost function IdsAt(who: seq<TransactionPriorityId>, low: nat, chosen: set<nat>): set<TransactionPriorityId>
    requires forall k :: k in chosen ==> low <= k < low + |who|
  {
    set k | k in chosen :: who[k - low]
  }

  lemma FallsNext(who: seq<TransactionPriorityId>, low: nat, chosen: set<nat>, order: seq<nat>, top: nat)
    requires top in chosen && low <= top < low + |who| && Falls(who, low, chosen - {top}, order)
    requires forall k :: k in chosen && k != top ==> low <= k < low + |who| && Less(who[k - low], who[top - low])
    ensures Falls(who, low, chosen, [top] + order)
  {
    var all := [top] + order;
    forall i, j | 0 <= i < j < |all|
      ensures low <= all[i] < low + |who| && low <= all[j] < low + |who| && Less(who[all[j] - low], who[all[i] - low])
    {
      assert all[j] == order[j - 1] && order[j - 1] in order;
      if i > 0 { assert all[i] == order[i - 1]; }
    }
  }

  lemma {:induction false} FallingOrder(who: seq<TransactionPriorityId>, low: nat, chosen: set<nat>)
    returns (order: seq<nat>)
    requires forall i, j :: 0 <= i < j < |who| ==> who[i] != who[j]
    requires forall k :: k in chosen ==> low <= k < low + |who|
    ensures Falls(who, low, chosen, order)
    decreases |chosen|
  {
    order := [];
    if chosen != {} {
      var top := TopOf(who, low, chosen);
      var rest := FallingOrder(who, low, chosen - {top});
      FallsNext(who, low, chosen, rest, top);
      order := [top] + rest;
    }
  }

  /** There is an order by falling priority for every pass. */
  lemma ByPriorityExists(s: Start, p: Pass) returns (order: seq<nat>)
    requires PassInv(s, p)
    ensures ByPriority(s, p.who, order)
  {
    PlacedApart(s, p.log, p.who, p.out);
    order := FallingOrder(p.who, s.logLen, Members(LockOrder(s.logLen, s.logLen + |p.who|)));
    FallsIsByPriority(s, p.who, order);
  }

  lemma FallsIsByPriority(s: Start, who: seq<TransactionPriorityId>, order: seq<nat>)
    requires Falls(who, s.logLen, Members(LockOrder(s.logLen, s.logLen + |who|)), order)
    ensures ByPriority(s, who, order)
  {
    var all := LockOrder(s.logLen, s.logLen + |who|);
    forall k | s.logLen <= k < s.logLen + |who| ensures k in all {
      assert all[k - s.logLen] == k;
    }
    assert forall k :: k in order <==> k in all;
  }

  lemma PlacedApart(s: Start, log: seq<Attempt>, who: seq<TransactionPriorityId>, out: Outcomes)
    requires s.Valid() && Passes.Placed(s, log, who, out)
    ensures forall i, j :: 0 <= i < j < |who| ==> who[i] != who[j]
  {
    forall i, j | 0 <= i < j < |who| ensures who[i] != who[j] {
      assert PlacedAt(s, log[s.logLen + i], who[i], out, s.logLen + i);
      assert PlacedAt(s, log[s.logLen + j], who[j], out, s.logLen + j);
    }
  }

  /** Priority order and lock order list the same attempts. */
  lemma SameOnes(s: Start, log: seq<Attempt>, who: seq<TransactionPriorityId>, order: seq<nat>)
    requires ByPriority(s, who, order) && |log| == s.logLen + |who|
    ensures SameAttempts(log, LockOrder(s.logLen, |log|), order)
  {
    var a := LockOrder(s.logLen, |log|);
    forall x | x in order ensures x in a {
      assert a[x - s.logLen] == x;
    }
    SameSize(a, order);
    forall i | 0 <= i < |order| ensures order[i] in a {
      assert order[i] in order;
    }
  }

  /** At every moment of every run of the scheduler the accounts are what running the executed
      attempts one at a time in lock order would have made of them. */
  lemma ExecutionIsSerial(scheduler: PrioGraphScheduler, effect: Effect, m: Memory)
    requires scheduler.Valid() && RespectsLog(effect, scheduler.sys.log)
    ensures Replay(effect, m, scheduler.sys.done) ==
      Serial(effect, m, |scheduler.sys.log|, Executed(scheduler.sys))
  {
    var x := Whole(scheduler.sys, scheduler.Wires(), scheduler.locks.holds);
    RunStands(scheduler.numThreads, scheduler.events, x);
    ParallelIsSerial(scheduler.numThreads, StepsOf(scheduler.numThreads, scheduler.events), scheduler.sys, effect, m);
  }

  /** No batch ever holds two conflicting transactions, and conflicting transactions given to one
      worker are in batches it gets in lock order. */
  lemma BatchesAreConflictFree(scheduler: PrioGraphScheduler, i: nat, j: nat)
    requires scheduler.Valid() && i < j < |scheduler.sys.log|
    requires Rivals(scheduler.sys.log, i, j) && scheduler.sys.log[i].thread == scheduler.sys.log[j].thread
    ensures scheduler.sys.log[i].slot < scheduler.sys.log[j].slot
  {
    RunStands(scheduler.numThreads, scheduler.events, Whole(scheduler.sys, scheduler.Wires(), scheduler.locks.holds));
    assert Ordered(scheduler.sys, i, j);
  }

  /** Every batch on its way to a worker carries between 1 and 128 transactions. */
  lemma BatchesAreSmall(scheduler: PrioGraphScheduler, t: nat, p: nat)
    requires scheduler.Valid() && t < |scheduler.channels| && p < |scheduler.channels[t]|
    ensures 1 <= |scheduler.channels[t][p].ids| <= 128
  {
    var x := Whole(scheduler.sys, scheduler.Wires(), scheduler.locks.holds);
    RunShape(scheduler.numThreads, scheduler.events, x);
    ChannelBatchSmall(scheduler.numThreads, scheduler.events, x, t, p);
  }

  /** Between passes the counters of a thread are the cost and the number of the transactions placed
      on it and not yet received back. */
  lemma CountersAreWork(scheduler: PrioGraphScheduler, t: nat)
    requires scheduler.Valid() && NothingOpen(scheduler.sys.log, scheduler.sys.tail) && t < scheduler.numThreads
    ensures |scheduler.tracker.cusInFlightPerThread| == |scheduler.tracker.numInFlightPerThread| == scheduler.numThreads
    ensures scheduler.tracker.cusInFlightPerThread[t] == LiveWork(scheduler.sys.log, scheduler.sys.released, t, true)
    ensures scheduler.tracker.numInFlightPerThread[t] == LiveWork(scheduler.sys.log, scheduler.sys.released, t, false)
  {
    var x := Whole(scheduler.sys, scheduler.Wires(), scheduler.locks.holds);
    RunShape(scheduler.numThreads, scheduler.events, x);
    SlotItemsNone(x.s.log, t, x.s.tail[t]);
    RunWork(scheduler.numThreads, scheduler.events, x, t, true);
    RunWork(scheduler.numThreads, scheduler.events, x, t, false);
  }

  /** The locks held are those of the transactions placed and not yet received back, each on its
      worker, and mutual exclusion holds between the workers. */
  lemma LocksAreThoseInFlight(scheduler: PrioGraphScheduler)
    requires scheduler.Valid()
    ensures scheduler.locks.holds == LiveHolds(scheduler.sys.log, scheduler.sys.released)
    ensures Exclusive(scheduler.locks.holds)
  {
    RunStands(scheduler.numThreads, scheduler.events, Whole(scheduler.sys, scheduler.Wires(), scheduler.locks.holds));
  }

  /** When every result is in, the lock table is empty, every counter is zero, no batch is tracked,
      nothing is in flight, and everything placed was executed. */
  lemma NothingIsLeft(scheduler: PrioGraphScheduler)
    requires scheduler.Valid() && NothingOpen(scheduler.sys.log, scheduler.sys.tail)
    requires scheduler.finished == [] && forall t :: 0 <= t < |scheduler.channels| ==> scheduler.channels[t] == []
    ensures scheduler.locks.locks == map[] && scheduler.tracker.batches == map[]
    ensures forall t: nat :: t < |scheduler.tracker.numInFlightPerThread| ==>
      scheduler.tracker.numInFlightPerThread[t] == 0 && scheduler.tracker.cusInFlightPerThread[t] == 0
    ensures LiveIds(scheduler.sys.log, scheduler.sys.released) == {}
    ensures forall i: nat :: i < |scheduler.sys.log| ==> i in scheduler.sys.done
  {
    var x := Whole(scheduler.sys, scheduler.Wires(), scheduler.locks.holds);
    RunStands(scheduler.numThreads, scheduler.events, x);
    Drained(x.s, x.w, scheduler.numThreads);
    EmptyTable(scheduler.locks.locks, scheduler.numThreads);
    IdleCounters(scheduler.tracker);
  }

  // ---- Progress ----

  /** A tracked batch has attempts in flight. */
  lemma TrackedIsBusy(n: nat, events: seq<Event>, x: Whole, id: BatchId)
    requires Run(n, events) == Some(x) && id in x.w.tracked
    ensures LiveIds(x.s.log, x.s.released) != {}
  {
    RunStands(n, events, x);
    var at := x.w.slotOf[id];
    assert EntryStands(x.s, n, x.w.tracked[id], at.0, at.1);
    if forall i: nat :: i < |x.s.log| ==> x.s.log[i].thread != at.0 || x.s.log[i].slot != at.1 {
      SlotItemsNone(x.s.log, at.0, at.1);
      assert false;
    }
    var i: nat :| i < |x.s.log| && x.s.log[i].thread == at.0 && x.s.log[i].slot == at.1;
    assert x.s.log[i].id in LiveIds(x.s.log, x.s.released);
  }

  /** A scheduler that finds no thread with room has work in flight. */
  lemma FullIsBusy(scheduler: PrioGraphScheduler)
    requires scheduler.Valid() && !scheduler.HasRoom() && scheduler.numThreads <= scheduler.maxBlockUnits
    ensures LiveIds(scheduler.sys.log, scheduler.sys.released) != {}
  {
    assert scheduler.maxBlockUnits / scheduler.numThreads >= 1;
    BusyCounter(scheduler.tracker, 0);
    var id :| id in scheduler.tracker.batches;
    TrackedIsBusy(scheduler.numThreads, scheduler.events,
                  Whole(scheduler.sys, scheduler.Wires(), scheduler.locks.holds), id);
  }

  /** What a pass placed is in flight when it ends. */
  lemma PlacedIsBusy(s: Start, p: Pass)
    requires PassInv(s, p) && p.who != []
    ensures LiveIds(p.log, s.released) != {}
  {
    EndLive(s, p);
    assert p.who[0].id in PlacedIds(p.who);
  }

  /** What waits after everything was decided about is kept out by something in flight. */
  lemma WaitingIsBusy(s: Start, p: Pass)
    requires PassInv(s, p) && Justified(s, p.log, p.unschedulable) && p.out.Keys == s.queue
    requires s.queue - Gone(p.out) != {} && |s.tail| > 0
    ensures LiveIds(p.log, s.released) != {}
  {
    var x :| x in s.queue - Gone(p.out);
    assert x in p.unschedulable;
    var top := TopIsUnlockable(s, p.log, p.unschedulable);
    UnlockableIsBusy(s, p.log, top);
  }

  /** The scheduler never idles with work at hand: when a pass ends and transactions still wait,
      something is in flight, unless the pre-graph filter turned away a whole window. */
  lemma NeverIdle(scheduler: PrioGraphScheduler, container: TransactionStateContainer, r: SchedulingSummary)
    requires scheduler.Valid() && scheduler.PassEnded(container, r) && scheduler.numThreads <= scheduler.maxBlockUnits
    requires scheduler.Thorough(r.numScheduled, r.numFilteredOut) || !scheduler.HasRoom()
    requires r.numFilteredOut != scheduler.lookAheadWindowSize && container.priorityQueue != {}
    ensures LiveIds(scheduler.sys.log, scheduler.sys.released) != {}
  {
    if !scheduler.HasRoom() {
      FullIsBusy(scheduler);
    } else if scheduler.pass.who != [] {
      PlacedIsBusy(scheduler.start, scheduler.pass);
    } else {
      RunShape(scheduler.numThreads, scheduler.events, Whole(scheduler.sys, scheduler.Wires(), scheduler.locks.holds));
      WaitingIsBusy(scheduler.start, scheduler.pass);
    }
  }
}
