/** The scheduler, its worker threads and their channels as one machine of small steps, and the
    proof that whatever the interleaving, the accounts end up as if the transactions had been
    executed one at a time in the order their locks were taken. */
module Protocol {
  import opened Basics
  import opened Messages

  /** One placement of a transaction on a worker. The batches a worker is given are numbered in the
      order they are sent; `slot` is the number of the batch this placement travels in. */
  datatype Attempt = Attempt(id: TransactionId, ttl: TransactionTTL, cost: nat, thread: nat, slot: nat) {
    function Access(): Access {
      AccessOf(ttl.transaction)
    }
  }

  datatype System = System(
    log: seq<Attempt>,           // every attempt, in the order its locks were taken
    head: seq<nat>,              // per worker: the batch it is working on
    tail: seq<nat>,              // per worker: the batch the scheduler is still filling
    released: set<(nat, nat)>,   // (worker, slot) of the batches whose locks were released
    done: seq<nat>)              // executed attempts, in the order they were executed
  {
    /** The locks of attempt `i` are held. */
    predicate Live(i: nat)
      requires i < |log|
    {
      (log[i].thread, log[i].slot) !in released
    }

    predicate Clash(i: nat, j: nat)
      requires i < |log| && j < |log|
    {
      Conflict(log[i].Access(), log[j].Access())
    }
  }

  /** `s` with one more attempt. */
  function Extended(s: System, a: Attempt): System {
    s.(log := s.log + [a])
  }

  function AdvancedTail(tail: seq<nat>, t: nat): seq<nat>
    requires t < |tail|
  {
    tail[t := tail[t] + 1]
  }

  /** `s` once the batch being filled for worker `t` has been sent. */
  function Advanced(s: System, t: nat): System
    requires t < |s.tail|
  {
    s.(tail := AdvancedTail(s.tail, t))
  }

  /** `s` once worker `t` is past the batch it was working on. */
  function Past(s: System, t: nat): System
    requires t < |s.head|
  {
    s.(head := s.head[t := s.head[t] + 1])
  }

  /** `s` once the locks of the batch `at` have been released. */
  function Released(s: System, at: (nat, nat)): System {
    s.(released := s.released + {at})
  }

  function Initial(n: nat): System {
    System([], seq(n, i => 0), seq(n, i => 0), {}, [])
  }

  datatype Step =
    | Acquire(id: TransactionId, ttl: TransactionTTL, cost: nat, thread: nat)
    | Send(thread: nat)
    | Execute(attempt: nat)
    | Finish(thread: nat)
    | Complete(thread: nat, slot: nat)

  ghost predicate Enabled(s: System, step: Step) {
    && |s.head| == |s.tail|
    && match step
       // Every conflicting lock is held by the same worker, in a batch already sent to it.
       case Acquire(id, ttl, cost, t) =>
         && t < |s.tail|
         && forall j: nat :: j < |s.log| && s.Live(j) && Conflict(s.log[j].Access(), AccessOf(ttl.transaction)) ==>
              s.log[j].thread == t && s.log[j].slot < s.tail[t]
       case Send(t) =>
         && t < |s.tail|
         && exists i: nat :: i < |s.log| && s.log[i].thread == t && s.log[i].slot == s.tail[t]
       // A worker runs the transactions of its current batch, in any order.
       case Execute(k) =>
         && k < |s.log| && k !in s.done
         && s.log[k].thread < |s.tail|
         && s.log[k].slot == s.head[s.log[k].thread] < s.tail[s.log[k].thread]
       case Finish(t) =>
         && t < |s.tail| && s.head[t] < s.tail[t]
         && forall i: nat :: i < |s.log| && s.log[i].thread == t && s.log[i].slot == s.head[t] ==> i in s.done
       case Complete(t, slot) =>
         t < |s.tail| && slot < s.head[t] && (t, slot) !in s.released
  }

  ghost function Apply(s: System, step: Step): System
    requires Enabled(s, step)
  {
    match step
    case Acquire(id, ttl, cost, t) => Extended(s, Attempt(id, ttl, cost, t, s.tail[t]))
    case Send(t) => Advanced(s, t)
    case Execute(k) => s.(done := s.done + [k])
    case Finish(t) => Past(s, t)
    case Complete(t, slot) => Released(s, (t, slot))
  }

  /** The state a system of `n` workers is in after `steps`, if each of them was enabled in turn. */
  ghost function After(n: nat, steps: seq<Step>): Option<System>
    decreases |steps|
  {
    if steps == [] then Some(Initial(n))
    else
      var before := After(n, steps[..|steps| - 1]);
      var last := steps[|steps| - 1];
      if before.Some? && Enabled(before.value, last) then Some(Apply(before.value, last)) else None
  }

  ghost predicate Reaches(n: nat, steps: seq<Step>, s: System) {
    After(n, steps) == Some(s)
  }

  lemma ReachesNext(n: nat, steps: seq<Step>, s: System, step: Step)
    requires Reaches(n, steps, s) && Enabled(s, step)
    ensures Reaches(n, steps + [step], Apply(s, step))
  {
    assert (steps + [step])[..|steps + [step]| - 1] == steps;
  }

  // ---- What every step keeps ----

  ghost predicate WellFormed(s: System, n: nat) {
    && |s.head| == |s.tail| == n
    && (forall t: nat :: t < n ==> s.head[t] <= s.tail[t])
    && (forall i: nat :: i < |s.log| ==> s.log[i].thread < n && s.log[i].slot <= s.tail[s.log[i].thread])
    && (forall t: nat, slot: nat :: (t, slot) in s.released ==> t < n && slot < s.head[t])
    && (forall i: nat, j: nat :: i < j < |s.done| ==> s.done[i] != s.done[j])
    && (forall i: nat :: i in s.done ==> i < |s.log|)
  }

  /** A worker receives its attempts in the order their locks were taken, no batch holds two
      conflicting ones, and conflicting attempts are on one worker unless the earlier one was
      executed already. */
  ghost predicate Ordered(s: System, i: nat, j: nat)
    requires i < |s.log| && j < |s.log|
  {
    && (s.log[i].thread == s.log[j].thread ==>
          s.log[i].slot <= s.log[j].slot && (s.Clash(i, j) ==> s.log[i].slot < s.log[j].slot))
    && (s.Clash(i, j) && s.log[i].thread != s.log[j].thread ==> i in s.done)
  }

  /** What lies before the current batch of a worker was executed; nothing after it was. */
  ghost predicate Progress(s: System, n: nat)
    requires WellFormed(s, n)
  {
    && (forall i: nat :: i < |s.log| && s.log[i].slot < s.head[s.log[i].thread] ==> i in s.done)
    && (forall i: nat :: i in s.done ==>
          s.log[i].slot <= s.head[s.log[i].thread] && s.log[i].slot < s.tail[s.log[i].thread])
  }

  ghost predicate Inv(s: System, n: nat) {
    && WellFormed(s, n)
    && Progress(s, n)
    && (forall i: nat, j: nat :: i < j < |s.log| ==> Ordered(s, i, j))
  }

  lemma AcquireKeeps(s: System, n: nat, step: Step)
    requires Inv(s, n) && step.Acquire? && Enabled(s, step)
    ensures Inv(Apply(s, step), n)
  {
    var s' := Apply(s, step);
    var last := |s.log|;
    assert WellFormed(s', n) && Progress(s', n);
    forall i: nat | i < last ensures Ordered(s', i, last) {
      assert s'.log[i] == s.log[i];
      if !s.Live(i) { assert (s.log[i].thread, s.log[i].slot) in s.released; }
    }
    forall i: nat, j: nat | i < j < |s'.log| ensures Ordered(s', i, j) {
      if j < last { assert Ordered(s, i, j); }
    }
  }

  lemma SendKeeps(s: System, n: nat, step: Step)
    requires Inv(s, n) && step.Send? && Enabled(s, step)
    ensures Inv(Apply(s, step), n)
  {
    var s' := Apply(s, step);
    assert forall i: nat, j: nat :: i < j < |s.log| ==> Ordered(s, i, j) == Ordered(s', i, j);
  }

  lemma ExecuteKeeps(s: System, n: nat, step: Step)
    requires Inv(s, n) && step.Execute? && Enabled(s, step)
    ensures Inv(Apply(s, step), n)
  {
    var s' := Apply(s, step);
    assert forall i: nat, j: nat :: i < j < |s.log| && Ordered(s, i, j) ==> Ordered(s', i, j);
  }

  lemma FinishKeeps(s: System, n: nat, step: Step)
    requires Inv(s, n) && step.Finish? && Enabled(s, step)
    ensures Inv(Apply(s, step), n)
  {
    var s' := Apply(s, step);
    assert forall i: nat, j: nat :: i < j < |s.log| && Ordered(s, i, j) ==> Ordered(s', i, j);
  }

  lemma CompleteKeeps(s: System, n: nat, step: Step)
    requires Inv(s, n) && step.Complete? && Enabled(s, step)
    ensures Inv(Apply(s, step), n)
  {
    var s' := Apply(s, step);
    assert forall i: nat, j: nat :: i < j < |s.log| && Ordered(s, i, j) ==> Ordered(s', i, j);
  }

  lemma StepKeeps(s: System, n: nat, step: Step)
    requires Inv(s, n) && Enabled(s, step)
    ensures Inv(Apply(s, step), n)
  {
    match step
    case Acquire(_, _, _, _) => AcquireKeeps(s, n, step);
    case Send(_) => SendKeeps(s, n, step);
    case Execute(_) => ExecuteKeeps(s, n, step);
    case Finish(_) => FinishKeeps(s, n, step);
    case Complete(_, _) => CompleteKeeps(s, n, step);
  }

  /** The invariant holds in every reachable state. */
  lemma {:induction false} ReachableInv(n: nat, steps: seq<Step>, s: System)
    requires Reaches(n, steps, s)
    ensures Inv(s, n)
    decreases |steps|
  {
    if steps != [] {
      var before := After(n, steps[..|steps| - 1]).value;
      ReachableInv(n, steps[..|steps| - 1], before);
      StepKeeps(before, n, steps[|steps| - 1]);
    }
  }

  /** Of two conflicting attempts the one that took its locks first is executed first. */
  lemma ConflictsInOrder(s: System, n: nat, i: nat, j: nat)
    requires Inv(s, n) && i < j < |s.log| && s.Clash(i, j) && j in s.done
    ensures i in s.done
  {
    assert Ordered(s, i, j);
  }

  // ---- The accounts ----

  datatype Value = Absent | Present(data: nat)
  type Memory = map<Pubkey, nat>

  function Look(m: Memory, a: Pubkey): Value {
    if a in m then Present(m[a]) else Absent
  }

  ghost predicate Agree(m1: Memory, m2: Memory, on: set<Pubkey>) {
    forall a :: a in on ==> Look(m1, a) == Look(m2, a)
  }

  /** What each attempt does to the accounts: `effect(i, m)` is the state after attempt `i`. */
  type Effect = (nat, Memory) -> Memory

  /** Attempt `i` changes only accounts its transaction may write, in a way that depends only on
      the accounts its transaction lists. An attempt that will be retried may change nothing. */
  ghost predicate Respects(effect: Effect, i: nat, access: Access) {
    && (forall m: Memory, a: Pubkey :: a !in access.writeSet ==> Look(effect(i, m), a) == Look(m, a))
    && (forall m1: Memory, m2: Memory :: Agree(m1, m2, access.readSet + access.writeSet) ==>
          Agree(effect(i, m1), effect(i, m2), access.writeSet))
  }

  ghost predicate RespectsLog(effect: Effect, log: seq<Attempt>) {
    forall i: nat :: i < |log| ==> Respects(effect, i, log[i].Access())
  }

  /** The accounts after running the attempts of `order` one after the other. */
  function Replay(effect: Effect, m: Memory, order: seq<nat>): Memory {
    if order == [] then m
    else effect(order[|order| - 1], Replay(effect, m, order[..|order| - 1]))
  }

  /** The accounts after running, one at a time in lock order, those of the first `n` attempts
      that are in `chosen`. */
  function Serial(effect: Effect, m: Memory, n: nat, chosen: set<nat>): Memory {
    if n == 0 then m
    else
      var before := Serial(effect, m, n - 1, chosen);
      if n - 1 in chosen then effect(n - 1, before) else before
  }

  lemma SameMemory(m1: Memory, m2: Memory)
    requires forall a :: Look(m1, a) == Look(m2, a)
    ensures m1 == m2
  {
    forall a ensures a in m1 <==> a in m2 { assert Look(m1, a) == Look(m2, a); }
    forall a | a in m1 ensures m1[a] == m2[a] { assert Look(m1, a) == Look(m2, a); }
  }

  /** Attempts without a conflict commute. */
  lemma Commute(effect: Effect, i: nat, a: Access, j: nat, b: Access, m: Memory)
    requires Respects(effect, i, a) && Respects(effect, j, b) && !Conflict(a, b)
    ensures effect(i, effect(j, m)) == effect(j, effect(i, m))
  {
    var mi, mj := effect(i, m), effect(j, m);
    var ij, ji := effect(i, mj), effect(j, mi);
    assert Agree(m, mj, a.readSet + a.writeSet);
    assert Agree(mi, ij, a.writeSet);
    assert Agree(m, mi, b.readSet + b.writeSet);
    assert Agree(mj, ji, b.writeSet);
    forall x ensures Look(ij, x) == Look(ji, x) {
      if x in a.writeSet {
        assert Look(ji, x) == Look(mi, x);
      } else if x in b.writeSet {
        assert Look(ij, x) == Look(mj, x);
      } else {
        assert Look(ij, x) == Look(mj, x) == Look(m, x) == Look(mi, x) == Look(ji, x);
      }
    }
    SameMemory(ij, ji);
  }

  lemma {:induction false} SerialIgnores(effect: Effect, m: Memory, n: nat, chosen: set<nat>, k: nat)
    requires n <= k
    ensures Serial(effect, m, n, chosen + {k}) == Serial(effect, m, n, chosen)
  {
    if n > 0 { SerialIgnores(effect, m, n - 1, chosen, k); }
  }

  /** An attempt that conflicts with none of the later ones may as well be run last. */
  lemma {:induction false} RunLast(effect: Effect, m: Memory, log: seq<Attempt>, n: nat, chosen: set<nat>, k: nat)
    requires RespectsLog(effect, log) && k < n <= |log| && k !in chosen
    requires forall j: nat :: k < j < n && j in chosen ==>
      !Conflict(log[k].Access(), log[j].Access())
    ensures Serial(effect, m, n, chosen + {k}) == effect(k, Serial(effect, m, n, chosen))
    decreases n
  {
    if n - 1 == k {
      SerialIgnores(effect, m, k, chosen, k);
    } else {
      RunLast(effect, m, log, n - 1, chosen, k);
      if n - 1 in chosen {
        Commute(effect, k, log[k].Access(), n - 1, log[n - 1].Access(), Serial(effect, m, n - 1, chosen));
      }
    }
  }

  ghost function Executed(s: System): set<nat> {
    set i | i in s.done
  }

  /** Executing one more attempt keeps the accounts at the serial outcome. */
  lemma ExecuteIsSerial(n: nat, s: System, k: nat, effect: Effect, m: Memory)
    requires Inv(s, n) && RespectsLog(effect, s.log) && k < |s.log| && k !in s.done
    requires Replay(effect, m, s.done) == Serial(effect, m, |s.log|, Executed(s))
    ensures Replay(effect, m, s.done + [k]) == Serial(effect, m, |s.log|, Executed(s) + {k})
  {
    assert (s.done + [k])[..|s.done|] == s.done;
    forall j: nat | k < j < |s.log| && j in Executed(s) ensures !s.Clash(k, j) {
      if s.Clash(k, j) { ConflictsInOrder(s, n, k, j); }
    }
    RunLast(effect, m, s.log, |s.log|, Executed(s), k);
  }

  /** Parallel equals serial: in every reachable state, under every interleaving, the accounts are
      what running the executed attempts one at a time in lock order would have made of them. */
  lemma {:induction false} ParallelIsSerial(n: nat, steps: seq<Step>, s: System, effect: Effect, m: Memory)
    requires Reaches(n, steps, s) && RespectsLog(effect, s.log)
    ensures Replay(effect, m, s.done) == Serial(effect, m, |s.log|, Executed(s))
    decreases |steps|
  {
    if steps == [] {
      SerialOfNone(effect, m, 0);
    } else {
      var before := After(n, steps[..|steps| - 1]).value;
      assert forall i: nat :: i < |before.log| ==> before.log[i] == s.log[i];
      ParallelIsSerial(n, steps[..|steps| - 1], before, effect, m);
      ReachableInv(n, steps[..|steps| - 1], before);
      StepIsSerial(n, before, steps[|steps| - 1], effect, m);
    }
  }

  /** Every step keeps the accounts at the serial outcome. */
  lemma StepIsSerial(n: nat, s: System, step: Step, effect: Effect, m: Memory)
    requires Inv(s, n) && Enabled(s, step) && RespectsLog(effect, Apply(s, step).log) && RespectsLog(effect, s.log)
    requires Replay(effect, m, s.done) == Serial(effect, m, |s.log|, Executed(s))
    ensures var s' := Apply(s, step); Replay(effect, m, s'.done) == Serial(effect, m, |s'.log|, Executed(s'))
  {
    var s' := Apply(s, step);
    if step.Execute? {
      ExecuteIsSerial(n, s, step.attempt, effect, m);
      ExecutedNext(s, s', step.attempt);
    } else {
      ExecutedSame(s, s');
      if step.Acquire? {
        assert |s'.log| == |s.log| + 1;
        AcquireIsSerial(n, s, effect, m);
      } else {
        assert s'.log == s.log;
      }
    }
  }

  lemma ExecutedNext(s: System, s': System, k: nat)
    requires s'.done == s.done + [k]
    ensures Executed(s') == Executed(s) + {k}
  {}

  lemma ExecutedSame(s: System, s': System)
    requires s'.done == s.done
    ensures Executed(s') == Executed(s)
  {}

  lemma AcquireIsSerial(n: nat, s: System, effect: Effect, m: Memory)
    requires Inv(s, n)
    ensures Serial(effect, m, |s.log| + 1, Executed(s)) == Serial(effect, m, |s.log|, Executed(s))
  {
    assert |s.log| !in Executed(s);
  }

  lemma {:induction false} SerialOfNone(effect: Effect, m: Memory, n: nat)
    ensures Serial(effect, m, n, {}) == m
  {
    if n > 0 { SerialOfNone(effect, m, n - 1); }
  }

  /** The accounts after running the first `n` attempts one at a time in lock order. */
  function InLockOrder(effect: Effect, m: Memory, n: nat): Memory {
    if n == 0 then m else effect(n - 1, InLockOrder(effect, m, n - 1))
  }

  /** Once everything placed has been executed, the interleaving has left no trace. */
  lemma QuiescentIsSerial(n: nat, steps: seq<Step>, s: System, effect: Effect, m: Memory)
    requires Reaches(n, steps, s) && RespectsLog(effect, s.log)
    requires forall i: nat :: i < |s.log| ==> i in s.done
    ensures Replay(effect, m, s.done) == InLockOrder(effect, m, |s.log|)
  {
    ParallelIsSerial(n, steps, s, effect, m);
    SerialOfAll(effect, m, |s.log|, Executed(s));
  }

  lemma {:induction false} SerialOfAll(effect: Effect, m: Memory, n: nat, chosen: set<nat>)
    requires forall i: nat :: i < n ==> i in chosen
    ensures Serial(effect, m, n, chosen) == InLockOrder(effect, m, n)
  {
    if n > 0 { SerialOfAll(effect, m, n - 1, chosen); }
  }
}
