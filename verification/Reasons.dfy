/** Why a pass leaves a transaction waiting, and why it can leave nothing else. */
module Reasons {
  import opened Basics
  import opened Messages
  import opened AccountLocks
  import opened PriorityIds
  import opened PrioGraphs
  import opened Protocol
  import opened Coupling
  import opened Passes

  /** `h` has the higher priority and conflicts with `l`. */
  ghost predicate Precedes(s: Start, h: TransactionPriorityId, l: TransactionPriorityId)
    requires s.Valid() && l in s.queue
  {
    h in s.queue && Less(l, h) && Conflict(s.Uses(h), s.Uses(l))
  }

  /** No worker can take the locks of `l`, or it must let another one that waits go first. */
  ghost predicate HeldBack(s: Start, log: seq<Attempt>, unschedulable: seq<TransactionPriorityId>,
                           l: TransactionPriorityId)
    requires s.Valid() && l in s.queue
  {
    Unlockable(s, log, l) || exists h :: h in unschedulable && Precedes(s, h, l)
  }

  ghost predicate Justified(s: Start, log: seq<Attempt>, unschedulable: seq<TransactionPriorityId>)
    requires s.Valid()
  {
    forall l :: l in unschedulable ==> l in s.queue && HeldBack(s, log, unschedulable, l)
  }

  lemma ExclusiveLess(a: multiset<Hold>, b: multiset<Hold>, c: multiset<Hold>)
    requires a <= b && Exclusive(b + c)
    ensures Exclusive(a + c)
  {}

  lemma LiveHoldsGrow(log: seq<Attempt>, released: set<(nat, nat)>, a: Attempt)
    ensures LiveHolds(log, released) <= LiveHolds(log + [a], released)
  {
    assert (log + [a])[..|log|] == log;
  }

  /** Placing more frees no locks. */
  lemma StillUnlockable(s: Start, log: seq<Attempt>, a: Attempt, l: TransactionPriorityId)
    requires s.Valid() && l in s.queue && Unlockable(s, log, l)
    ensures Unlockable(s, log + [a], l)
  {
    LiveHoldsGrow(log, s.released, a);
    forall t: nat | t < |s.tail|
      ensures !Exclusive(LiveHolds(log + [a], s.released) + TxHolds(s.Ttl(l).transaction, t))
    {
      if Exclusive(LiveHolds(log + [a], s.released) + TxHolds(s.Ttl(l).transaction, t)) {
        ExclusiveLess(LiveHolds(log, s.released), LiveHolds(log + [a], s.released), TxHolds(s.Ttl(l).transaction, t));
      }
    }
  }

  lemma {:induction false} ConflictWithOne(s: Start, xs: seq<TransactionPriorityId>, u: Access)
    returns (h: TransactionPriorityId)
    requires s.Valid() && (forall x :: x in xs ==> x in s.queue) && Conflict(UsesAll(s, xs), u)
    ensures h in xs && Conflict(s.Uses(h), u)
  {
    h := xs[|xs| - 1];
    if !Conflict(s.Uses(h), u) {
      h := ConflictWithOne(s, xs[..|xs| - 1], u);
    }
  }

  /** A conflicting pair is decided by falling priority. */
  lemma EarlierIsHigher(s: Start, p: Pass, l: TransactionPriorityId, h: TransactionPriorityId)
    requires PassInv(s, p) && CanPop(p.graph, l) && l in s.queue
    requires h in p.graph.popped && h in s.queue && Conflict(s.Uses(h), s.Uses(l))
    ensures Less(l, h)
  {
    var g := p.graph;
    var i: nat :| i < |g.nodes| && g.nodes[i] == l;
    assert h in Elems(g.nodes);
    var j: nat :| j < |g.nodes| && g.nodes[j] == h;
    assert g.Free(j);
    ConflictSymmetric(s.Uses(h), s.Uses(l));
    assert i != j;
    assert !(i < j);
  }

  lemma BlockerIsHigher(s: Start, p: Pass, l: TransactionPriorityId) returns (h: TransactionPriorityId)
    requires PassInv(s, p) && CanPop(p.graph, l) && l in s.queue && Conflict(p.blocking, s.Uses(l))
    ensures h in p.unschedulable && Precedes(s, h, l)
  {
    h := ConflictWithOne(s, p.unschedulable, s.Uses(l));
    EarlierIsHigher(s, p, l, h);
  }

  lemma BlockJustified(s: Start, p: Pass, l: TransactionPriorityId)
    requires PassInv(s, p) && Allowed(s, p, BlockNode(l)) && Justified(s, p.log, p.unschedulable)
    ensures Justified(s, p.log, p.unschedulable + [l])
  {
    var all := p.unschedulable + [l];
    forall x | x in all ensures x in s.queue && HeldBack(s, p.log, all, x) {
      if x in p.unschedulable {
        assert HeldBack(s, p.log, p.unschedulable, x);
        if h :| h in p.unschedulable && Precedes(s, h, x) {
          assert h in all;
        }
      } else if !Unlockable(s, p.log, l) {
        var h := BlockerIsHigher(s, p, l);
        assert h in all;
      }
    }
  }

  lemma PlaceJustified(s: Start, log: seq<Attempt>, a: Attempt, unschedulable: seq<TransactionPriorityId>)
    requires s.Valid() && Justified(s, log, unschedulable)
    ensures Justified(s, log + [a], unschedulable)
  {
    forall l | l in unschedulable ensures l in s.queue && HeldBack(s, log + [a], unschedulable, l) {
      assert HeldBack(s, log, unschedulable, l);
      if Unlockable(s, log, l) { StillUnlockable(s, log, a, l); }
    }
  }

  lemma MoveJustified(s: Start, p: Pass, m: Move)
    requires PassInv(s, p) && Allowed(s, p, m) && Justified(s, p.log, p.unschedulable)
    ensures Justified(s, Moved(s, p, m).log, Moved(s, p, m).unschedulable)
  {
    if m.BlockNode? {
      BlockJustified(s, p, m.node);
    } else if m.PlaceNode? {
      PlaceJustified(s, p.log, NewAttempt(s, p, m.node, m.thread), p.unschedulable);
    }
  }

  /** At every point of every pass, whatever was found unschedulable is held back for a reason. */
  lemma {:induction false} PassJustified(s: Start, moves: seq<Move>, p: Pass)
    requires s.Valid() && PassAfter(s, moves) == Some(p)
    ensures Justified(s, p.log, p.unschedulable)
    decreases |moves|
  {
    if moves != [] {
      assert PassAfter(s, moves) == WithLastMove(s, moves);
      var before, last := PassAfter(s, moves[..|moves| - 1]).value, moves[|moves| - 1];
      PassJustified(s, moves[..|moves| - 1], before);
      PassAfterInv(s, moves[..|moves| - 1], before);
      MoveJustified(s, before, last);
    }
  }

  /** Of the transactions found unschedulable, the one of the highest priority cannot be locked. */
  lemma TopIsUnlockable(s: Start, log: seq<Attempt>, unschedulable: seq<TransactionPriorityId>)
    returns (top: TransactionPriorityId)
    requires s.Valid() && Justified(s, log, unschedulable) && unschedulable != []
    ensures IsMax(Elems(unschedulable), top) && top in s.queue && Unlockable(s, log, top)
  {
    assert unschedulable[0] in Elems(unschedulable);
    top := MaxExists(Elems(unschedulable));
    assert HeldBack(s, log, unschedulable, top);
    assert forall h :: h in unschedulable && h != top ==> Less(h, top);
  }

  // ---- What is turned away ----

  /** The filter looks at one transaction at a time. */
  ghost predicate Pointwise(f: (seq<Transaction>, nat) -> seq<bool>, g: Transaction -> bool) {
    forall txs: seq<Transaction>, n: nat, i: nat :: i < |f(txs, n)| && i < |txs| ==> f(txs, n)[i] == g(txs[i])
  }

  /** A transaction is turned away before the graph if and only if the pre-graph filter refuses it, and
      after the graph if and only if the pre-lock filter does. */
  lemma DroppedExactly(s: Start, p: Pass, g: Transaction -> bool, x: TransactionPriorityId)
    requires PassInv(s, p) && Pointwise(s.graphFilter, g) && x in p.out
    ensures x in s.queue
    ensures p.out[x].PreFiltered? <==> !g(s.Ttl(x).transaction)
    ensures p.out[x].LockFiltered? <==> g(s.Ttl(x).transaction) && !s.filter(s.Ttl(x).transaction)
  {
    if !p.out[x].PreFiltered? {
      assert x in p.graph.popped && x in Elems(p.graph.nodes);
      assert Answered(s, x, true);
    }
  }

  // ---- Nothing else is left ----

  lemma {:induction false} NoLiveNoHolds(log: seq<Attempt>, released: set<(nat, nat)>)
    requires LiveIds(log, released) == {}
    ensures LiveHolds(log, released) == multiset{}
  {
    if log != [] {
      var init, last := log[..|log| - 1], log[|log| - 1];
      forall id | id in LiveIds(init, released) ensures id in LiveIds(log, released) {
        var i: nat :| i < |init| && (init[i].thread, init[i].slot) !in released && init[i].id == id;
        assert log[i] == init[i];
      }
      assert (last.thread, last.slot) !in released ==> last.id in LiveIds(log, released);
      NoLiveNoHolds(init, released);
    }
  }

  lemma AloneIsExclusive(tx: Transaction, t: nat)
    ensures Exclusive(TxHolds(tx, t))
  {
    KeyHoldsOnThread(WriteKeys(tx.accounts), Write, t);
    KeyHoldsOnThread(ReadKeys(tx.accounts), Read, t);
  }

  /** What cannot be locked is kept out by something in flight. */
  lemma UnlockableIsBusy(s: Start, log: seq<Attempt>, l: TransactionPriorityId)
    requires s.Valid() && l in s.queue && Unlockable(s, log, l) && |s.tail| > 0
    ensures LiveIds(log, s.released) != {}
  {
    var tx := s.Ttl(l).transaction;
    AloneIsExclusive(tx, 0);
    assert multiset{} + TxHolds(tx, 0) == TxHolds(tx, 0);
    if LiveIds(log, s.released) == {} {
      NoLiveNoHolds(log, s.released);
      assert false;
    }
  }
}
