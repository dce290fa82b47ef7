/** How a pass cuts its work into batches: a pass is a sequence of rounds, and in each of them a worker
    is sent full batches and at most one shorter one, at the end. */
module Rounds {
  import opened Basics
  import opened Messages
  import opened PriorityIds
  import opened PrioGraphs
  import opened Protocol
  import opened Coupling
  import opened Passes

  /** How many of the attempts are on worker `t`. */
  ghost function CountOn(log: seq<Attempt>, t: nat): nat {
    if log == [] then 0
    else CountOn(log[..|log| - 1], t) + if log[|log| - 1].thread == t then 1 else 0
  }

  lemma CountOnNext(log: seq<Attempt>, from: nat, a: Attempt, t: nat)
    requires from <= |log|
    ensures CountOn((log + [a])[from..], t) == CountOn(log[from..], t) + if a.thread == t then 1 else 0
  {
    assert (log + [a])[from..] == log[from..] + [a];
    assert (log[from..] + [a])[..|log[from..]|] == log[from..];
  }

  /** The batches of `t` from `lo` up to `hi` hold 128 transactions each. */
  ghost predicate FullBatches(log: seq<Attempt>, t: nat, lo: nat, hi: int) {
    forall slot: nat :: lo <= slot < hi ==> |SlotItems(log, t, slot)| == 128
  }

  /** All that the round, begun at attempt `from`, put on `t` is in full batches and the open one. */
  ghost predicate Even(log: seq<Attempt>, from: nat, t: nat, lo: nat, hi: nat) {
    && from <= |log| && lo <= hi && FullBatches(log, t, lo, hi)
    && |SlotItems(log, t, hi)| <= 128
    && CountOn(log[from..], t) == 128 * (hi - lo) + |SlotItems(log, t, hi)|
  }

  /** All that the round put on `t` has been sent, in full batches and a shorter one. */
  ghost predicate Short(log: seq<Attempt>, from: nat, t: nat, lo: nat, hi: nat) {
    && from <= |log| && lo < hi && FullBatches(log, t, lo, hi - 1)
    && 0 < |SlotItems(log, t, hi - 1)| < 128 && SlotItems(log, t, hi) == []
    && CountOn(log[from..], t) == 128 * (hi - 1 - lo) + |SlotItems(log, t, hi - 1)|
  }

  ghost predicate RoundOn(log: seq<Attempt>, mark: Mark, tail: seq<nat>, flushing: bool, t: nat)
    requires t < |tail| == |mark.tail|
  {
    || Even(log, mark.logLen, t, mark.tail[t], tail[t])
    || (flushing && Short(log, mark.logLen, t, mark.tail[t], tail[t]))
  }

  /** The round under way. */
  ghost predicate Round(log: seq<Attempt>, mark: Mark, tail: seq<nat>, flushing: bool) {
    && mark.logLen <= |log| && |mark.tail| == |tail|
    && forall t: nat :: t < |tail| ==> RoundOn(log, mark, tail, flushing, t)
  }

  /** What a round that placed the attempts from `from` up to `to` sent to `t`: as few batches as can
      be, all of them full but perhaps the last. */
  ghost predicate Sliced(log: seq<Attempt>, from: nat, to: nat, t: nat, lo: nat, hi: nat) {
    && from <= to <= |log| && lo <= hi
    && hi - lo == (CountOn(log[from..to], t) + 127) / 128
    && FullBatches(log, t, lo, hi - 1)
    && (lo < hi ==> 1 <= |SlotItems(log, t, hi - 1)| <= 128)
  }

  ghost predicate RoundDone(log: seq<Attempt>, mark: Mark, next: Mark) {
    && mark.logLen <= next.logLen <= |log| && |mark.tail| == |next.tail|
    && forall t: nat :: t < |mark.tail| ==> Sliced(log, mark.logLen, next.logLen, t, mark.tail[t], next.tail[t])
  }

  /** Every round but the last is done. */
  ghost predicate RoundsDone(log: seq<Attempt>, marks: seq<Mark>) {
    forall r: nat :: r + 1 < |marks| ==> RoundDone(log, marks[r], marks[r + 1])
  }

  /** No round begins after what has been placed and sent. */
  ghost predicate Behind(log: seq<Attempt>, marks: seq<Mark>, tail: seq<nat>) {
    forall r: nat :: r < |marks| ==>
      && marks[r].logLen <= |log| && |marks[r].tail| == |tail|
      && forall t: nat :: t < |tail| ==> marks[r].tail[t] <= tail[t]
  }

  ghost predicate Batching(s: Start, p: Pass) {
    && p.marks != [] && p.marks[0] == Mark(|s.log|, s.tail)
    && RoundsDone(p.log, p.marks) && Behind(p.log, p.marks, p.tail)
    && Round(p.log, p.marks[|p.marks| - 1], p.tail, p.flushing)
  }

  // ---- Placing ----

  lemma EvenPlace(log: seq<Attempt>, from: nat, t: nat, lo: nat, hi: nat, a: Attempt)
    requires Even(log, from, t, lo, hi) && |SlotItems(log, t, hi)| < 128
    requires a.thread == t ==> a.slot == hi
    ensures Even(log + [a], from, t, lo, hi)
  {
    CountOnNext(log, from, a, t);
    SlotItemsNext(log, a, t, hi);
    forall slot: nat | lo <= slot < hi ensures |SlotItems(log + [a], t, slot)| == 128 {
      SlotItemsNext(log, a, t, slot);
    }
  }

  lemma SlicedPlace(log: seq<Attempt>, from: nat, to: nat, t: nat, lo: nat, hi: nat, a: Attempt)
    requires Sliced(log, from, to, t, lo, hi) && (a.thread == t ==> a.slot >= hi)
    ensures Sliced(log + [a], from, to, t, lo, hi)
  {
    assert (log + [a])[from..to] == log[from..to];
    forall slot: nat | slot < hi ensures SlotItems(log + [a], t, slot) == SlotItems(log, t, slot) {
      SlotItemsNext(log, a, t, slot);
    }
  }

  lemma RoundsPlace(log: seq<Attempt>, marks: seq<Mark>, tail: seq<nat>, a: Attempt)
    requires RoundsDone(log, marks) && Behind(log, marks, tail) && a.thread < |tail| && a.slot == tail[a.thread]
    ensures RoundsDone(log + [a], marks) && Behind(log + [a], marks, tail)
  {
    forall r: nat | r + 1 < |marks| ensures RoundDone(log + [a], marks[r], marks[r + 1]) {
      DonePlace(log, marks[r], marks[r + 1], a);
    }
  }

  lemma DonePlace(log: seq<Attempt>, mark: Mark, next: Mark, a: Attempt)
    requires RoundDone(log, mark, next) && a.thread < |next.tail| && a.slot >= next.tail[a.thread]
    ensures RoundDone(log + [a], mark, next)
  {
    forall t: nat | t < |mark.tail|
      ensures Sliced(log + [a], mark.logLen, next.logLen, t, mark.tail[t], next.tail[t])
    {
      SlicedPlace(log, mark.logLen, next.logLen, t, mark.tail[t], next.tail[t], a);
    }
  }

  lemma RoundPlace(log: seq<Attempt>, mark: Mark, tail: seq<nat>, a: Attempt)
    requires Round(log, mark, tail, false) && NoneFull(log, tail) && a.thread < |tail| && a.slot == tail[a.thread]
    ensures Round(log + [a], mark, tail, false)
  {
    forall t: nat | t < |tail| ensures RoundOn(log + [a], mark, tail, false, t) {
      assert RoundOn(log, mark, tail, false, t);
      EvenPlace(log, mark.logLen, t, mark.tail[t], tail[t], a);
    }
  }

  // ---- Sending ----

  lemma RoundSend(log: seq<Attempt>, mark: Mark, tail: seq<nat>, t: nat)
    requires Round(log, mark, tail, false) && t < |tail| && |SlotItems(log, t, tail[t])| == 128
    requires SlotItems(log, t, tail[t] + 1) == []
    ensures Round(log, mark, AdvancedTail(tail, t), false)
  {
    forall u: nat | u < |tail| ensures RoundOn(log, mark, AdvancedTail(tail, t), false, u) {
      assert RoundOn(log, mark, tail, false, u);
    }
  }

  lemma RoundFlush(log: seq<Attempt>, mark: Mark, tail: seq<nat>, flushing: bool, t: nat)
    requires Round(log, mark, tail, flushing) && t < |tail| && 0 < |SlotItems(log, t, tail[t])| < 128
    requires SlotItems(log, t, tail[t] + 1) == []
    ensures Round(log, mark, AdvancedTail(tail, t), true)
  {
    forall u: nat | u < |tail| ensures RoundOn(log, mark, AdvancedTail(tail, t), true, u) {
      assert RoundOn(log, mark, tail, flushing, u);
    }
  }

  // ---- The next round ----

  lemma EvenSliced(log: seq<Attempt>, from: nat, t: nat, lo: nat, hi: nat)
    requires Even(log, from, t, lo, hi) && SlotItems(log, t, hi) == []
    ensures Sliced(log, from, |log|, t, lo, hi)
  {
    assert log[from..|log|] == log[from..];
  }

  lemma ShortSliced(log: seq<Attempt>, from: nat, t: nat, lo: nat, hi: nat)
    requires Short(log, from, t, lo, hi)
    ensures Sliced(log, from, |log|, t, lo, hi)
  {
    assert log[from..|log|] == log[from..];
  }

  lemma RoundEnds(log: seq<Attempt>, mark: Mark, tail: seq<nat>, flushing: bool)
    requires Round(log, mark, tail, flushing) && NothingOpen(log, tail)
    ensures RoundDone(log, mark, Mark(|log|, tail)) && Round(log, Mark(|log|, tail), tail, false)
  {
    forall t: nat | t < |tail|
      ensures Sliced(log, mark.logLen, |log|, t, mark.tail[t], tail[t])
      ensures RoundOn(log, Mark(|log|, tail), tail, false, t)
    {
      SlotItemsNone(log, t, tail[t]);
      assert RoundOn(log, mark, tail, flushing, t);
      if Even(log, mark.logLen, t, mark.tail[t], tail[t]) {
        EvenSliced(log, mark.logLen, t, mark.tail[t], tail[t]);
      } else {
        ShortSliced(log, mark.logLen, t, mark.tail[t], tail[t]);
      }
      assert log[|log|..] == [];
    }
  }

  // ---- A whole pass ----

  lemma PlaceBatching(s: Start, p: Pass, l: TransactionPriorityId, t: nat)
    requires s.Valid() && Batching(s, p) && Allowed(s, p, PlaceNode(l, t))
    ensures Batching(s, Moved(s, p, PlaceNode(l, t)))
  {
    RoundsPlace(p.log, p.marks, p.tail, NewAttempt(s, p, l, t));
    RoundPlace(p.log, p.marks[|p.marks| - 1], p.tail, NewAttempt(s, p, l, t));
  }

  lemma SendBatching(s: Start, p: Pass, m: Move)
    requires s.Valid() && Batching(s, p) && m.Sending() && Allowed(s, p, m)
    requires OpenBlocks(s, p.log, p.tail, p.who, p.graph.unblocked)
    ensures Batching(s, Moved(s, p, m))
  {
    SlotItemsNone(p.log, m.thread, p.tail[m.thread] + 1);
    if m.SendTo? {
      RoundSend(p.log, p.marks[|p.marks| - 1], p.tail, m.thread);
    } else {
      RoundFlush(p.log, p.marks[|p.marks| - 1], p.tail, p.flushing, m.thread);
    }
  }

  lemma NextBatching(s: Start, p: Pass)
    requires s.Valid() && Batching(s, p) && Allowed(s, p, NextRound)
    ensures Batching(s, Moved(s, p, NextRound))
  {
    var mark, next := p.marks[|p.marks| - 1], Mark(|p.log|, p.tail);
    RoundEnds(p.log, mark, p.tail, p.flushing);
    forall r: nat | r + 1 < |p.marks| + 1 ensures RoundDone(p.log, (p.marks + [next])[r], (p.marks + [next])[r + 1]) {
      if r + 1 < |p.marks| { assert RoundDone(p.log, p.marks[r], p.marks[r + 1]); }
    }
  }

  lemma MoveBatching(s: Start, p: Pass, m: Move)
    requires PassInv(s, p) && Batching(s, p) && Allowed(s, p, m)
    ensures Batching(s, Moved(s, p, m))
  {
    if m.PlaceNode? {
      PlaceBatching(s, p, m.node, m.thread);
    } else if m.Sending() {
      SendBatching(s, p, m);
    } else if m.NextRound? {
      NextBatching(s, p);
    }
  }

  lemma FirstBatching(s: Start)
    requires s.Valid()
    ensures Batching(s, First(s))
  {
    forall t: nat | t < |s.tail| ensures RoundOn(s.log, Mark(|s.log|, s.tail), s.tail, false, t) {
      SlotItemsNone(s.log, t, s.tail[t]);
      assert s.log[|s.log|..] == [];
    }
  }

  /** At every point of every pass, each round that is over sent every worker as few batches as can be,
      and the round under way has sent only full ones, unless it is over too. */
  lemma {:induction false} PassBatching(s: Start, moves: seq<Move>, p: Pass)
    requires s.Valid() && PassAfter(s, moves) == Some(p)
    ensures Batching(s, p)
    decreases |moves|
  {
    if moves == [] {
      FirstBatching(s);
    } else {
      assert PassAfter(s, moves) == WithLastMove(s, moves);
      var before, last := PassAfter(s, moves[..|moves| - 1]).value, moves[|moves| - 1];
      PassBatching(s, moves[..|moves| - 1], before);
      PassAfterInv(s, moves[..|moves| - 1], before);
      MoveBatching(s, before, last);
    }
  }

  // ---- When a batch is sent ----

  lemma {:induction false} PassPrefix(s: Start, moves: seq<Move>, k: nat)
    requires s.Valid() && PassAfter(s, moves).Some? && k <= |moves|
    ensures PassAfter(s, moves[..k]).Some?
    decreases |moves|
  {
    if k == |moves| {
      assert moves[..k] == moves;
    } else {
      assert PassAfter(s, moves) == WithLastMove(s, moves);
      PassPrefix(s, moves[..|moves| - 1], k);
      assert moves[..|moves| - 1][..k] == moves[..k];
    }
  }

  /** The pass just before its k-th move, and that this move was allowed. */
  lemma PassBefore(s: Start, moves: seq<Move>, k: nat) returns (p: Pass)
    requires s.Valid() && PassAfter(s, moves).Some? && k < |moves|
    ensures PassAfter(s, moves[..k]) == Some(p) && Allowed(s, p, moves[k])
    ensures PassAfter(s, moves[..k + 1]) == Some(Moved(s, p, moves[k]))
  {
    PassPrefix(s, moves, k);
    PassPrefix(s, moves, k + 1);
    p := PassAfter(s, moves[..k]).value;
    assert moves[..k + 1][..k] == moves[..k];
    assert PassAfter(s, moves[..k + 1]) == WithLastMove(s, moves[..k + 1]);
  }

  ghost predicate SameRoundUpTo(moves: seq<Move>, k: nat, j: nat)
    requires k <= j <= |moves|
  {
    forall i :: k <= i < j ==> !moves[i].NextRound?
  }

  /** Nothing is waiting to be sent to `t`, in a round that is over. */
  ghost predicate SentAll(p: Pass, t: nat) {
    p.flushing && t < |p.tail| && SlotItems(p.log, t, p.tail[t]) == []
  }

  lemma SentAllMove(s: Start, p: Pass, m: Move, t: nat)
    requires s.Valid() && Allowed(s, p, m) && SentAll(p, t) && !m.NextRound?
    ensures SentAll(Moved(s, p, m), t) && !m.PlaceNode? && (m.Sending() ==> m.thread != t)
  {}

  lemma FlushSendsAll(s: Start, p: Pass, t: nat)
    requires s.Valid() && Allowed(s, p, FlushTo(t)) && OpenBlocks(s, p.log, p.tail, p.who, p.graph.unblocked)
    ensures SentAll(Moved(s, p, FlushTo(t)), t)
  {
    SlotItemsNone(p.log, t, p.tail[t] + 1);
  }

  /** Once a worker's batch was sent short, nothing is placed and nothing more is sent to that worker
      before the next round. */
  lemma {:induction false} FlushedStays(s: Start, moves: seq<Move>, k: nat, j: nat)
    requires s.Valid() && PassAfter(s, moves).Some? && k < j <= |moves|
    requires moves[k].FlushTo? && SameRoundUpTo(moves, k, j)
    ensures PassAfter(s, moves[..j]).Some?
    ensures SentAll(PassAfter(s, moves[..j]).value, moves[k].thread)
    decreases j
  {
    var before := PassBefore(s, moves, j - 1);
    if j == k + 1 {
      PassAfterInv(s, moves[..k], before);
      FlushSendsAll(s, before, moves[k].thread);
    } else {
      FlushedStays(s, moves, k, j - 1);
      SentAllMove(s, before, moves[j - 1], moves[k].thread);
    }
  }

  /** A batch sent between two placements of one round holds exactly 128 transactions. */
  lemma FullBetweenPlacements(s: Start, moves: seq<Move>, k: nat, j: nat)
    requires s.Valid() && PassAfter(s, moves).Some? && k < j < |moves|
    requires moves[k].Sending() && moves[j].PlaceNode? && SameRoundUpTo(moves, k, j)
    ensures PassAfter(s, moves[..k]).Some?
    ensures var q, t := PassAfter(s, moves[..k]).value, moves[k].thread;
      t < |q.tail| && |SlotItems(q.log, t, q.tail[t])| == 128
  {
    var q := PassBefore(s, moves, k);
    var later := PassBefore(s, moves, j);
    if moves[k].FlushTo? {
      FlushedStays(s, moves, k, j);
      SentAllMove(s, later, moves[j], moves[k].thread);
      assert false;
    }
  }

  /** A shorter batch is sent only when its round is over, and it is the last one the round sends to its
      worker. */
  lemma ShortOnlyAtEnd(s: Start, moves: seq<Move>, k: nat)
    requires s.Valid() && PassAfter(s, moves).Some? && k < |moves| && moves[k].Sending()
    ensures PassAfter(s, moves[..k]).Some?
    ensures var q, t := PassAfter(s, moves[..k]).value, moves[k].thread;
      && t < |q.tail| && 1 <= |SlotItems(q.log, t, q.tail[t])| <= 128
      && (|SlotItems(q.log, t, q.tail[t])| < 128 ==>
            && RoundOver(s, q)
            && forall j :: k < j < |moves| && moves[j].Sending() && moves[j].thread == t ==>
                 !SameRoundUpTo(moves, k, j))
  {
    var q := PassBefore(s, moves, k);
    forall j | moves[k].FlushTo? && k < j < |moves| && moves[j].Sending() && moves[j].thread == moves[k].thread
      ensures !SameRoundUpTo(moves, k, j)
    {
      if SameRoundUpTo(moves, k, j) {
        var later := PassBefore(s, moves, j);
        FlushedStays(s, moves, k, j);
        SentAllMove(s, later, moves[j], moves[k].thread);
        assert false;
      }
    }
  }

  // ---- What a pass sends ----

  /** The rounds of a pass at whose end nothing is open, and that end. */
  ghost function Ends(p: Pass): seq<Mark> {
    p.marks + [Mark(|p.log|, p.tail)]
  }

  /** The pass is cut into rounds, each of which sent every worker as few batches as can be. */
  ghost predicate CutIntoRounds(s: Start, p: Pass) {
    Ends(p)[0] == Mark(|s.log|, s.tail) && RoundsDone(p.log, Ends(p))
  }

  lemma PassIsCut(s: Start, moves: seq<Move>, p: Pass)
    requires s.Valid() && PassAfter(s, moves) == Some(p) && NothingOpen(p.log, p.tail)
    ensures CutIntoRounds(s, p)
  {
    PassBatching(s, moves, p);
    RoundEnds(p.log, p.marks[|p.marks| - 1], p.tail, p.flushing);
    forall r: nat | r + 1 < |Ends(p)| ensures RoundDone(p.log, Ends(p)[r], Ends(p)[r + 1]) {
      if r + 1 < |p.marks| { assert RoundDone(p.log, p.marks[r], p.marks[r + 1]); }
    }
  }

  /** A round that places nothing sends nothing. */
  lemma {:induction false} IdleRounds(log: seq<Attempt>, marks: seq<Mark>, i: nat, j: nat)
    requires RoundsDone(log, marks) && i <= j < |marks| && marks[i].logLen == marks[j].logLen
    ensures marks[i].tail == marks[j].tail
    decreases j - i
  {
    if i < j {
      RoundsAdvance(log, marks, i + 1, j);
      assert RoundDone(log, marks[i], marks[i + 1]);
      IdleRounds(log, marks, i + 1, j);
      var from := marks[i].logLen;
      forall t: nat | t < |marks[i].tail| ensures marks[i].tail[t] == marks[i + 1].tail[t] {
        assert Sliced(log, from, marks[i + 1].logLen, t, marks[i].tail[t], marks[i + 1].tail[t]);
        assert log[from..from] == [];
      }
    }
  }

  lemma {:induction false} RoundsAdvance(log: seq<Attempt>, marks: seq<Mark>, i: nat, j: nat)
    requires RoundsDone(log, marks) && 1 <= i <= j < |marks|
    ensures marks[i - 1].logLen <= marks[i].logLen <= marks[j].logLen
    decreases j - i
  {
    assert RoundDone(log, marks[i - 1], marks[i]);
    if i < j { RoundsAdvance(log, marks, i + 1, j); }
  }

  /** When all that a pass placed was placed in one of its rounds, it sent each worker as few batches
      as can be. */
  lemma OneRoundBatches(s: Start, p: Pass, r: nat, t: nat)
    requires CutIntoRounds(s, p) && r + 1 < |Ends(p)| && t < |s.tail|
    requires Ends(p)[r].logLen == |s.log| && Ends(p)[r + 1].logLen == |p.log|
    ensures |s.tail| == |p.tail| && |s.log| <= |p.log|
    ensures p.tail[t] == s.tail[t] + (CountOn(p.log[|s.log|..], t) + 127) / 128
  {
    var ends := Ends(p);
    IdleRounds(p.log, ends, 0, r);
    IdleRounds(p.log, ends, r + 1, |ends| - 1);
    assert RoundDone(p.log, ends[r], ends[r + 1]);
    assert p.log[|s.log|..|p.log|] == p.log[|s.log|..];
  }

  // ---- The order within a round ----

  /** What was placed from `from` up to `to` is in falling order. */
  ghost predicate Falling(who: seq<TransactionPriorityId>, from: nat, to: nat) {
    forall i, j :: from <= i < j < to && j < |who| ==> Less(who[j], who[i])
  }

  /** The rounds before the last placed theirs in falling order, and so far the last one has too: what
      can be popped comes after what it placed. */
  ghost predicate FallingRounds(s: Start, p: Pass) {
    && p.marks != [] && |p.log| == |s.log| + |p.who|
    && (forall r: nat :: r < |p.marks| ==> |s.log| <= p.marks[r].logLen <= |p.log|)
    && (forall r: nat :: r + 1 < |p.marks| ==>
          Falling(p.who, p.marks[r].logLen - |s.log|, p.marks[r + 1].logLen - |s.log|))
    && Falling(p.who, p.marks[|p.marks| - 1].logLen - |s.log|, |p.who|)
    && (forall x, i :: CanPop(p.graph, x) && p.marks[|p.marks| - 1].logLen - |s.log| <= i < |p.who| ==>
          Less(x, p.who[i]))
  }

  lemma NodeFalls(s: Start, p: Pass, m: Move)
    requires s.Valid() && FallingRounds(s, p) && Allowed(s, p, m) && (m.DropNode? || m.BlockNode? || m.PlaceNode?)
    ensures FallingRounds(s, Moved(s, p, m))
  {
    var p' := Moved(s, p, m);
    forall x | CanPop(p'.graph, x) ensures CanPop(p.graph, x) && x != m.node {
      var j: nat :| j < |p'.graph.nodes| && p'.graph.nodes[j] == x && p'.graph.Free(j);
      assert p.graph.Free(j);
    }
  }

  lemma MoveFalls(s: Start, p: Pass, m: Move)
    requires s.Valid() && FallingRounds(s, p) && Allowed(s, p, m)
    ensures FallingRounds(s, Moved(s, p, m))
  {
    if m.DropNode? || m.BlockNode? || m.PlaceNode? {
      NodeFalls(s, p, m);
    }
  }

  /** In every pass, each round places its transactions in falling order of priority. */
  lemma {:induction false} RoundsFall(s: Start, moves: seq<Move>, p: Pass)
    requires s.Valid() && PassAfter(s, moves) == Some(p)
    ensures FallingRounds(s, p)
    decreases |moves|
  {
    if moves != [] {
      assert PassAfter(s, moves) == WithLastMove(s, moves);
      var before, last := PassAfter(s, moves[..|moves| - 1]).value, moves[|moves| - 1];
      RoundsFall(s, moves[..|moves| - 1], before);
      MoveFalls(s, before, last);
    }
  }

  /** Of two transactions placed in one round, the earlier has no lower priority. */
  lemma RoundByPriority(s: Start, moves: seq<Move>, p: Pass, r: nat, i: nat, j: nat)
    requires s.Valid() && PassAfter(s, moves) == Some(p) && r + 1 < |Ends(p)|
    requires Ends(p)[r].logLen <= |s.log| + i < |s.log| + j < Ends(p)[r + 1].logLen
    ensures j < |p.who| && p.who[j].priority <= p.who[i].priority
  {
    RoundsFall(s, moves, p);
    var from, to := Ends(p)[r].logLen - |s.log|, Ends(p)[r + 1].logLen - |s.log|;
    assert Falling(p.who, from, to);
    assert Less(p.who[j], p.who[i]);
  }

  // ---- When no worker has room ----

  lemma {:induction false} WorkGrows(log: seq<Attempt>, n: nat, released: set<(nat, nat)>, t: nat)
    requires n <= |log|
    ensures LiveWork(log[..n], released, t, true) <= LiveWork(log, released, t, true)
    decreases |log|
  {
    if n == |log| {
      assert log[..n] == log;
    } else {
      WorkGrows(log[..|log| - 1], n, released, t);
      assert log[..|log| - 1][..n] == log[..n];
    }
  }

  /** A worker without room gets none before the pass is over. */
  lemma StillNoRoom(s: Start, log: seq<Attempt>, n: nat)
    requires n <= |log| && WithRoom(log[..n], s.released, |s.tail|, s.share) == {}
    ensures WithRoom(log, s.released, |s.tail|, s.share) == {}
  {
    forall t: nat | t < |s.tail| ensures LiveWork(log, s.released, t, true) >= s.share {
      assert t !in WithRoom(log[..n], s.released, |s.tail|, s.share);
      WorkGrows(log, n, s.released, t);
    }
  }

  /** A round that begins when no worker has room places at most one transaction. */
  ghost predicate Sparing(s: Start, log: seq<Attempt>, mark: Mark, end: nat) {
    && mark.logLen <= |log|
    && (WithRoom(log[..mark.logLen], s.released, |s.tail|, s.share) == {} ==> end <= mark.logLen + 1)
  }

  ghost predicate SparingRounds(s: Start, p: Pass) {
    forall r: nat :: r + 1 < |Ends(p)| ==> Sparing(s, p.log, Ends(p)[r], Ends(p)[r + 1].logLen)
  }

  lemma SparingPlace(s: Start, p: Pass, l: TransactionPriorityId, t: nat)
    requires s.Valid() && SparingRounds(s, p) && Allowed(s, p, PlaceNode(l, t))
    ensures SparingRounds(s, Moved(s, p, PlaceNode(l, t)))
  {
    var p' := Moved(s, p, PlaceNode(l, t));
    forall r: nat | r + 1 < |Ends(p')| ensures Sparing(s, p'.log, Ends(p')[r], Ends(p')[r + 1].logLen) {
      assert Sparing(s, p.log, Ends(p)[r], Ends(p)[r + 1].logLen);
      var mark := p.marks[r];
      assert p'.log[..mark.logLen] == p.log[..mark.logLen];
      if r + 1 == |p.marks| && WithRoom(p.log[..mark.logLen], s.released, |s.tail|, s.share) == {} {
        StillNoRoom(s, p.log, mark.logLen);
      }
    }
  }

  lemma SparingMove(s: Start, p: Pass, m: Move)
    requires s.Valid() && SparingRounds(s, p) && Allowed(s, p, m)
    ensures SparingRounds(s, Moved(s, p, m))
  {
    if m.PlaceNode? {
      SparingPlace(s, p, m.node, m.thread);
    } else {
      var p' := Moved(s, p, m);
      forall r: nat | r + 1 < |Ends(p')| ensures Sparing(s, p'.log, Ends(p')[r], Ends(p')[r + 1].logLen) {
        if r + 1 < |Ends(p)| { assert Sparing(s, p.log, Ends(p)[r], Ends(p)[r + 1].logLen); }
      }
    }
  }

  /** Once every worker has its share, each later round of a pass places at most one transaction. */
  lemma {:induction false} FullPlacesOne(s: Start, moves: seq<Move>, p: Pass)
    requires s.Valid() && PassAfter(s, moves) == Some(p)
    ensures SparingRounds(s, p)
    decreases |moves|
  {
    if moves != [] {
      assert PassAfter(s, moves) == WithLastMove(s, moves);
      var before, last := PassAfter(s, moves[..|moves| - 1]).value, moves[|moves| - 1];
      FullPlacesOne(s, moves[..|moves| - 1], before);
      SparingMove(s, before, last);
    }
  }

  // ---- Transactions that do not conflict ----

  /** No two of the waiting transactions conflict. */
  ghost predicate Apart(s: Start)
    requires s.Valid()
  {
    forall x, y :: x in s.queue && y in s.queue && x != y ==> !Conflict(s.Uses(x), s.Uses(y))
  }

  /** Nothing is left for the pass to decide. */
  ghost predicate Exhausted(p: Pass) {
    p.queue == {} && p.chunk == [] && Elems(p.graph.nodes) <= p.graph.popped
  }

  lemma ApartIsStuck(s: Start, p: Pass)
    requires PassInv(s, p) && Apart(s) && Stuck(p.graph) && p.queue == {} && p.chunk == []
    ensures Exhausted(p)
  {
    var g := p.graph;
    forall x | x in Elems(g.nodes) ensures x in g.popped {
      var j: nat :| j < |g.nodes| && g.nodes[j] == x;
      assert g.Free(j);
      assert !CanPop(g, x);
    }
  }

  lemma ExhaustedMove(s: Start, p: Pass, m: Move)
    requires s.Valid() && Exhausted(p) && Allowed(s, p, m)
    ensures Exhausted(Moved(s, p, m)) && Moved(s, p, m).log == p.log
    ensures m.NextRound? || Moved(s, p, m).marks == p.marks
  {}

  /** Once nothing is left to decide, nothing more is placed. */
  lemma {:induction false} ExhaustedStays(s: Start, pre: seq<Move>, q: Pass, moves: seq<Move>, p: Pass)
    requires s.Valid() && PassAfter(s, pre) == Some(q) && Exhausted(q) && pre <= moves
    requires PassAfter(s, moves) == Some(p)
    ensures Exhausted(p) && p.log == q.log && q.marks <= p.marks
    ensures forall r: nat :: |q.marks| <= r < |p.marks| ==> p.marks[r].logLen == |p.log|
    decreases |moves|
  {
    if |moves| == |pre| {
      assert moves == pre;
    } else {
      assert PassAfter(s, moves) == WithLastMove(s, moves);
      var before, last := PassAfter(s, moves[..|moves| - 1]).value, moves[|moves| - 1];
      ExhaustedStays(s, pre, q, moves[..|moves| - 1], before);
      ExhaustedMove(s, before, last);
    }
  }

  /** If no two waiting transactions conflict, all of them were taken into the window before the first
      round, and that round ended because nothing more could be popped, then the whole pass sends every
      worker as few batches as can be. */
  lemma ApartBatches(s: Start, pre: seq<Move>, q: Pass, moves: seq<Move>, p: Pass, t: nat)
    requires s.Valid() && Apart(s) && t < |s.tail|
    requires PassAfter(s, pre) == Some(q) && |q.marks| == 1 && q.queue == {} && q.chunk == [] && Stuck(q.graph)
    requires pre <= moves && PassAfter(s, moves) == Some(p) && NothingOpen(p.log, p.tail)
    ensures |s.tail| == |p.tail| && |s.log| <= |p.log| && p.out.Keys == s.queue
    ensures p.tail[t] == s.tail[t] + (CountOn(p.log[|s.log|..], t) + 127) / 128
  {
    PassAfterInv(s, pre, q);
    ApartIsStuck(s, q);
    ExhaustedStays(s, pre, q, moves, p);
    PassAfterInv(s, moves, p);
    assert Elems(p.chunk) == {};
    PassIsCut(s, moves, p);
    OneRoundBatches(s, p, 0, t);
  }
}
