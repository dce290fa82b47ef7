/** One scheduling pass as a value: what it has taken from the queue, what it decided about each
    transaction, and the invariant its every step keeps. */
module Passes {
  import opened Basics
  import opened Messages
  import opened AccountLocks
  import opened PriorityIds
  import opened Container
  import opened PrioGraphs
  import opened Protocol
  import opened Coupling

  /** What became of a transaction taken from the queue. */
  datatype Outcome =
    | PreFiltered
    | LockFiltered
    | Unschedulable
    | Scheduled(attempt: nat)   // its place in the lock order
  {
    predicate Dropped() {
      PreFiltered? || LockFiltered?
    }
  }

  type Outcomes = map<TransactionPriorityId, Outcome>

  const MAX_TRANSACTIONS_PER_SCHEDULING_PASS: nat := 100_000

  /** What a pass starts from: the container, the attempts so far, the batch next to be sent to each
      worker, the batches whose locks were released, the filters, and the compute units a worker should
      have at most. */
  datatype Start = Start(
    queue: set<TransactionPriorityId>,
    states: States,
    log: seq<Attempt>,
    tail: seq<nat>,
    released: set<(nat, nat)>,
    filter: Transaction -> bool,   // what a transaction must pass before it is given locks
    graphFilter: (seq<Transaction>, nat) -> seq<bool>,   // the answers for a chunk of transactions
    share: nat)
  {
    ghost const logLen: nat := |log|

    /** Waiting transactions are Unprocessed, those in flight Pending, and no batch is open. */
    ghost predicate Valid() {
      && (forall x :: x in queue ==>
            x.id in states && states[x.id].Unprocessed? && states[x.id].priority == x.priority)
      && NothingOpen(log, tail)
      && (forall i: nat :: i < |log| && (log[i].thread, log[i].slot) !in released ==>
            log[i].id in states && states[log[i].id].Pending?)
      && (forall t: nat, slot: nat :: (t, slot) in released ==> t < |tail| && slot < tail[t])
    }

    ghost function Ttl(x: TransactionPriorityId): TransactionTTL
      requires Valid() && x in queue
    {
      states[x.id].transactionTtl
    }

    ghost function Uses(x: TransactionPriorityId): Access
      requires Valid() && x in queue
    {
      AccessOf(Ttl(x).transaction)
    }
  }

  /** Where a round of a pass began: the attempts before it and the batch next to be sent to each worker. */
  datatype Mark = Mark(logLen: nat, tail: seq<nat>)

  datatype Pass = Pass(
    queue: set<TransactionPriorityId>,          // still waiting
    states: States,
    graph: Graph,                               // the look-ahead window
    chunk: seq<TransactionPriorityId>,          // popped from the queue, not yet filtered
    blocking: Access,                           // accounts of the unschedulable
    unschedulable: seq<TransactionPriorityId>,
    log: seq<Attempt>,
    tail: seq<nat>,
    out: Outcomes,
    who: seq<TransactionPriorityId>,            // the transactions placed, in lock order
    marks: seq<Mark>,                           // the rounds so far
    flushing: bool)                             // whether the round is over, and what is left is being sent

  ghost function PreFilteredIn(out: Outcomes): set<TransactionPriorityId> {
    set x | x in out && out[x].PreFiltered?
  }

  /** The window takes the queue from the top, in order. */
  ghost predicate Window(s: Start, queue: set<TransactionPriorityId>, nodes: seq<TransactionPriorityId>,
                         chunk: seq<TransactionPriorityId>)
  {
    && queue <= s.queue
    && (forall x, y :: x in queue && y in s.queue - queue ==> Less(x, y))
    && (forall i, j :: 0 <= i < j < |nodes| ==> Less(nodes[j], nodes[i]))
    && (forall i, j :: 0 <= i < j < |chunk| ==> Less(chunk[j], chunk[i]))
    && (forall x, y :: x in nodes && y in chunk ==> Less(y, x))
  }

  /** What was taken is in the graph, about to be filtered, or filtered out. */
  ghost predicate Split(s: Start, queue: set<TransactionPriorityId>, nodes: seq<TransactionPriorityId>,
                        chunk: seq<TransactionPriorityId>, filtered: set<TransactionPriorityId>)
  {
    && s.queue - queue == Elems(nodes) + Elems(chunk) + filtered
    && Elems(nodes) !! Elems(chunk) !! filtered
  }

  /** Exactly the nodes popped from the graph and the transactions filtered out have an outcome. */
  ghost predicate Decided(s: Start, graph: Graph, out: Outcomes)
    requires s.Valid()
  {
    && graph.Valid()
    && (forall x :: x in graph.nodes ==> x in s.queue && graph.access[x] == s.Uses(x))
    && out.Keys == graph.popped + PreFilteredIn(out)
    && graph.popped !! PreFilteredIn(out)
  }

  /** The container's states are those of the start, less the dropped, with the placed pending. */
  ghost predicate Books(s: Start, states: States, out: Outcomes)
    requires s.Valid()
  {
    && states.Keys <= s.states.Keys
    && (forall id :: id in s.states && !s.states[id].Unprocessed? ==> id in states && states[id] == s.states[id])
    && (forall x :: x in s.queue ==> StateIs(s, states, out, x))
  }

  ghost predicate StateIs(s: Start, states: States, out: Outcomes, x: TransactionPriorityId)
    requires s.Valid() && x in s.queue
  {
    if x in out && out[x].Dropped() then x.id !in states
    else
      && x.id in states
      && states[x.id] ==
         if x in out && out[x].Scheduled? then s.states[x.id].TransitionToPending().0 else s.states[x.id]
  }

  /** The new attempts are exactly the placed transactions. */
  ghost predicate Placed(s: Start, log: seq<Attempt>, who: seq<TransactionPriorityId>, out: Outcomes)
    requires s.Valid()
  {
    && |log| == s.logLen + |who|
    && (forall k: nat :: k < |who| ==> PlacedAt(s, log[s.logLen + k], who[k], out, s.logLen + k))
    && (forall x :: x in out && out[x].Scheduled? ==>
          s.logLen <= out[x].attempt < |log| && who[out[x].attempt - s.logLen] == x)
  }

  ghost predicate PlacedAt(s: Start, a: Attempt, x: TransactionPriorityId, out: Outcomes, k: nat)
    requires s.Valid()
  {
    && x in s.queue && x in out && out[x] == Scheduled(k)
    && a.id == x.id && a.ttl == s.Ttl(x) && a.cost == s.states[x.id].cost
  }

  ghost function UsesAll(s: Start, xs: seq<TransactionPriorityId>): Access
    requires s.Valid() && forall x :: x in xs ==> x in s.queue
  {
    if xs == [] then Access({}, {})
    else UsesAll(s, xs[..|xs| - 1]).Plus(s.Uses(xs[|xs| - 1]))
  }

  /** The blocking set is exactly the accesses of the transactions found unschedulable. */
  ghost predicate Blocked(s: Start, unschedulable: seq<TransactionPriorityId>, blocking: Access, out: Outcomes)
    requires s.Valid()
  {
    && (forall x :: x in unschedulable <==> x in out && out[x].Unschedulable?)
    && (forall x :: x in unschedulable ==> x in s.queue)
    && (forall i, j :: 0 <= i < j < |unschedulable| ==> unschedulable[i] != unschedulable[j])
    && blocking == UsesAll(s, unschedulable)
  }

  /** `l` was placed after `h`, on the same worker, unless `h` was dropped. */
  ghost predicate Follows(log: seq<Attempt>, out: Outcomes, l: TransactionPriorityId, h: TransactionPriorityId)
    requires l in out && out[l].Scheduled?
  {
    && h in out
    && (|| out[h].Dropped()
        || (&& out[h].Scheduled? && out[h].attempt < out[l].attempt < |log|
            && log[out[h].attempt].thread == log[out[l].attempt].thread))
  }

  /** A placed transaction follows every conflicting one of higher priority. */
  ghost predicate ConflictOrder(s: Start, log: seq<Attempt>, out: Outcomes)
    requires s.Valid()
  {
    forall l, h ::
      && l in s.queue && l in out && out[l].Scheduled?
      && h in s.queue && Less(l, h) && Conflict(s.Uses(h), s.Uses(l)) ==>
      Follows(log, out, l, h)
  }

  /** Only this pass has open batches, and what is in them is still blocking its successors. */
  ghost predicate OpenBlocks(s: Start, log: seq<Attempt>, tail: seq<nat>, who: seq<TransactionPriorityId>,
                             unblocked: set<TransactionPriorityId>)
  {
    && s.logLen + |who| == |log|
    && (forall i: nat :: i < |log| ==> log[i].thread < |tail| && log[i].slot <= tail[log[i].thread])
    && (forall i: nat :: i < s.logLen ==> log[i].slot < tail[log[i].thread])
    && (forall k: nat :: k < |who| && log[s.logLen + k].slot == tail[log[s.logLen + k].thread] ==>
          who[k] !in unblocked)
  }

  /** Attempts are only added, each to a batch not sent when the pass began. */
  ghost predicate Grown(s: Start, log: seq<Attempt>, tail: seq<nat>) {
    && s.log <= log
    && |tail| == |s.tail|
    && (forall t: nat :: t < |tail| ==> s.tail[t] <= tail[t])
    && (forall i: nat :: s.logLen <= i < |log| ==> log[i].thread < |s.tail| && s.tail[log[i].thread] <= log[i].slot)
  }

  /** Only what failed a filter is dropped. */
  ghost predicate Sifted(s: Start, out: Outcomes)
    requires s.Valid()
  {
    forall x :: x in out ==>
      && x in s.queue
      && if out[x].PreFiltered? then Answered(s, x, false)
         else out[x].LockFiltered? <==> !s.filter(s.Ttl(x).transaction)
  }

  /** The filter gave `answer` for the transaction, as one of a chunk of at most 128. */
  ghost predicate Answered(s: Start, x: TransactionPriorityId, answer: bool)
    requires s.Valid() && x in s.queue
  {
    exists txs: seq<Transaction>, n: nat, i: nat :: AnswerAt(s, x, txs, n, i, answer)
  }

  ghost predicate AnswerAt(s: Start, x: TransactionPriorityId, txs: seq<Transaction>, n: nat, i: nat, answer: bool)
    requires s.Valid() && x in s.queue
  {
    && i < |txs| <= n <= 128 && txs[i] == s.Ttl(x).transaction
    && i < |s.graphFilter(txs, n)| && s.graphFilter(txs, n)[i] == answer
  }

  /** A filter that turns nothing away. */
  ghost predicate Lenient(f: (seq<Transaction>, nat) -> seq<bool>) {
    forall txs: seq<Transaction>, n: nat, i: nat :: i < |f(txs, n)| ==> f(txs, n)[i]
  }

  /** Only what the filter let through is in the graph. */
  ghost predicate Admitted(s: Start, nodes: seq<TransactionPriorityId>)
    requires s.Valid()
  {
    forall x :: x in nodes ==> x in s.queue && Answered(s, x, true)
  }

  ghost predicate PassInv(s: Start, p: Pass) {
    && s.Valid()
    && Grown(s, p.log, p.tail)
    && Sifted(s, p.out)
    && Admitted(s, p.graph.nodes)
    && Window(s, p.queue, p.graph.nodes, p.chunk)
    && Split(s, p.queue, p.graph.nodes, p.chunk, PreFilteredIn(p.out))
    && Decided(s, p.graph, p.out)
    && Books(s, p.states, p.out)
    && Placed(s, p.log, p.who, p.out)
    && Blocked(s, p.unschedulable, p.blocking, p.out)
    && ConflictOrder(s, p.log, p.out)
    && OpenBlocks(s, p.log, p.tail, p.who, p.graph.unblocked)
  }

  // ---- Filling the window ----

  ghost function Take(p: Pass, x: TransactionPriorityId): Pass {
    p.(queue := p.queue - {x}, chunk := p.chunk + [x])
  }

  lemma WindowTake(s: Start, queue: set<TransactionPriorityId>, nodes: seq<TransactionPriorityId>,
                   chunk: seq<TransactionPriorityId>, filtered: set<TransactionPriorityId>, x: TransactionPriorityId)
    requires Window(s, queue, nodes, chunk) && Split(s, queue, nodes, chunk, filtered) && IsMax(queue, x)
    ensures Window(s, queue - {x}, nodes, chunk + [x]) && Split(s, queue - {x}, nodes, chunk + [x], filtered)
  {
    assert Elems(chunk + [x]) == Elems(chunk) + {x};
    assert s.queue - (queue - {x}) == (s.queue - queue) + {x};
    assert forall y :: y in Elems(nodes) + Elems(chunk) ==> Less(x, y);
  }

  lemma TakeKeeps(s: Start, p: Pass, x: TransactionPriorityId)
    requires PassInv(s, p) && IsMax(p.queue, x)
    ensures PassInv(s, Take(p, x))
  {
    WindowTake(s, p.queue, p.graph.nodes, p.chunk, PreFilteredIn(p.out), x);
  }

  ghost function Admit(s: Start, p: Pass): Pass
    requires s.Valid() && p.chunk != [] && p.chunk[0] in s.queue
  {
    var x := p.chunk[0];
    p.(chunk := p.chunk[1..],
       graph := Inserted(p.graph, x, s.Uses(x)))
  }

  lemma ChunkHead(s: Start, p: Pass)
    requires PassInv(s, p) && p.chunk != []
    ensures p.chunk[0] in s.queue && p.chunk[0] !in p.graph.nodes && p.chunk[0] !in p.out
    ensures p.chunk[0].id in p.states && p.states[p.chunk[0].id] == s.states[p.chunk[0].id]
  {
    assert p.chunk[0] in Elems(p.chunk);
    assert StateIs(s, p.states, p.out, p.chunk[0]);
  }

  lemma WindowAdmit(s: Start, queue: set<TransactionPriorityId>, nodes: seq<TransactionPriorityId>,
                    chunk: seq<TransactionPriorityId>, filtered: set<TransactionPriorityId>)
    requires Window(s, queue, nodes, chunk) && Split(s, queue, nodes, chunk, filtered) && chunk != []
    ensures Window(s, queue, nodes + [chunk[0]], chunk[1..])
    ensures Split(s, queue, nodes + [chunk[0]], chunk[1..], filtered)
  {
    assert chunk == [chunk[0]] + chunk[1..];
    assert Elems(chunk) == Elems(chunk[1..]) + {chunk[0]};
    assert Elems(nodes + [chunk[0]]) == Elems(nodes) + {chunk[0]};
    assert chunk[0] !in Elems(chunk[1..]);
  }

  lemma DecidedAdmit(s: Start, graph: Graph, graph': Graph, out: Outcomes, x: TransactionPriorityId)
    requires s.Valid() && Decided(s, graph, out) && x in s.queue && x !in graph.nodes
    requires graph' == Inserted(graph, x, s.Uses(x))
    requires graph'.Valid()
    ensures Decided(s, graph', out)
  {}

  lemma AdmitKeeps(s: Start, p: Pass)
    requires PassInv(s, p) && p.chunk != [] && p.chunk[0] in s.queue
    requires Admit(s, p).graph.Valid() && Answered(s, p.chunk[0], true)
    ensures PassInv(s, Admit(s, p))
  {
    ChunkHead(s, p);
    WindowAdmit(s, p.queue, p.graph.nodes, p.chunk, PreFilteredIn(p.out));
    DecidedAdmit(s, p.graph, Admit(s, p).graph, p.out, p.chunk[0]);
  }

  ghost function Reject(p: Pass): Pass
    requires p.chunk != []
  {
    var x := p.chunk[0];
    p.(chunk := p.chunk[1..], out := p.out[x := PreFiltered], states := p.states - {x.id})
  }

  lemma RejectKeeps(s: Start, p: Pass)
    requires PassInv(s, p) && p.chunk != [] && p.chunk[0] in s.queue && Answered(s, p.chunk[0], false)
    ensures PassInv(s, Reject(p))
  {
    var x := p.chunk[0];
    ChunkHead(s, p);
    DecidedReject(s, p.graph, p.out, x);
    SplitReject(s, p.queue, p.graph.nodes, p.chunk, PreFilteredIn(p.out));
    RejectRecords(s, p, x);
    SiftedNext(s, p.out, x, PreFiltered);
  }

  lemma DecidedReject(s: Start, graph: Graph, out: Outcomes, x: TransactionPriorityId)
    requires s.Valid() && Decided(s, graph, out) && x !in graph.nodes && x !in out
    ensures Decided(s, graph, out[x := PreFiltered])
    ensures PreFilteredIn(out[x := PreFiltered]) == PreFilteredIn(out) + {x}
  {
    assert PreFilteredIn(out[x := PreFiltered]) == PreFilteredIn(out) + {x};
  }

  lemma RejectRecords(s: Start, p: Pass, x: TransactionPriorityId)
    requires s.Valid() && x in s.queue && x !in p.out && Books(s, p.states, p.out) && Placed(s, p.log, p.who, p.out)
    requires Blocked(s, p.unschedulable, p.blocking, p.out) && ConflictOrder(s, p.log, p.out)
    ensures var out' := p.out[x := PreFiltered];
      && Books(s, p.states - {x.id}, out') && Placed(s, p.log, p.who, out')
      && Blocked(s, p.unschedulable, p.blocking, out') && ConflictOrder(s, p.log, out')
  {
    BooksDrop(s, p.states, p.out, x, PreFiltered);
    PlacedOther(s, p.log, p.who, p.out, x, PreFiltered);
    BlockedOther(s, p.unschedulable, p.blocking, p.out, x, PreFiltered);
    OrderOther(s, p.log, p.out, x, PreFiltered);
  }

  lemma SplitReject(s: Start, queue: set<TransactionPriorityId>, nodes: seq<TransactionPriorityId>,
                    chunk: seq<TransactionPriorityId>, filtered: set<TransactionPriorityId>)
    requires Window(s, queue, nodes, chunk) && Split(s, queue, nodes, chunk, filtered) && chunk != []
    ensures Window(s, queue, nodes, chunk[1..]) && Split(s, queue, nodes, chunk[1..], filtered + {chunk[0]})
  {
    assert chunk == [chunk[0]] + chunk[1..];
    assert Elems(chunk) == Elems(chunk[1..]) + {chunk[0]};
    assert chunk[0] !in Elems(chunk[1..]);
  }

  /** Forgetting the state of a transaction is right when its outcome is to be dropped. */
  lemma BooksDrop(s: Start, states: States, out: Outcomes, x: TransactionPriorityId, o: Outcome)
    requires s.Valid() && Books(s, states, out) && x in s.queue && x !in out && o.Dropped()
    ensures Books(s, states - {x.id}, out[x := o])
  {
    forall y | y in s.queue ensures StateIs(s, states - {x.id}, out[x := o], y) {
      assert StateIs(s, states, out, y);
      if y.id == x.id { assert y == x; }
    }
  }

  lemma PlacedOther(s: Start, log: seq<Attempt>, who: seq<TransactionPriorityId>, out: Outcomes,
                    x: TransactionPriorityId, o: Outcome)
    requires s.Valid() && Placed(s, log, who, out) && x !in out && !o.Scheduled?
    ensures Placed(s, log, who, out[x := o])
  {
    forall k: nat | k < |who| ensures PlacedAt(s, log[s.logLen + k], who[k], out[x := o], s.logLen + k) {
      assert PlacedAt(s, log[s.logLen + k], who[k], out, s.logLen + k);
    }
  }

  lemma BlockedOther(s: Start, unschedulable: seq<TransactionPriorityId>, blocking: Access, out: Outcomes,
                     x: TransactionPriorityId, o: Outcome)
    requires s.Valid() && Blocked(s, unschedulable, blocking, out) && x !in out && !o.Unschedulable?
    ensures Blocked(s, unschedulable, blocking, out[x := o])
  {}

  /** An outcome other than a placement adds nothing to order. */
  lemma OrderOther(s: Start, log: seq<Attempt>, out: Outcomes, x: TransactionPriorityId, o: Outcome)
    requires s.Valid() && ConflictOrder(s, log, out) && x !in out && !o.Scheduled?
    ensures ConflictOrder(s, log, out[x := o])
  {
    forall l, h |
      && l in s.queue && l in out[x := o] && out[x := o][l].Scheduled?
      && h in s.queue && Less(l, h) && Conflict(s.Uses(h), s.Uses(l))
      ensures Follows(log, out[x := o], l, h)
    {
      assert Follows(log, out, l, h);
    }
  }

  // ---- Deciding about a node ----

  lemma NodeFacts(s: Start, p: Pass, l: TransactionPriorityId)
    requires PassInv(s, p) && p.graph.Poppable(l)
    ensures l in s.queue && l in p.graph.nodes && l !in p.out
    ensures l.id in p.states && p.states[l.id] == s.states[l.id]
  {
    assert l in Elems(p.graph.nodes);
    assert StateIs(s, p.states, p.out, l);
  }

  lemma DecidedPop(s: Start, graph: Graph, out: Outcomes, l: TransactionPriorityId, o: Outcome)
    requires s.Valid() && Decided(s, graph, out) && graph.Poppable(l) && l !in out && !o.PreFiltered?
    ensures Decided(s, Popped(graph, l), out[l := o])
    ensures PreFilteredIn(out[l := o]) == PreFilteredIn(out)
  {
    MarkPopped(graph, l);
    assert PreFilteredIn(out[l := o]) == PreFilteredIn(out);
  }

  ghost function PopDrop(p: Pass, l: TransactionPriorityId): Pass {
    p.(graph := Popped(p.graph, l), out := p.out[l := LockFiltered], states := p.states - {l.id})
  }

  lemma PopDropKeeps(s: Start, p: Pass, l: TransactionPriorityId)
    requires PassInv(s, p) && p.graph.Poppable(l) && l in s.queue && !s.filter(s.Ttl(l).transaction)
    ensures PassInv(s, PopDrop(p, l))
  {
    NodeFacts(s, p, l);
    DecidedPop(s, p.graph, p.out, l, LockFiltered);
    BooksDrop(s, p.states, p.out, l, LockFiltered);
    PlacedOther(s, p.log, p.who, p.out, l, LockFiltered);
    BlockedOther(s, p.unschedulable, p.blocking, p.out, l, LockFiltered);
    OrderOther(s, p.log, p.out, l, LockFiltered);
    SiftedNext(s, p.out, l, LockFiltered);
  }

  ghost function PopBlock(s: Start, p: Pass, l: TransactionPriorityId): Pass
    requires s.Valid() && l in s.queue
  {
    p.(graph := Popped(p.graph, l), out := p.out[l := Unschedulable],
       unschedulable := p.unschedulable + [l], blocking := p.blocking.Plus(s.Uses(l)))
  }

  lemma PopBlockKeeps(s: Start, p: Pass, l: TransactionPriorityId)
    requires PassInv(s, p) && p.graph.Poppable(l) && l in s.queue && s.filter(s.Ttl(l).transaction)
    ensures PassInv(s, PopBlock(s, p, l))
  {
    NodeFacts(s, p, l);
    DecidedPop(s, p.graph, p.out, l, Unschedulable);
    BooksOther(s, p.states, p.out, l);
    PlacedOther(s, p.log, p.who, p.out, l, Unschedulable);
    BlockedBlock(s, p.unschedulable, p.blocking, p.out, l);
    OrderOther(s, p.log, p.out, l, Unschedulable);
    SiftedNext(s, p.out, l, Unschedulable);
  }

  lemma BooksOther(s: Start, states: States, out: Outcomes, x: TransactionPriorityId)
    requires s.Valid() && Books(s, states, out) && x in s.queue && x !in out
    ensures Books(s, states, out[x := Unschedulable])
  {
    forall y | y in s.queue ensures StateIs(s, states, out[x := Unschedulable], y) {
      assert StateIs(s, states, out, y);
    }
  }

  lemma BlockedBlock(s: Start, unschedulable: seq<TransactionPriorityId>, blocking: Access, out: Outcomes,
                     x: TransactionPriorityId)
    requires s.Valid() && Blocked(s, unschedulable, blocking, out) && x !in out && x in s.queue
    ensures Blocked(s, unschedulable + [x], blocking.Plus(s.Uses(x)), out[x := Unschedulable])
  {
    UsesAllNext(s, unschedulable, x);
    forall y ensures y in unschedulable + [x] <==> y in unschedulable || y == x {}
  }

  lemma UsesAllNext(s: Start, xs: seq<TransactionPriorityId>, x: TransactionPriorityId)
    requires s.Valid() && x in s.queue && forall y :: y in xs ==> y in s.queue
    ensures forall y :: y in xs + [x] ==> y in s.queue
    ensures UsesAll(s, xs + [x]) == UsesAll(s, xs).Plus(s.Uses(x))
  {
    assert (xs + [x])[..|xs|] == xs;
  }

  /** The blocking set covers each transaction in it. */
  lemma {:induction false} BlockingCovers(s: Start, xs: seq<TransactionPriorityId>, x: TransactionPriorityId)
    requires s.Valid() && (forall y :: y in xs ==> y in s.queue) && x in xs
    ensures s.Uses(x).readSet <= UsesAll(s, xs).readSet && s.Uses(x).writeSet <= UsesAll(s, xs).writeSet
  {
    if x != xs[|xs| - 1] { BlockingCovers(s, xs[..|xs| - 1], x); }
  }

  ghost function NewAttempt(s: Start, p: Pass, l: TransactionPriorityId, t: nat): Attempt
    requires s.Valid() && l in s.queue && t < |p.tail|
  {
    Attempt(l.id, s.Ttl(l), s.states[l.id].cost, t, p.tail[t])
  }

  ghost function PopPlace(s: Start, p: Pass, l: TransactionPriorityId, t: nat): Pass
    requires s.Valid() && l in s.queue && t < |p.tail|
  {
    p.(graph := Popped(p.graph, l), out := p.out[l := Scheduled(|p.log|)],
       states := p.states[l.id := s.states[l.id].TransitionToPending().0],
       log := p.log + [NewAttempt(s, p, l, t)], who := p.who + [l])
  }

  /** What is still in an open batch does not conflict with a node that can be popped. */
  lemma OpenIsFree(s: Start, p: Pass, l: TransactionPriorityId, i: nat)
    requires PassInv(s, p) && p.graph.Poppable(l) && l in s.queue
    requires i < |p.log| && p.log[i].slot == p.tail[p.log[i].thread]
    ensures !Conflict(p.log[i].Access(), s.Uses(l))
  {
    NodeFacts(s, p, l);
    var x := p.who[i - s.logLen];
    assert PlacedAt(s, p.log[s.logLen + (i - s.logLen)], x, p.out, i);
    assert x in p.graph.popped && x !in p.graph.unblocked;
    NotAhead(p.graph, l, x);
  }

  lemma NotAhead(g: Graph, l: TransactionPriorityId, x: TransactionPriorityId)
    requires g.Valid() && g.Poppable(l) && x in g.popped && x !in g.unblocked
    ensures l in g.access && x in g.access && !Conflict(g.access[x], g.access[l])
  {
    var b: nat :| b < |g.nodes| && g.nodes[b] == l && g.Free(b);
    assert x in Elems(g.nodes);
    var a: nat :| a < |g.nodes| && g.nodes[a] == x;
    assert g.Free(a);
    ConflictSymmetric(g.access[x], g.access[l]);
  }

  lemma ConflictSymmetric(a: Access, b: Access)
    ensures Conflict(a, b) == Conflict(b, a)
  {}

  /** Everything of higher priority that conflicts with a poppable node has been dealt with. */
  lemma HigherIsDecided(s: Start, p: Pass, l: TransactionPriorityId, h: TransactionPriorityId)
    requires PassInv(s, p) && p.graph.Poppable(l) && l in s.queue
    requires h in s.queue && Less(l, h) && Conflict(s.Uses(h), s.Uses(l))
    ensures h in p.out
  {
    HigherIsTaken(s, p.queue, p.graph.nodes, p.chunk, PreFilteredIn(p.out), l, h);
    if h in p.graph.nodes {
      HigherIsUnblocked(p.graph, l, h);
    }
  }

  lemma HigherIsTaken(s: Start, queue: set<TransactionPriorityId>, nodes: seq<TransactionPriorityId>,
                      chunk: seq<TransactionPriorityId>, filtered: set<TransactionPriorityId>,
                      l: TransactionPriorityId, h: TransactionPriorityId)
    requires Window(s, queue, nodes, chunk) && Split(s, queue, nodes, chunk, filtered)
    requires l in nodes && h in s.queue && Less(l, h)
    ensures h in nodes || h in filtered
  {
    assert l in s.queue - queue;
    assert h in s.queue - queue;
    assert h in Elems(nodes) + Elems(chunk) + filtered;
  }

  lemma HigherIsUnblocked(g: Graph, l: TransactionPriorityId, h: TransactionPriorityId)
    requires g.Valid() && g.Poppable(l) && h in g.nodes && l in g.nodes && Less(l, h)
    requires forall i, j :: 0 <= i < j < |g.nodes| ==> Less(g.nodes[j], g.nodes[i])
    requires Conflict(g.access[h], g.access[l])
    ensures h in g.popped
  {
    var b: nat :| b < |g.nodes| && g.nodes[b] == l && g.Free(b);
    var a: nat :| a < |g.nodes| && g.nodes[a] == h;
  }

  lemma PopPlaceKeeps(s: Start, p: Pass, l: TransactionPriorityId, t: nat)
    requires PassInv(s, p) && p.graph.Poppable(l) && l in s.queue && t < |p.tail| && s.filter(s.Ttl(l).transaction)
    requires !Conflict(p.blocking, s.Uses(l))
    requires RivalsOn(s, p.log, l, t)
    ensures PassInv(s, PopPlace(s, p, l, t))
  {
    GrownPlace(s, p.log, p.tail, NewAttempt(s, p, l, t));
    NodeFacts(s, p, l);
    var o := Scheduled(|p.log|);
    DecidedPop(s, p.graph, p.out, l, o);
    BooksPlace(s, p.states, p.out, l, |p.log|);
    PlacedPlace(s, p.log, p.who, p.out, l, NewAttempt(s, p, l, t));
    BlockedOther(s, p.unschedulable, p.blocking, p.out, l, o);
    OrderPlace(s, p, l, t);
    SiftedNext(s, p.out, l, o);
    OpenPlace(s, p.log, p.tail, p.who, p.graph.unblocked, NewAttempt(s, p, l, t), l);
  }

  lemma GrownPlace(s: Start, log: seq<Attempt>, tail: seq<nat>, a: Attempt)
    requires Grown(s, log, tail) && a.thread < |tail| && a.slot == tail[a.thread]
    ensures Grown(s, log + [a], tail)
  {}

  lemma SiftedNext(s: Start, out: Outcomes, x: TransactionPriorityId, o: Outcome)
    requires s.Valid() && Sifted(s, out) && x in s.queue
    requires if o.PreFiltered? then Answered(s, x, false)
      else o.LockFiltered? <==> !s.filter(s.Ttl(x).transaction)
    ensures Sifted(s, out[x := o])
  {}

  lemma BooksPlace(s: Start, states: States, out: Outcomes, x: TransactionPriorityId, k: nat)
    requires s.Valid() && Books(s, states, out) && x in s.queue && x !in out
    ensures Books(s, states[x.id := s.states[x.id].TransitionToPending().0], out[x := Scheduled(k)])
  {
    var states', out' := states[x.id := s.states[x.id].TransitionToPending().0], out[x := Scheduled(k)];
    forall y | y in s.queue ensures StateIs(s, states', out', y) {
      assert StateIs(s, states, out, y);
      if y.id == x.id { assert y == x; }
    }
    assert StateIs(s, states, out, x);
  }

  lemma PlacedPlace(s: Start, log: seq<Attempt>, who: seq<TransactionPriorityId>, out: Outcomes,
                    x: TransactionPriorityId, a: Attempt)
    requires s.Valid() && Placed(s, log, who, out) && x in s.queue && x !in out
    requires a.id == x.id && a.ttl == s.Ttl(x) && a.cost == s.states[x.id].cost
    ensures Placed(s, log + [a], who + [x], out[x := Scheduled(|log|)])
  {
    var out' := out[x := Scheduled(|log|)];
    forall k: nat | k < |who| + 1 ensures PlacedAt(s, (log + [a])[s.logLen + k], (who + [x])[k], out', s.logLen + k) {
      if k < |who| { assert PlacedAt(s, log[s.logLen + k], who[k], out, s.logLen + k); }
    }
  }

  lemma OpenPlace(s: Start, log: seq<Attempt>, tail: seq<nat>, who: seq<TransactionPriorityId>,
                  unblocked: set<TransactionPriorityId>, a: Attempt, l: TransactionPriorityId)
    requires OpenBlocks(s, log, tail, who, unblocked) && l !in unblocked
    requires a.thread < |tail| && a.slot == tail[a.thread]
    ensures OpenBlocks(s, log + [a], tail, who + [l], unblocked)
  {}

  lemma OrderPlace(s: Start, p: Pass, l: TransactionPriorityId, t: nat)
    requires PassInv(s, p) && p.graph.Poppable(l) && l in s.queue && t < |p.tail| && l !in p.out
    requires !Conflict(p.blocking, s.Uses(l))
    requires RivalsOn(s, p.log, l, t)
    ensures ConflictOrder(s, p.log + [NewAttempt(s, p, l, t)], p.out[l := Scheduled(|p.log|)])
  {
    var log', out' := p.log + [NewAttempt(s, p, l, t)], p.out[l := Scheduled(|p.log|)];
    forall x, h |
      && x in s.queue && x in out' && out'[x].Scheduled?
      && h in s.queue && Less(x, h) && Conflict(s.Uses(h), s.Uses(x))
      ensures Follows(log', out', x, h)
    {
      if x == l {
        HigherIsDecided(s, p, l, h);
        PlacedFollows(s, p, l, t, h);
      } else {
        assert Follows(p.log, p.out, x, h);
      }
    }
  }

  lemma PlacedFollows(s: Start, p: Pass, l: TransactionPriorityId, t: nat, h: TransactionPriorityId)
    requires s.Valid() && l in s.queue && t < |p.tail| && l !in p.out && h in s.queue && h in p.out
    requires Blocked(s, p.unschedulable, p.blocking, p.out) && Placed(s, p.log, p.who, p.out)
    requires !Conflict(p.blocking, s.Uses(l)) && Conflict(s.Uses(h), s.Uses(l))
    requires RivalsOn(s, p.log, l, t)
    ensures Follows(p.log + [NewAttempt(s, p, l, t)], p.out[l := Scheduled(|p.log|)], l, h)
  {
    match p.out[h]
    case Unschedulable =>
      BlockingCovers(s, p.unschedulable, h);
      assert false;
    case Scheduled(j) =>
      assert PlacedAt(s, p.log[s.logLen + (j - s.logLen)], p.who[j - s.logLen], p.out, j);
    case _ =>
  }

  // ---- Sending and unblocking ----

  lemma SendPass(s: Start, p: Pass, t: nat)
    requires PassInv(s, p) && t < |p.tail|
    ensures PassInv(s, p.(tail := AdvancedTail(p.tail, t)))
  {
    OpenSend(s, p.log, p.tail, p.who, p.graph.unblocked, t);
  }

  lemma OpenSend(s: Start, log: seq<Attempt>, tail: seq<nat>, who: seq<TransactionPriorityId>,
                 unblocked: set<TransactionPriorityId>, t: nat)
    requires OpenBlocks(s, log, tail, who, unblocked) && Grown(s, log, tail) && t < |tail|
    ensures OpenBlocks(s, log, AdvancedTail(tail, t), who, unblocked) && Grown(s, log, AdvancedTail(tail, t))
  {}

  ghost predicate NothingOpen(log: seq<Attempt>, tail: seq<nat>) {
    forall i: nat :: i < |log| ==> log[i].thread < |tail| && log[i].slot < tail[log[i].thread]
  }

  lemma UnblockKeeps(s: Start, p: Pass, graph': Graph)
    requires PassInv(s, p) && NothingOpen(p.log, p.tail)
    requires graph'.nodes == p.graph.nodes && graph'.access == p.graph.access && graph'.popped == p.graph.popped
    requires graph'.Valid()
    ensures PassInv(s, p.(graph := graph'))
  {
    assert Decided(s, graph', p.out);
  }

  // ---- The end of a pass ----

  /** The transactions that leave the queue for good: placed or dropped. */
  ghost function Gone(out: Outcomes): set<TransactionPriorityId> {
    set x | x in out && !out[x].Unschedulable?
  }

  ghost function PlacedIds(who: seq<TransactionPriorityId>): set<TransactionId> {
    set x | x in who :: x.id
  }

  /** Putting back the unschedulable and the undecided leaves exactly what was not placed or dropped. */
  lemma RequeuedIsRest(s: Start, p: Pass)
    requires PassInv(s, p) && p.chunk == []
    ensures p.queue + Elems(p.unschedulable) + p.graph.Unpopped() == s.queue - Gone(p.out)
    ensures p.queue !! Elems(p.unschedulable) !! p.graph.Unpopped()
  {
    var back := p.queue + Elems(p.unschedulable) + p.graph.Unpopped();
    assert Elems(p.chunk) == {};
    forall x | x in s.queue ensures x in back <==> x !in Gone(p.out) {
      if x !in p.queue {
        assert x in s.queue - p.queue;
        assert x in Elems(p.graph.nodes) || x in PreFilteredIn(p.out);
      } else {
        assert x !in s.queue - p.queue;
      }
    }
    forall x | x in back ensures x in s.queue {
      if x in p.graph.Unpopped() { assert x in Elems(p.graph.nodes); }
    }
    forall x | x in Elems(p.unschedulable) ensures x !in p.queue && x !in p.graph.Unpopped() {
      assert x in p.graph.popped;
      assert x in Elems(p.graph.nodes);
    }
    forall x | x in p.graph.Unpopped() ensures x !in p.queue {
      assert x in Elems(p.graph.nodes);
    }
  }

  /** The container's books are in order after the pass: the placed are now in flight. */
  lemma EndTracks(s: Start, p: Pass, inFlight: set<TransactionId>)
    requires s.Valid() && Books(s, p.states, p.out) && Placed(s, p.log, p.who, p.out)
    requires Tracks(s.states, s.queue, inFlight)
    ensures Tracks(p.states, s.queue - Gone(p.out), inFlight + PlacedIds(p.who))
  {
    var rest := s.queue - Gone(p.out);
    forall id | id in p.states
      ensures if p.states[id].Unprocessed? then TransactionPriorityId(p.states[id].priority, id) in rest
              else p.states[id].Pending? && id in inFlight + PlacedIds(p.who)
    {
      if s.states[id].Unprocessed? {
        var x := TransactionPriorityId(s.states[id].priority, id);
        assert StateIs(s, p.states, p.out, x);
        if x in p.out && p.out[x].Scheduled? {
          assert x in p.who;
        }
      }
    }
    forall x | x in rest
      ensures x.id in p.states && p.states[x.id].Unprocessed? && p.states[x.id].priority == x.priority
    {
      assert StateIs(s, p.states, p.out, x);
    }
    forall x | x in p.who ensures x.id in p.states && p.states[x.id].Pending? {
      var k :| 0 <= k < |p.who| && p.who[k] == x;
      assert PlacedAt(s, p.log[s.logLen + k], p.who[k], p.out, s.logLen + k);
      assert StateIs(s, p.states, p.out, x);
    }
  }

  /** A pass leaves priority and cost alone. */
  lemma BooksKeepTerms(s: Start, states: States, out: Outcomes, inFlight: set<TransactionId>)
    requires s.Valid() && Books(s, states, out) && Tracks(s.states, s.queue, inFlight)
    ensures SameTerms(s.states, states)
  {
    forall id | id in states
      ensures id in s.states && !s.states[id].Transitioning? && !states[id].Transitioning?
      ensures states[id].priority == s.states[id].priority && states[id].cost == s.states[id].cost
    {
      if s.states[id].Unprocessed? {
        assert StateIs(s, states, out, TransactionPriorityId(s.states[id].priority, id));
      }
    }
  }

  lemma {:induction false} DistinctFit(xs: seq<TransactionPriorityId>, all: set<TransactionPriorityId>)
    requires forall i, j :: 0 <= i < j < |xs| ==> xs[i] != xs[j]
    requires forall x :: x in xs ==> x in all
    ensures |xs| <= |all|
  {
    if xs != [] {
      DistinctFit(xs[1..], all - {xs[0]});
    }
  }

  /** No more is placed than was waiting. */
  lemma PlacedFit(s: Start, log: seq<Attempt>, who: seq<TransactionPriorityId>, out: Outcomes)
    requires s.Valid() && Placed(s, log, who, out)
    ensures |who| <= |s.queue|
  {
    forall i, j | 0 <= i < j < |who| ensures who[i] != who[j] {
      assert PlacedAt(s, log[s.logLen + i], who[i], out, s.logLen + i);
      assert PlacedAt(s, log[s.logLen + j], who[j], out, s.logLen + j);
    }
    forall x | x in who ensures x in s.queue {
      var k :| 0 <= k < |who| && who[k] == x;
      assert PlacedAt(s, log[s.logLen + k], who[k], out, s.logLen + k);
    }
    DistinctFit(who, s.queue);
  }

  // ---- A whole pass ----

  datatype Move =
    | TakeTop(top: TransactionPriorityId)
    | AdmitFirst(chunk: seq<Transaction>, size: nat, at: nat)    // given what the filter answered there
    | RejectFirst(chunk: seq<Transaction>, size: nat, at: nat)
    | DropNode(node: TransactionPriorityId)
    | BlockNode(node: TransactionPriorityId)
    | PlaceNode(node: TransactionPriorityId, thread: nat)
    | SendTo(thread: nat)      // a full batch
    | FlushTo(thread: nat)     // what a batch holds at the end of a round
    | NextRound
    | UnblockNode(node: TransactionPriorityId)
  {
    predicate Sending() {
      SendTo? || FlushTo?
    }
  }

  /** Every attempt of this pass that conflicts with `l` is on `t`. */
  ghost predicate RivalsOn(s: Start, log: seq<Attempt>, l: TransactionPriorityId, t: nat)
    requires s.Valid() && l in s.queue
  {
    forall i: nat :: s.logLen <= i < |log| && Conflict(log[i].Access(), s.Uses(l)) ==> log[i].thread == t
  }

  /** No worker could take the locks of `l` beside those in flight. */
  ghost predicate Unlockable(s: Start, log: seq<Attempt>, l: TransactionPriorityId)
    requires s.Valid() && l in s.queue
  {
    forall t: nat :: t < |s.tail| ==> !Exclusive(LiveHolds(log, s.released) + TxHolds(s.Ttl(l).transaction, t))
  }

  /** The workers with less than their share of compute units placed on them and not yet back. */
  ghost function WithRoom(log: seq<Attempt>, released: set<(nat, nat)>, n: nat, share: nat): set<nat> {
    set t: nat | t < n && LiveWork(log, released, t, true) < share
  }

  /** A round stops when the pass has placed all it may, or after a placement that leaves no worker
      with room. */
  ghost predicate Halted(s: Start, p: Pass) {
    || |p.who| >= MAX_TRANSACTIONS_PER_SCHEDULING_PASS
    || (&& p.marks != [] && p.marks[|p.marks| - 1].logLen < |p.log|
        && WithRoom(p.log, s.released, |s.tail|, s.share) == {})
  }

  ghost predicate RoundOver(s: Start, p: Pass) {
    Stuck(p.graph) || Halted(s, p)
  }

  ghost predicate NoneFull(log: seq<Attempt>, tail: seq<nat>) {
    forall t: nat :: t < |tail| ==> |SlotItems(log, t, tail[t])| < TARGET_NUM_TRANSACTIONS_PER_BATCH
  }

  /** Nothing has been placed in the round yet. */
  ghost predicate Quiet(p: Pass) {
    p.marks != [] && p.marks[|p.marks| - 1].logLen == |p.log|
  }

  /** The round goes on, and every full batch has been sent. */
  ghost predicate Working(s: Start, p: Pass) {
    !p.flushing && !Halted(s, p) && NoneFull(p.log, p.tail)
  }

  ghost predicate Allowed(s: Start, p: Pass, m: Move)
    requires s.Valid()
  {
    match m
    case TakeTop(x) => Quiet(p) && IsMax(p.queue, x)
    case AdmitFirst(txs, n, i) =>
      Quiet(p) && p.chunk != [] && p.chunk[0] in s.queue && AnswerAt(s, p.chunk[0], txs, n, i, true)
    case RejectFirst(txs, n, i) =>
      Quiet(p) && p.chunk != [] && p.chunk[0] in s.queue && AnswerAt(s, p.chunk[0], txs, n, i, false)
    case DropNode(l) => Working(s, p) && Foremost(p.graph, l) && l in s.queue && !s.filter(s.Ttl(l).transaction)
    case BlockNode(l) =>
      && Working(s, p) && Foremost(p.graph, l) && l in s.queue && s.filter(s.Ttl(l).transaction)
      && (Conflict(p.blocking, s.Uses(l)) || Unlockable(s, p.log, l))
    case PlaceNode(l, t) =>
      && Working(s, p) && Foremost(p.graph, l) && l in s.queue && t < |p.tail| && s.filter(s.Ttl(l).transaction)
      && !Conflict(p.blocking, s.Uses(l))
      && RivalsOn(s, p.log, l, t)
    case SendTo(t) =>
      !p.flushing && t < |p.tail| && |SlotItems(p.log, t, p.tail[t])| == TARGET_NUM_TRANSACTIONS_PER_BATCH
    case FlushTo(t) =>
      && RoundOver(s, p) && t < |p.tail|
      && 0 < |SlotItems(p.log, t, p.tail[t])| < TARGET_NUM_TRANSACTIONS_PER_BATCH
    case NextRound => RoundOver(s, p) && NothingOpen(p.log, p.tail)
    case UnblockNode(l) => Quiet(p) && NothingOpen(p.log, p.tail) && l in p.graph.popped
  }

  ghost function Moved(s: Start, p: Pass, m: Move): Pass
    requires s.Valid() && Allowed(s, p, m)
  {
    match m
    case TakeTop(x) => Take(p, x)
    case AdmitFirst(_, _, _) => Admit(s, p)
    case RejectFirst(_, _, _) => Reject(p)
    case DropNode(l) => PopDrop(p, l)
    case BlockNode(l) => PopBlock(s, p, l)
    case PlaceNode(l, t) => PopPlace(s, p, l, t)
    case SendTo(t) => p.(tail := AdvancedTail(p.tail, t))
    case FlushTo(t) => p.(tail := AdvancedTail(p.tail, t), flushing := true)
    case NextRound => p.(marks := p.marks + [Mark(|p.log|, p.tail)], flushing := false)
    case UnblockNode(l) => p.(graph := Unblocked(p.graph, l))
  }

  ghost function First(s: Start): Pass {
    Pass(s.queue, s.states, Graph([], map[], {}, {}), [], Access({}, {}), [], s.log, s.tail, map[], [],
         [Mark(|s.log|, s.tail)], false)
  }

  /** The pass after these moves, if each of them was allowed in turn. */
  ghost function PassAfter(s: Start, moves: seq<Move>): Option<Pass>
    requires s.Valid()
    decreases |moves|, 1
  {
    if moves == [] then Some(First(s)) else WithLastMove(s, moves)
  }

  ghost function WithLastMove(s: Start, moves: seq<Move>): Option<Pass>
    requires s.Valid() && moves != []
    decreases |moves|, 0
  {
    var before := PassAfter(s, moves[..|moves| - 1]);
    var last := moves[|moves| - 1];
    if before.Some? && Allowed(s, before.value, last) then Some(Moved(s, before.value, last)) else None
  }

  lemma PassNext(s: Start, moves: seq<Move>, p: Pass, m: Move)
    requires s.Valid() && PassAfter(s, moves) == Some(p) && Allowed(s, p, m)
    ensures PassAfter(s, moves + [m]) == Some(Moved(s, p, m))
  {
    assert (moves + [m])[..|moves + [m]| - 1] == moves;
    assert PassAfter(s, moves + [m]) == WithLastMove(s, moves + [m]);
  }

  lemma FirstInv(s: Start)
    requires s.Valid()
    ensures PassInv(s, First(s))
  {}

  lemma WindowMoveKeeps(s: Start, p: Pass, m: Move)
    requires PassInv(s, p) && Allowed(s, p, m) && (m.TakeTop? || m.AdmitFirst? || m.RejectFirst?)
    ensures PassInv(s, Moved(s, p, m))
  {
    match m
    case TakeTop(x) => TakeKeeps(s, p, x);
    case AdmitFirst(_, _, _) =>
      ChunkHead(s, p);
      InsertKeeps(p.graph, p.chunk[0], s.Uses(p.chunk[0]));
      AdmitKeeps(s, p);
    case RejectFirst(_, _, _) => RejectKeeps(s, p);
  }

  lemma NodeMoveKeeps(s: Start, p: Pass, m: Move)
    requires PassInv(s, p) && Allowed(s, p, m) && (m.DropNode? || m.BlockNode? || m.PlaceNode?)
    ensures PassInv(s, Moved(s, p, m))
  {
    match m
    case DropNode(l) => PopDropKeeps(s, p, l);
    case BlockNode(l) => PopBlockKeeps(s, p, l);
    case PlaceNode(l, t) => PopPlaceKeeps(s, p, l, t);
  }

  lemma OtherMoveKeeps(s: Start, p: Pass, m: Move)
    requires PassInv(s, p) && Allowed(s, p, m) && (m.Sending() || m.NextRound? || m.UnblockNode?)
    ensures PassInv(s, Moved(s, p, m))
  {
    match m
    case SendTo(t) => SendPass(s, p, t);
    case FlushTo(t) => SendPass(s, p, t);
    case NextRound =>
    case UnblockNode(l) =>
      MarkUnblocked(p.graph, l);
      UnblockKeeps(s, p, Unblocked(p.graph, l));
  }

  lemma MovedKeeps(s: Start, p: Pass, m: Move)
    requires PassInv(s, p) && Allowed(s, p, m)
    ensures PassInv(s, Moved(s, p, m))
  {
    if m.TakeTop? || m.AdmitFirst? || m.RejectFirst? {
      WindowMoveKeeps(s, p, m);
    } else if m.Sending() || m.NextRound? || m.UnblockNode? {
      OtherMoveKeeps(s, p, m);
    } else {
      NodeMoveKeeps(s, p, m);
    }
  }

  /** The invariant holds at every point of every pass. */
  lemma {:induction false} PassAfterInv(s: Start, moves: seq<Move>, p: Pass)
    requires s.Valid() && PassAfter(s, moves) == Some(p)
    ensures PassInv(s, p)
    decreases |moves|
  {
    if moves == [] {
      FirstInv(s);
    } else {
      assert PassAfter(s, moves) == WithLastMove(s, moves);
      var before := PassAfter(s, moves[..|moves| - 1]).value;
      PassAfterInv(s, moves[..|moves| - 1], before);
      MovedKeeps(s, before, moves[|moves| - 1]);
    }
  }

  ghost function Sends(moves: seq<Move>): nat {
    if moves == [] then 0 else Sends(moves[..|moves| - 1]) + if moves[|moves| - 1].Sending() then 1 else 0
  }

  lemma SendCounts(s: Start, p: Pass, m: Move)
    requires s.Valid() && Allowed(s, p, m)
    ensures SentCount(p.log, p.tail) + (if m.Sending() then 1 else 0) <=
      SentCount(Moved(s, p, m).log, Moved(s, p, m).tail)
  {
    if m.Sending() {
      SentCountSend(p.log, p.tail, m.thread);
    } else if m.PlaceNode? {
      SentCountNext(p.log, p.tail, NewAttempt(s, p, m.node, m.thread));
    }
  }

  /** Every batch sent carries at least one of the attempts of the pass. */
  lemma {:induction false} SendsAreFew(s: Start, moves: seq<Move>, p: Pass)
    requires s.Valid() && PassAfter(s, moves) == Some(p)
    ensures |s.log| + Sends(moves) <= SentCount(p.log, p.tail)
    decreases |moves|
  {
    if moves == [] {
      SentCountAll(s.log, s.tail);
    } else {
      assert PassAfter(s, moves) == WithLastMove(s, moves);
      var before := PassAfter(s, moves[..|moves| - 1]).value;
      var last := moves[|moves| - 1];
      SendsAreFew(s, moves[..|moves| - 1], before);
      SendCounts(s, before, last);
    }
  }

  /** While a batch is open, fewer batches were sent than transactions were waiting. */
  lemma SendRoom(s: Start, moves: seq<Move>, p: Pass, t: nat)
    requires s.Valid() && PassAfter(s, moves) == Some(p) && t < |p.tail| && SlotItems(p.log, t, p.tail[t]) != []
    ensures Sends(moves) < |s.queue|
  {
    PassAfterInv(s, moves, p);
    SendsAreFew(s, moves, p);
    SentCountSend(p.log, p.tail, t);
    PlacedFit(s, p.log, p.who, p.out);
  }

  // ---- Passes one after another ----

  /** A pass that has ended, and what it began from. */
  datatype Turn = Turn(start: Start, pass: Pass)

  /** Each pass began where the one before it ended, and the last one left `log`. The definition is in
      three steps so that the verifier leaves it folded where it is only passed on. */
  ghost predicate Chained(turns: seq<Turn>, log: seq<Attempt>)
    decreases |turns|, 2
  {
    if turns == [] then log == [] else ChainedOn(turns, log)
  }

  ghost predicate ChainedOn(turns: seq<Turn>, log: seq<Attempt>)
    requires turns != []
    decreases |turns|, 1
  {
    WithLastTurn(turns, log)
  }

  ghost predicate WithLastTurn(turns: seq<Turn>, log: seq<Attempt>)
    requires turns != []
    decreases |turns|, 0
  {
    var last := turns[|turns| - 1];
    PassInv(last.start, last.pass) && last.pass.log == log && Chained(turns[..|turns| - 1], last.start.log)
  }

  lemma ChainedNext(turns: seq<Turn>, s: Start, p: Pass)
    requires Chained(turns, s.log) && PassInv(s, p)
    ensures Chained(turns + [Turn(s, p)], p.log)
  {
    var all := turns + [Turn(s, p)];
    assert all[..|turns|] == turns;
    assert Chained(all, p.log) == ChainedOn(all, p.log) == WithLastTurn(all, p.log);
  }
}
