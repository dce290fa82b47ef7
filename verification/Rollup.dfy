/** The rollup example: a runner derives L2 blocks from L1 blocks at once, a batcher posts what was
    produced to a data-availability layer, and what comes back from there is produced again unless
    it was executed before. */
module Rollup {
  import opened Basics

  /** An attribute is identified by the L1 height it derives from and its sequence number there. */
  datatype Key = Key(height: nat, sequence: nat)

  predicate Before(a: Key, b: Key) {
    a.height < b.height || (a.height == b.height && a.sequence < b.sequence)
  }

  predicate AtMost(a: Key, b: Key) {
    a == b || Before(a, b)
  }

  datatype Attribute = Attribute(key: Key, transactions: seq<nat>)

  // ---- The node as a machine of small steps ----

  datatype State = State(
    head: Option<nat>,               // the L1 height derived from
    sequence: nat,                   // a byte
    channel: seq<Attribute>,         // produced, on the way to the batcher
    cache: seq<Attribute>,           // with the batcher
    nextBatch: seq<Attribute>,
    posted: seq<seq<Attribute>>,     // batches on the way back
    cached: seq<Attribute>,          // back from the data-availability layer; taken from the end
    ledger: map<nat, Key>,           // the L2 blocks by height
    attempts: seq<Key>,              // every attribute given to the producer
    idle: nat,                       // advances since the head without a new L1 block
    worst: nat,                      // the most there ever were
    sent: seq<Attribute>,            // every attribute ever sent to the batcher
    arrived: seq<Attribute>,         // every attribute that ever came back
    taken: seq<Attribute>)           // those of them the runner has taken

  datatype Step =
    | NewL1Block(height: nat, deposits: seq<nat>, transactions: seq<nat>, ok: bool)
    | Idle(transactions: seq<nat>, ok: bool)
    | NextFromDa(transactions: seq<nat>, ok: bool)
    | ReceiveTx
    | SendBatch
    | UpdateDa

  function Initial(): State {
    State(None, 0, [], [], [], [], [], map[], [], 0, 0, [], [], [])
  }

  function NextByte(n: nat): nat {
    (n + 1) % (U8_MAX + 1)
  }

  /** An attribute at or before the current position counts as executed. */
  predicate HasExecuted(head: Option<nat>, sequence: nat, a: Attribute) {
    head.Some? && (head.value > a.key.height || sequence >= a.key.sequence)
  }

  /** The height of the last block, 0 if there is none. */
  ghost predicate IsLatest(ledger: map<nat, Key>, h: nat) {
    (ledger == map[] ==> h == 0) && (ledger != map[] ==> h in ledger) && forall k :: k in ledger ==> k <= h
  }

  ghost function Latest(ledger: map<nat, Key>): (h: nat)
    ensures IsLatest(ledger, h)
  {
    LatestExists(ledger);
    var h :| IsLatest(ledger, h);
    h
  }

  lemma {:induction false} LatestExists(ledger: map<nat, Key>)
    ensures exists h :: IsLatest(ledger, h)
    decreases |ledger|
  {
    if ledger == map[] {
      assert IsLatest(ledger, 0);
    } else {
      var k :| k in ledger;
      LatestExists(ledger - {k});
      var h :| IsLatest(ledger - {k}, h);
      assert forall x :: x in ledger ==> x == k || x in ledger - {k};
      assert IsLatest(ledger, if h > k then h else k);
    }
  }

  lemma LatestUnique(ledger: map<nat, Key>, h: nat)
    requires IsLatest(ledger, h)
    ensures h == Latest(ledger)
  {}

  /** Producing a block: if it succeeds the attribute goes to the batcher and the block to the ledger. */
  ghost function Produced(s: State, a: Attribute, ok: bool): State {
    var tried := s.(attempts := s.attempts + [a.key]);
    if ok then
      tried.(channel := s.channel + [a], sent := s.sent + [a], ledger := s.ledger[Latest(s.ledger) + 1 := a.key])
    else tried
  }

  /** L1 heights rise. */
  ghost predicate Enabled(s: State, step: Step) {
    step.NewL1Block? && s.head.Some? ==> step.height > s.head.value
  }

  function WithHead(s: State, h: nat): State {
    s.(head := Some(h), sequence := 0, idle := 0)
  }

  function OnceMore(s: State): State {
    s.(sequence := NextByte(s.sequence), idle := s.idle + 1, worst := Max(s.worst, s.idle + 1))
  }

  function Taken(s: State): State
    requires s.cached != []
  {
    s.(cached := s.cached[..|s.cached| - 1], taken := s.taken + [s.cached[|s.cached| - 1]])
  }

  ghost function Apply(s: State, step: Step): State {
    match step
    case NewL1Block(h, deposits, txs, ok) => Produced(WithHead(s, h), Attribute(Key(h, 0), deposits + txs), ok)
    case Idle(txs, ok) =>
      if s.head.None? then s
      else Produced(OnceMore(s), Attribute(Key(s.head.value, NextByte(s.sequence)), txs), ok)
    case NextFromDa(txs, ok) =>
      if s.cached == [] then s
      else
        var a := s.cached[|s.cached| - 1];
        if HasExecuted(s.head, s.sequence, a) then Taken(s)
        else Produced(Taken(s), Attribute(a.key, a.transactions + txs), ok)
    case ReceiveTx =>
      if s.channel == [] then s else s.(cache := s.cache + [s.channel[0]], channel := s.channel[1..])
    case SendBatch =>
      s.(posted := if s.nextBatch != [] then s.posted + [s.nextBatch] else s.posted, nextBatch := s.cache, cache := [])
    case UpdateDa =>
      if s.posted == [] then s
      else s.(cached := s.cached + s.posted[0], arrived := s.arrived + s.posted[0], posted := s.posted[1..])
  }

  ghost function After(steps: seq<Step>): Option<State>
    decreases |steps|
  {
    if steps == [] then Some(Initial())
    else
      var before := After(steps[..|steps| - 1]);
      var last := steps[|steps| - 1];
      if before.Some? && Enabled(before.value, last) then Some(Apply(before.value, last)) else None
  }

  // ---- What holds while no head is idle for too long ----

  ghost predicate AllAtMost(attributes: seq<Attribute>, k: Key) {
    forall i :: 0 <= i < |attributes| ==> AtMost(attributes[i].key, k)
  }

  ghost predicate BatchesAtMost(batches: seq<seq<Attribute>>, k: Key) {
    forall i :: 0 <= i < |batches| ==> AllAtMost(batches[i], k)
  }

  ghost predicate NothingYet(s: State) {
    && s.ledger == map[] && s.channel == [] && s.cache == [] && s.nextBatch == [] && s.posted == [] && s.cached == []
    && s.attempts == [] && s.idle == 0 && s.worst == 0 && s.sent == []
  }

  /** Every attribute anywhere in the node is at or before the current position. */
  ghost predicate Bounded(s: State, k: Key) {
    && AllAtMost(s.channel, k) && AllAtMost(s.cache, k) && AllAtMost(s.nextBatch, k) && AllAtMost(s.cached, k)
    && BatchesAtMost(s.posted, k)
  }

  ghost predicate Rising(attempts: seq<Key>) {
    forall i, j :: 0 <= i < j < |attempts| ==> Before(attempts[i], attempts[j])
  }

  /** The attempts rise up to the current position, and began this head with sequence number 0. */
  ghost predicate Attempted(attempts: seq<Key>, k: Key) {
    && Rising(attempts)
    && (forall i :: 0 <= i < |attempts| ==> AtMost(attempts[i], k))
    && Key(k.height, 0) in attempts
  }

  /** The blocks were derived in the order of their heights. */
  ghost predicate InOrder(ledger: map<nat, Key>, k: Key) {
    && (forall h :: h in ledger ==> AtMost(ledger[h], k))
    && (forall g, h :: g in ledger && h in ledger && g < h ==> Before(ledger[g], ledger[h]))
  }

  ghost predicate Inv(s: State) {
    s.worst <= U8_MAX ==>
      if s.head.None? then NothingYet(s)
      else
        var k := Key(s.head.value, s.sequence);
        && s.sequence == s.idle <= s.worst && Bounded(s, k) && Attempted(s.attempts, k) && InOrder(s.ledger, k)
        && SentRising(s.sent, k)
  }

  /** What was sent rises up to the current position. */
  ghost predicate SentRising(sent: seq<Attribute>, k: Key) {
    && AllAtMost(sent, k)
    && forall i, j :: 0 <= i < j < |sent| ==> Before(sent[i].key, sent[j].key)
  }

  lemma SentNext(sent: seq<Attribute>, k: Key, a: Attribute)
    requires SentRising(sent, k) && Before(k, a.key)
    ensures SentRising(sent, a.key) && SentRising(sent + [a], a.key)
  {
    Raise(sent, k, a.key);
  }

  lemma Raise(attributes: seq<Attribute>, k: Key, k': Key)
    requires AllAtMost(attributes, k) && AtMost(k, k')
    ensures AllAtMost(attributes, k')
  {}

  lemma RaiseAll(s: State, k: Key, k': Key)
    requires Bounded(s, k) && AtMost(k, k')
    ensures Bounded(s, k')
  {
    Raise(s.channel, k, k');
    Raise(s.cache, k, k');
    Raise(s.nextBatch, k, k');
    Raise(s.cached, k, k');
    forall i | 0 <= i < |s.posted| ensures AllAtMost(s.posted[i], k') { Raise(s.posted[i], k, k'); }
  }

  /** A new attempt beyond all others. */
  lemma AttemptNext(attempts: seq<Key>, k: Key, k': Key)
    requires Attempted(attempts, k) && Before(k, k') && (k'.height == k.height || k'.sequence == 0)
    ensures Attempted(attempts + [k'], k')
  {
    assert (attempts + [k'])[|attempts|] == k';
    assert Key(k.height, 0) in attempts + [k'];
  }

  /** A new block derived from beyond all others. */
  lemma OrderNext(ledger: map<nat, Key>, k: Key, k': Key)
    requires InOrder(ledger, k) && Before(k, k')
    ensures InOrder(ledger, k') && InOrder(ledger[Latest(ledger) + 1 := k'], k')
  {}

  lemma FirstAttempt(k: Key)
    requires k.sequence == 0
    ensures Attempted([k], k)
  {
    assert [k][0] == k;
  }

  lemma NewBlockKeeps(s: State, step: Step)
    requires Inv(s) && Enabled(s, step) && step.NewL1Block?
    ensures Inv(Apply(s, step))
  {
    var k' := Key(step.height, 0);
    if s.worst <= U8_MAX {
      if s.head.Some? {
        var k := Key(s.head.value, s.sequence);
        RaiseAll(s, k, k');
        AttemptNext(s.attempts, k, k');
        OrderNext(s.ledger, k, k');
        SentNext(s.sent, k, Attribute(k', step.deposits + step.transactions));
      } else {
        FirstAttempt(k');
        assert s.attempts + [k'] == [k'];
      }
    }
  }

  lemma IdleKeeps(s: State, step: Step)
    requires Inv(s) && step.Idle?
    ensures Inv(Apply(s, step))
  {
    if s.head.Some? && Max(s.worst, s.idle + 1) <= U8_MAX {
      var k, k' := Key(s.head.value, s.sequence), Key(s.head.value, s.sequence + 1);
      assert NextByte(s.sequence) == s.sequence + 1;
      RaiseAll(s, k, k');
      AttemptNext(s.attempts, k, k');
      OrderNext(s.ledger, k, k');
      SentNext(s.sent, k, Attribute(k', step.transactions));
    }
  }

  /** What comes back was executed, so nothing is produced again. */
  lemma ComesBackExecuted(s: State)
    requires Inv(s) && s.worst <= U8_MAX && s.cached != []
    ensures HasExecuted(s.head, s.sequence, s.cached[|s.cached| - 1])
  {
    var a := s.cached[|s.cached| - 1];
    assert AtMost(a.key, Key(s.head.value, s.sequence));
  }

  lemma PipelineKeeps(s: State, step: Step)
    requires Inv(s) && !step.NewL1Block? && !step.Idle?
    ensures Inv(Apply(s, step))
  {
    if s.worst <= U8_MAX && s.head.Some? {
      match step
      case NextFromDa(_, _) => if s.cached != [] { ComesBackExecuted(s); }
      case UpdateDa =>
        if s.posted != [] { assert AllAtMost(s.posted[0], Key(s.head.value, s.sequence)); }
      case _ =>
    }
  }

  lemma StepKeeps(s: State, step: Step)
    requires Inv(s) && Enabled(s, step)
    ensures Inv(Apply(s, step))
  {
    if step.NewL1Block? {
      NewBlockKeeps(s, step);
    } else if step.Idle? {
      IdleKeeps(s, step);
    } else {
      PipelineKeeps(s, step);
    }
  }

  lemma {:induction false} ReachableInv(steps: seq<Step>)
    requires After(steps).Some?
    ensures Inv(After(steps).value)
    decreases |steps|
  {
    if steps != [] {
      ReachableInv(steps[..|steps| - 1]);
      StepKeeps(After(steps[..|steps| - 1]).value, steps[|steps| - 1]);
    }
  }

  // ---- At most once, exactly while sequence numbers last ----

  ghost predicate Distinct(attempts: seq<Key>) {
    forall i, j :: 0 <= i < j < |attempts| ==> attempts[i] != attempts[j]
  }

  /** After 256 advances without a new L1 block the sequence number starts over. */
  lemma OverflowRepeats(s: State, step: Step)
    requires Inv(s) && s.worst <= U8_MAX && Apply(s, step).worst > U8_MAX
    ensures !Distinct(Apply(s, step).attempts)
  {
    var k := Key(s.head.value, 0);
    var i :| 0 <= i < |s.attempts| && s.attempts[i] == k;
    var attempts := Apply(s, step).attempts;
    assert attempts[i] == k && attempts[|s.attempts|] == k;
  }

  lemma {:induction false} AttemptsGrow(s: State, step: Step)
    ensures s.attempts <= Apply(s, step).attempts && s.worst <= Apply(s, step).worst
  {}

  lemma {:induction false} TooIdleRepeats(steps: seq<Step>)
    requires After(steps).Some? && After(steps).value.worst > U8_MAX
    ensures !Distinct(After(steps).value.attempts)
    decreases |steps|
  {
    var init := steps[..|steps| - 1];
    var before, last := After(init).value, steps[|steps| - 1];
    AttemptsGrow(before, last);
    ReachableInv(init);
    if before.worst > U8_MAX {
      TooIdleRepeats(init);
      var i, j :| 0 <= i < j < |before.attempts| && before.attempts[i] == before.attempts[j];
      assert After(steps).value.attempts[i] == After(steps).value.attempts[j];
    } else {
      OverflowRepeats(before, last);
    }
  }

  /** No attribute is given to the producer twice exactly when no L1 head sees more than 255
      advances without a new L1 block. */
  lemma AtMostOnceExactly(steps: seq<Step>)
    requires After(steps).Some?
    ensures Distinct(After(steps).value.attempts) <==> After(steps).value.worst <= U8_MAX
  {
    ReachableInv(steps);
    if After(steps).value.worst > U8_MAX { TooIdleRepeats(steps); }
  }

  /** The head of L1 block 1, advanced `n` times without a new block. */
  lemma {:induction false} IdleRun(n: nat) returns (steps: seq<Step>)
    ensures After(steps).Some? && After(steps).value.head == Some(1)
    ensures After(steps).value.idle == After(steps).value.worst == n
  {
    if n == 0 {
      steps := [NewL1Block(1, [], [], true)];
      assert steps[..0] == [];
    } else {
      var init := IdleRun(n - 1);
      steps := init + [Idle([], true)];
      assert steps[..|init|] == init;
    }
  }

  /** 255 such advances repeat nothing; one more gives an attribute to the producer twice. */
  lemma ByteOverflows() returns (fine: seq<Step>, bad: seq<Step>)
    ensures After(fine).Some? && After(fine).value.worst == 255 && Distinct(After(fine).value.attempts)
    ensures After(bad).Some? && After(bad).value.worst == 256 && !Distinct(After(bad).value.attempts)
  {
    fine := IdleRun(255);
    AtMostOnceExactly(fine);
    bad := IdleRun(256);
    AtMostOnceExactly(bad);
  }

  // ---- Nothing is lost on the way ----

  /** All the batches, one after another. */
  ghost function Flat(batches: seq<seq<Attribute>>): seq<Attribute> {
    if batches == [] then [] else batches[0] + Flat(batches[1..])
  }

  lemma {:induction false} FlatNext(batches: seq<seq<Attribute>>, b: seq<Attribute>)
    ensures Flat(batches + [b]) == Flat(batches) + b
  {
    if batches == [] {
      assert [b][1..] == [];
    } else {
      FlatNext(batches[1..], b);
      assert (batches + [b])[1..] == batches[1..] + [b];
    }
  }

  /** What was sent has come back, in order, or is on its way, in order; and what has come back was
      taken or waits to be. */
  ghost predicate Conserved(s: State) {
    && s.sent == s.arrived + Flat(s.posted) + s.nextBatch + s.cache + s.channel
    && multiset(s.arrived) == multiset(s.cached) + multiset(s.taken)
  }

  lemma TakenConserves(cached: seq<Attribute>)
    requires cached != []
    ensures multiset(cached) == multiset(cached[..|cached| - 1]) + multiset([cached[|cached| - 1]])
  {
    assert cached == cached[..|cached| - 1] + [cached[|cached| - 1]];
  }

  lemma ProducedConserves(s: State, a: Attribute, ok: bool)
    requires Conserved(s)
    ensures Conserved(Produced(s, a, ok))
  {
    Regroup(s.arrived + Flat(s.posted) + s.nextBatch + s.cache, s.channel, [a]);
  }

  lemma Regroup<T>(a: seq<T>, b: seq<T>, c: seq<T>)
    ensures a + b + c == a + (b + c)
  {}

  lemma TakenKeeps(s: State)
    requires Conserved(s) && s.cached != []
    ensures Conserved(Taken(s))
  {
    TakenConserves(s.cached);
  }

  lemma ReceiveConserves(s: State)
    requires Conserved(s)
    ensures Conserved(Apply(s, ReceiveTx))
  {
    if s.channel != [] {
      var before, first, rest := s.arrived + Flat(s.posted) + s.nextBatch, [s.channel[0]], s.channel[1..];
      assert s.channel == first + rest;
      Regroup(before + s.cache, first, rest);
      Regroup(before, s.cache, first);
    }
  }

  lemma SendConserves(s: State)
    requires Conserved(s)
    ensures Conserved(Apply(s, SendBatch))
  {
    FlatNext(s.posted, s.nextBatch);
    Regroup(s.arrived, Flat(s.posted), s.nextBatch);
    assert s.nextBatch == [] ==> s.arrived + Flat(s.posted) + s.nextBatch == s.arrived + Flat(s.posted);
    assert forall x: seq<Attribute> :: x + [] == x;
  }

  lemma UpdateConserves(s: State)
    requires Conserved(s)
    ensures Conserved(Apply(s, UpdateDa))
  {
    if s.posted != [] { Regroup(s.arrived, s.posted[0], Flat(s.posted[1..])); }
  }

  lemma StepConserves(s: State, step: Step)
    requires Conserved(s)
    ensures Conserved(Apply(s, step))
  {
    match step
    case NewL1Block(h, deposits, txs, ok) =>
      ProducedConserves(WithHead(s, h), Attribute(Key(h, 0), deposits + txs), ok);
    case Idle(txs, ok) =>
      if s.head.Some? {
        ProducedConserves(OnceMore(s), Attribute(Key(s.head.value, NextByte(s.sequence)), txs), ok);
      }
    case NextFromDa(txs, ok) =>
      if s.cached != [] {
        var a := s.cached[|s.cached| - 1];
        TakenKeeps(s);
        ProducedConserves(Taken(s), Attribute(a.key, a.transactions + txs), ok);
      }
    case ReceiveTx => ReceiveConserves(s);
    case SendBatch => SendConserves(s);
    case UpdateDa => UpdateConserves(s);
  }

  /** Of every run: nothing sent is lost, doubled or overtaken on its way through the batcher and the
      data-availability layer. */
  lemma {:induction false} PipelineConserves(steps: seq<Step>)
    requires After(steps).Some?
    ensures Conserved(After(steps).value)
    decreases |steps|
  {
    if steps != [] {
      PipelineConserves(steps[..|steps| - 1]);
      StepConserves(After(steps[..|steps| - 1]).value, steps[|steps| - 1]);
    }
  }

  // ---- Deposits ----

  lemma {:induction false} SentGrows(steps: seq<Step>, k: nat)
    requires After(steps).Some? && k <= |steps|
    ensures After(steps[..k]).Some? && After(steps[..k]).value.sent <= After(steps).value.sent
    decreases |steps|
  {
    if k == |steps| {
      assert steps[..k] == steps;
    } else {
      var init := steps[..|steps| - 1];
      SentGrows(init, k);
      assert init[..k] == steps[..k];
      assert After(init).value.sent <= Apply(After(init).value, steps[|steps| - 1]).sent;
    }
  }

  /** The deposits of an L1 block from which an L2 block was produced are sent on under its height and
      sequence number 0, before anything else; and nothing else is sent under that key while no head
      is advanced more than 255 times. */
  lemma DepositsAreSent(steps: seq<Step>, k: nat) returns (i: nat)
    requires After(steps).Some? && k < |steps| && steps[k].NewL1Block? && steps[k].ok
    ensures var s, b := After(steps).value, steps[k];
      && i < |s.sent| && s.sent[i] == Attribute(Key(b.height, 0), b.deposits + b.transactions)
      && (s.worst <= U8_MAX ==> forall j :: 0 <= j < |s.sent| && s.sent[j].key == Key(b.height, 0) ==> j == i)
  {
    var upTo := steps[..k + 1];
    SentGrows(steps, k);
    SentGrows(steps, k + 1);
    assert upTo[..k] == steps[..k] && upTo[k] == steps[k];
    i := |After(steps[..k]).value.sent|;
    assert After(upTo).value.sent[i] == Attribute(Key(steps[k].height, 0), steps[k].deposits + steps[k].transactions);
    ReachableInv(steps);
  }

  // ---- L2 heights ----

  ghost predicate Consecutive(ledger: map<nat, Key>) {
    forall h :: h in ledger <==> 1 <= h <= |ledger|
  }

  lemma ConsecutiveNext(ledger: map<nat, Key>, k: Key)
    requires Consecutive(ledger)
    ensures Latest(ledger) == |ledger| && Consecutive(ledger[Latest(ledger) + 1 := k])
    ensures |ledger[Latest(ledger) + 1 := k]| == |ledger| + 1
  {
    assert IsLatest(ledger, |ledger|) by {
      if ledger != map[] { assert |ledger| in ledger; }
    }
    LatestUnique(ledger, |ledger|);
  }

  /** A step adds at most one block, on top of the last one. */
  lemma LedgerNext(s: State, step: Step) returns (k: Key)
    ensures Apply(s, step).ledger == s.ledger || Apply(s, step).ledger == s.ledger[Latest(s.ledger) + 1 := k]
  {
    match step
    case NewL1Block(h, _, _, _) => k := Key(h, 0);
    case Idle(_, _) => k := if s.head.Some? then Key(s.head.value, NextByte(s.sequence)) else Key(0, 0);
    case NextFromDa(_, _) => k := if s.cached != [] then s.cached[|s.cached| - 1].key else Key(0, 0);
    case _ => k := Key(0, 0);
  }

  /** L2 blocks get the heights 1, 2, 3 and so on, whatever fails in between. */
  lemma {:induction false} HeightsConsecutive(steps: seq<Step>)
    requires After(steps).Some?
    ensures Consecutive(After(steps).value.ledger)
    decreases |steps|
  {
    if steps != [] {
      var before, last := After(steps[..|steps| - 1]).value, steps[|steps| - 1];
      HeightsConsecutive(steps[..|steps| - 1]);
      var k := LedgerNext(before, last);
      ConsecutiveNext(before.ledger, k);
    }
  }

  lemma AfterNext(steps: seq<Step>, s: State, step: Step)
    requires After(steps) == Some(s) && Enabled(s, step)
    ensures After(steps + [step]) == Some(Apply(s, step))
  {
    assert (steps + [step])[..|steps + [step]| - 1] == steps;
  }

  function UnsafeStep(info: Option<(nat, seq<nat>)>, extra: seq<nat>, ok: bool): Step {
    if info.Some? then NewL1Block(info.value.0, info.value.1, extra, ok) else Idle(extra, ok)
  }

  lemma BackExecuted(steps: seq<Step>, s: State)
    requires After(steps) == Some(s)
    ensures s.worst <= U8_MAX && s.cached != [] ==> HasExecuted(s.head, s.sequence, s.cached[|s.cached| - 1])
  {
    ReachableInv(steps);
    if s.worst <= U8_MAX && s.cached != [] {
      ComesBackExecuted(s);
    }
  }

  // ---- The parts ----

  class SvmEngine {
    var ledger: map<nat, Key>
    var attributes: seq<Attribute>    // sent, not yet received by the batcher
    ghost var attempts: seq<Key>
    ghost var sent: seq<Attribute>

    constructor ()
      ensures ledger == map[] && attributes == [] && attempts == [] && sent == []
    {
      ledger, attributes, attempts, sent := map[], [], [], [];
    }

    /** Produces a block from an attribute and the transactions waiting; `ok` says whether they all
        succeed. */
    method ProduceBlock(attribute: Attribute, extra: seq<nat>, ok: bool) returns (r: Option<(nat, Key)>)
      modifies this
      ensures ledger == old(ledger) && attempts == old(attempts) + [attribute.key]
      ensures attributes == old(attributes) +
        if ok then [Attribute(attribute.key, attribute.transactions + extra)] else []
      ensures sent == if ok then old(sent) + [Attribute(attribute.key, attribute.transactions + extra)] else old(sent)
      ensures r == if ok then Some((Latest(ledger) + 1, attribute.key)) else None
    {
      var produced := Attribute(attribute.key, attribute.transactions + extra);
      attempts := attempts + [attribute.key];
      var latest := LatestHeight();
      if !ok {
        return None;
      }
      attributes, sent := attributes + [produced], sent + [produced];
      r := Some((latest + 1, attribute.key));
    }

    method LatestHeight() returns (h: nat)
      ensures h == Latest(ledger)
    {
      h := 0;
      var todo := ledger.Keys;
      while todo != {}
        invariant todo <= ledger.Keys
        invariant (h == 0 || h in ledger) && (h == 0 && ledger != map[] ==> 0 in ledger || todo != {})
        invariant forall k :: k in ledger && k !in todo ==> k <= h
        decreases |todo|
      {
        var k :| k in todo;
        if k > h { h := k; }
        todo := todo - {k};
      }
      LatestUnique(ledger, h);
    }

    method NewBlock(block: (nat, Key))
      modifies `ledger
      ensures ledger == old(ledger)[block.0 := block.1]
    {
      ledger := ledger[block.0 := block.1];
    }
  }

  class Batcher {
    var cache: seq<Attribute>
    var nextBatch: seq<Attribute>
    var posted: seq<seq<Attribute>>   // sent, not yet received back

    constructor ()
      ensures cache == [] && nextBatch == [] && posted == []
    {
      cache, nextBatch, posted := [], [], [];
    }

    /** One turn of the receiving loop. */
    method ReceiveTx(engine: SvmEngine)
      modifies `cache, engine`attributes
      ensures if old(engine.attributes) == [] then cache == old(cache) && engine.attributes == []
        else cache == old(cache) + [old(engine.attributes)[0]] && engine.attributes == old(engine.attributes)[1..]
    {
      if engine.attributes != [] {
        cache := cache + [engine.attributes[0]];
        engine.attributes := engine.attributes[1..];
      }
    }

    /** One turn of the sending loop. */
    method SendBatch()
      modifies this
      ensures posted == if old(nextBatch) != [] then old(posted) + [old(nextBatch)] else old(posted)
      ensures nextBatch == old(cache) && cache == []
    {
      if |nextBatch| > 0 {
        posted := posted + [nextBatch];
      }
      var batch := cache;
      cache := [];
      nextBatch := batch;
    }
  }

  class DaDerive {
    var cached: seq<Attribute>
    ghost var arrived: seq<Attribute>
    ghost var taken: seq<Attribute>

    constructor ()
      ensures cached == [] && arrived == [] && taken == []
    {
      cached, arrived, taken := [], [], [];
    }

    method Next() returns (r: Option<Attribute>)
      modifies this
      ensures r == if old(cached) == [] then None else Some(old(cached)[|old(cached)| - 1])
      ensures cached == if old(cached) == [] then [] else old(cached)[..|old(cached)| - 1]
      ensures arrived == old(arrived) && taken == if r.Some? then old(taken) + [r.value] else old(taken)
    {
      if cached == [] {
        return None;
      }
      r := Some(cached[|cached| - 1]);
      taken := taken + [r.value];
      cached := cached[..|cached| - 1];
    }

    /** One turn of the updating loop. */
    method TryUpdate(batcher: Batcher)
      modifies this, batcher`posted
      ensures if old(batcher.posted) == [] then cached == old(cached) && batcher.posted == []
        else cached == old(cached) + old(batcher.posted)[0] && batcher.posted == old(batcher.posted)[1..]
      ensures taken == old(taken)
      ensures arrived == if old(batcher.posted) == [] then old(arrived) else old(arrived) + old(batcher.posted)[0]
    {
      if batcher.posted != [] {
        arrived := arrived + batcher.posted[0];
        cached := cached + batcher.posted[0];
        batcher.posted := batcher.posted[1..];
      }
    }
  }

  class SimpleRunner {
    const engine: SvmEngine
    const batcher: Batcher
    const da: DaDerive
    var currentHead: Option<nat>
    var sequenceNumber: nat
    ghost var idle: nat
    ghost var worst: nat
    ghost var steps: seq<Step>

    ghost function Current(): State
      reads this, engine, batcher, da
    {
      State(currentHead, sequenceNumber, engine.attributes, batcher.cache, batcher.nextBatch, batcher.posted, da.cached,
            engine.ledger, engine.attempts, idle, worst, engine.sent, da.arrived, da.taken)
    }

    ghost predicate Valid()
      reads this, engine, batcher, da
    {
      After(steps) == Some(Current())
    }

    constructor ()
      ensures Valid() && steps == [] && fresh(engine) && fresh(batcher) && fresh(da)
    {
      engine := new SvmEngine();
      batcher := new Batcher();
      da := new DaDerive();
      currentHead, sequenceNumber, idle, worst, steps := None, 0, 0, 0, [];
    }

    /** Gives an attribute to the producer, and the block to the ledger. */
    method Execute(attribute: Attribute, extra: seq<nat>, ok: bool)
      modifies engine
      ensures Current() == Produced(old(Current()), Attribute(attribute.key, attribute.transactions + extra), ok)
      ensures engine.attempts == old(engine.attempts) + [attribute.key]
      ensures engine.attributes == old(engine.attributes) +
        if ok then [Attribute(attribute.key, attribute.transactions + extra)] else []
      ensures engine.ledger == if ok then old(engine.ledger)[Latest(old(engine.ledger)) + 1 := attribute.key]
        else old(engine.ledger)
    {
      var block := engine.ProduceBlock(attribute, extra, ok);
      if block.Some? {
        engine.NewBlock(block.value);
      }
    }

    /** Derives from a new L1 block, or once more from the current one. `info` is the new block's
        height and deposits, if there is one; heights rise. The attribute of a new block carries its
        deposits and then what was waiting, under sequence number 0; that of an old one carries what
        was waiting, under the next number. */
    method AdvanceUnsafe(info: Option<(nat, seq<nat>)>, extra: seq<nat>, ok: bool)
      requires Valid() && (info.Some? && currentHead.Some? ==> info.value.0 > currentHead.value)
      modifies this, engine
      ensures Valid() && steps == old(steps) + [UnsafeStep(info, extra, ok)]
      ensures info.Some? ==>
        && currentHead == Some(info.value.0) && sequenceNumber == 0
        && engine.attempts == old(engine.attempts) + [Key(info.value.0, 0)]
        && engine.attributes == old(engine.attributes) +
           if ok then [Attribute(Key(info.value.0, 0), info.value.1 + extra)] else []
      ensures info.None? && old(currentHead).Some? ==>
        && currentHead == old(currentHead) && sequenceNumber == (old(sequenceNumber) + 1) % 256
        && engine.attempts == old(engine.attempts) + [Key(currentHead.value, sequenceNumber)]
        && engine.attributes == old(engine.attributes) +
           if ok then [Attribute(Key(currentHead.value, sequenceNumber), extra)] else []
      ensures info.None? && old(currentHead).None? ==>
        && currentHead == old(currentHead) && sequenceNumber == old(sequenceNumber)
        && engine.attempts == old(engine.attempts) && engine.attributes == old(engine.attributes)
    {
      AfterNext(steps, Current(), UnsafeStep(info, extra, ok));
      if info.Some? {
        NewHead(info.value.0);
        Execute(Attribute(Key(info.value.0, 0), info.value.1), extra, ok);
      } else if currentHead.Some? {
        Again();
        assert [] + extra == extra;
        Execute(Attribute(Key(currentHead.value, sequenceNumber), []), extra, ok);
      }
      steps := steps + [UnsafeStep(info, extra, ok)];
    }

    method NewHead(h: nat)
      modifies `currentHead, `sequenceNumber, `idle
      ensures Current() == WithHead(old(Current()), h)
    {
      currentHead, sequenceNumber, idle := Some(h), 0, 0;
    }

    method Again()
      modifies `sequenceNumber, `idle, `worst
      ensures Current() == OnceMore(old(Current()))
    {
      sequenceNumber := NextByte(sequenceNumber);
      idle, worst := idle + 1, Max(worst, idle + 1);
    }

    /** Takes one attribute from the data-availability layer; produces it unless it was executed. */
    method NextSafe(extra: seq<nat>, ok: bool) returns (more: bool, failed: bool)
      requires Valid()
      modifies `steps, engine, da
      ensures Valid() && steps == old(steps) + [NextFromDa(extra, ok)]
      ensures (more <==> old(da.cached) != []) && (worst <= U8_MAX ==> !failed)
      ensures da.cached == if old(da.cached) == [] then [] else old(da.cached)[..|old(da.cached)| - 1]
      ensures worst <= U8_MAX ==> engine.attempts == old(engine.attempts) && engine.ledger == old(engine.ledger)
      ensures more ==>
        var a := old(da.cached)[|old(da.cached)| - 1];
        if currentHead.Some? && (currentHead.value > a.key.height || sequenceNumber >= a.key.sequence) then
          && engine.attempts == old(engine.attempts) && engine.attributes == old(engine.attributes)
          && engine.ledger == old(engine.ledger) && !failed
        else
          && engine.attempts == old(engine.attempts) + [a.key] && failed == !ok
          && engine.attributes == old(engine.attributes) +
             if ok then [Attribute(a.key, a.transactions + extra)] else []
    {
      BackExecuted(steps, Current());
      more, failed := TakeNext(extra, ok);
    }

    method TakeNext(extra: seq<nat>, ok: bool) returns (more: bool, failed: bool)
      requires Valid()
      modifies `steps, engine, da
      ensures Valid() && steps == old(steps) + [NextFromDa(extra, ok)] && (more <==> old(da.cached) != [])
      ensures da.cached == if old(da.cached) == [] then [] else old(da.cached)[..|old(da.cached)| - 1]
      ensures !more ==> engine.attempts == old(engine.attempts) && engine.ledger == old(engine.ledger) && !failed
      ensures more ==>
        var a := old(da.cached)[|old(da.cached)| - 1];
        if currentHead.Some? && (currentHead.value > a.key.height || sequenceNumber >= a.key.sequence) then
          && engine.attempts == old(engine.attempts) && engine.attributes == old(engine.attributes)
          && engine.ledger == old(engine.ledger) && !failed
        else
          && engine.attempts == old(engine.attempts) + [a.key] && failed == !ok
          && engine.attributes == old(engine.attributes) +
             if ok then [Attribute(a.key, a.transactions + extra)] else []
    {
      AfterNext(steps, Current(), NextFromDa(extra, ok));
      var attribute := TakeBack();
      more, failed := attribute.Some?, false;
      if attribute.Some? {
        failed := ProduceUnlessExecuted(attribute.value, extra, ok);
      }
      steps := steps + [NextFromDa(extra, ok)];
    }

    method ProduceUnlessExecuted(a: Attribute, extra: seq<nat>, ok: bool) returns (failed: bool)
      modifies engine
      ensures Current() == if HasExecuted(currentHead, sequenceNumber, a) then old(Current())
        else Produced(old(Current()), Attribute(a.key, a.transactions + extra), ok)
      ensures if currentHead.Some? && (currentHead.value > a.key.height || sequenceNumber >= a.key.sequence) then
          && engine.attempts == old(engine.attempts) && engine.attributes == old(engine.attributes)
          && engine.ledger == old(engine.ledger) && !failed
        else
          && engine.attempts == old(engine.attempts) + [a.key] && failed == !ok
          && engine.attributes == old(engine.attributes) +
             if ok then [Attribute(a.key, a.transactions + extra)] else []
    {
      failed := false;
      if !HasExecuted(currentHead, sequenceNumber, a) {
        Execute(a, extra, ok);
        failed := !ok;
      }
    }

    method TakeBack() returns (attribute: Option<Attribute>)
      modifies da
      ensures attribute.None? <==> old(da.cached) == []
      ensures attribute.None? ==> Current() == old(Current())
      ensures attribute.Some? ==>
        && attribute.value == old(da.cached)[|old(da.cached)| - 1]
        && Current() == Taken(old(Current()))
    {
      attribute := da.Next();
    }

    /** Works through everything that has come back, up to a failure. While no head was idle for too
        long nothing fails, and none of it is produced again. */
    method AdvanceSafe(extra: seq<nat>, ok: bool) returns (failed: bool)
      requires Valid()
      modifies `steps, engine, da
      ensures Valid() && (failed || da.cached == []) && old(steps) <= steps
      ensures worst <= U8_MAX ==>
        !failed && engine.attempts == old(engine.attempts) && engine.ledger == old(engine.ledger)
    {
      var more := true;
      failed := false;
      while more && !failed
        invariant Valid() && old(steps) <= steps && (more || da.cached == [])
        invariant worst <= U8_MAX ==>
          !failed && engine.attempts == old(engine.attempts) && engine.ledger == old(engine.ledger)
        decreases |da.cached|, more, !failed
      {
        more, failed := NextSafe(extra, ok);
      }
    }

    // The tasks that run beside the runner, a turn at a time.

    method BatcherReceives()
      requires Valid()
      modifies `steps, batcher, engine
      ensures Valid() && steps == old(steps) + [ReceiveTx]
    {
      AfterNext(steps, Current(), ReceiveTx);
      batcher.ReceiveTx(engine);
      steps := steps + [ReceiveTx];
    }

    method BatcherSends()
      requires Valid()
      modifies `steps, batcher
      ensures Valid() && steps == old(steps) + [SendBatch]
    {
      AfterNext(steps, Current(), SendBatch);
      batcher.SendBatch();
      steps := steps + [SendBatch];
    }

    method DaUpdates()
      requires Valid()
      modifies `steps, batcher, da
      ensures Valid() && steps == old(steps) + [UpdateDa]
    {
      AfterNext(steps, Current(), UpdateDa);
      da.TryUpdate(batcher);
      steps := steps + [UpdateDa];
    }
  }
}
