/** A stand-in for the `prio_graph` crate: transactions in insertion order, each blocked by the
    earlier conflicting ones until they are unblocked. */
module PrioGraphs {
  import opened Basics
  import opened Messages
  import opened PriorityIds

  datatype Graph = Graph(
    nodes: seq<TransactionPriorityId>,
    access: map<TransactionPriorityId, Access>,
    popped: set<TransactionPriorityId>,
    unblocked: set<TransactionPriorityId>)
  {
    ghost predicate Valid() {
      && access.Keys == Elems(nodes)
      && (forall i, j :: 0 <= i < j < |nodes| ==> nodes[i] != nodes[j])
      && unblocked <= popped <= Elems(nodes)
      && (forall j: nat :: j < |nodes| && nodes[j] in popped ==> Free(j))
    }

    /** Every earlier conflicting node has been unblocked. */
    predicate Free(j: nat)
      requires access.Keys == Elems(nodes) && j < |nodes|
    {
      forall i: nat :: i < j && Conflict(access[nodes[i]], access[nodes[j]]) ==> nodes[i] in unblocked
    }

    predicate Poppable(p: TransactionPriorityId)
      requires access.Keys == Elems(nodes)
    {
      p !in popped && exists j: nat :: j < |nodes| && nodes[j] == p && Free(j)
    }

    ghost function Unpopped(): set<TransactionPriorityId> {
      Elems(nodes) - popped
    }
  }

  ghost predicate CanPop(g: Graph, p: TransactionPriorityId) {
    g.access.Keys == Elems(g.nodes) && g.Poppable(p)
  }

  /** `p` is the greatest of the ids that can be popped. */
  ghost predicate Foremost(g: Graph, p: TransactionPriorityId) {
    CanPop(g, p) && forall q :: CanPop(g, q) && q != p ==> Less(q, p)
  }

  ghost predicate Stuck(g: Graph) {
    forall p :: !CanPop(g, p)
  }

  function Popped(g: Graph, p: TransactionPriorityId): Graph {
    g.(popped := g.popped + {p})
  }

  function Unblocked(g: Graph, p: TransactionPriorityId): Graph {
    g.(unblocked := g.unblocked + {p})
  }

  function Inserted(g: Graph, p: TransactionPriorityId, access: Access): Graph {
    g.(nodes := g.nodes + [p], access := g.access[p := access])
  }

  /** While a node is left and everything popped is unblocked, some node can be popped. */
  lemma SomePoppable(g: Graph)
    requires g.Valid() && g.unblocked == g.popped && g.Unpopped() != {}
    ensures !Stuck(g)
  {
    var p :| p in g.Unpopped();
    var k :| 0 <= k < |g.nodes| && g.nodes[k] == p;
    FirstUnpopped(g, k);
  }

  lemma {:induction false} FirstUnpopped(g: Graph, k: nat)
    requires g.Valid() && g.unblocked == g.popped && k < |g.nodes| && g.nodes[k] !in g.popped
    ensures !Stuck(g)
    decreases k
  {
    if i: nat :| i < k && g.nodes[i] !in g.popped {
      FirstUnpopped(g, i);
    } else {
      assert g.Free(k);
      assert CanPop(g, g.nodes[k]);
    }
  }

  class PrioGraph {
    var graph: Graph

    constructor ()
      ensures graph == Graph([], map[], {}, {}) && graph.Valid()
    {
      graph := Graph([], map[], {}, {});
    }

    method InsertTransaction(p: TransactionPriorityId, access: Access)
      requires graph.Valid() && p !in graph.nodes
      modifies this
      ensures graph.Valid()
      ensures graph == Inserted(old(graph), p, access)
    {
      InsertKeeps(graph, p, access);
      graph := Inserted(graph, p, access);
    }

    /** The main queue is empty: nothing can be popped. */
    predicate IsEmpty()
      requires graph.Valid()
      reads this
      ensures IsEmpty() <==> Stuck(graph)
    {
      assert forall p :: CanPop(graph, p) <==> p in graph.nodes && graph.Poppable(p);
      forall p :: p in graph.nodes ==> !graph.Poppable(p)
    }

    /** Pops the greatest poppable id. */
    method Pop() returns (r: Option<TransactionPriorityId>)
      requires graph.Valid()
      modifies this
      ensures graph.Valid()
      ensures r.None? <==> Stuck(old(graph))
      ensures r.None? ==> graph == old(graph)
      ensures r.Some? ==>
        && Foremost(old(graph), r.value)
        && (forall p :: CanPop(old(graph), p) ==> p.priority <= r.value.priority)
        && graph == Popped(old(graph), r.value) && |graph.popped| == |old(graph.popped)| + 1
    {
      r := Next();
      if r.Some? {
        MarkPopped(graph, r.value);
        graph := Popped(graph, r.value);
      }
    }

    method Next() returns (r: Option<TransactionPriorityId>)
      requires graph.Valid()
      ensures r.None? <==> Stuck(graph)
      ensures r.Some? ==> Foremost(graph, r.value) && forall p :: CanPop(graph, p) ==> p.priority <= r.value.priority
    {
      var ready := set p | p in graph.nodes && graph.Poppable(p);
      ReadyCanPop(graph, ready);
      if ready == {} {
        return None;
      }
      ghost var greatest := MaxExists(ready);
      var p :| p in ready && forall q :: q in ready && q != p ==> Less(q, p);
      r := Some(p);
    }

    method Unblock(p: TransactionPriorityId)
      requires graph.Valid() && p in graph.popped
      modifies this
      ensures graph.Valid() && graph == Unblocked(old(graph), p)
    {
      MarkUnblocked(graph, p);
      graph := Unblocked(graph, p);
    }

    method PopAndUnblock() returns (r: Option<TransactionPriorityId>)
      requires graph.Valid() && graph.unblocked == graph.popped
      modifies this
      ensures graph.Valid() && graph.unblocked == graph.popped
      ensures r.None? ==> graph == old(graph) && graph.Unpopped() == {}
      ensures r.Some? ==>
        && r.value in old(graph).Unpopped()
        && graph == Unblocked(Popped(old(graph), r.value), r.value)
        && graph.Unpopped() == old(graph.Unpopped()) - {r.value}
    {
      r := Pop();
      if r.Some? {
        PoppedLeaves(old(graph), r.value);
        Unblock(r.value);
      } else if graph.Unpopped() != {} {
        SomePoppable(graph);
      }
    }
  }

  lemma ReadyCanPop(g: Graph, ready: set<TransactionPriorityId>)
    requires g.Valid() && ready == (set q | q in g.nodes && g.Poppable(q))
    ensures forall q :: CanPop(g, q) <==> q in ready
  {}

  lemma PoppedLeaves(g: Graph, p: TransactionPriorityId)
    requires CanPop(g, p)
    ensures p in g.Unpopped()
    ensures Unblocked(Popped(g, p), p).Unpopped() == g.Unpopped() - {p}
  {}

  lemma MarkPopped(g: Graph, p: TransactionPriorityId)
    requires g.Valid() && g.Poppable(p)
    ensures Popped(g, p).Valid()
  {
    var g' := Popped(g, p);
    var k :| 0 <= k < |g.nodes| && g.nodes[k] == p && g.Free(k);
    forall j: nat | j < |g.nodes| && g.nodes[j] in g'.popped ensures g'.Free(j) {
      assert g.Free(j);
    }
  }

  lemma InsertKeeps(g: Graph, p: TransactionPriorityId, access: Access)
    requires g.Valid() && p !in g.nodes
    ensures Inserted(g, p, access).Valid()
  {
    var g' := Inserted(g, p, access);
    assert Elems(g'.nodes) == Elems(g.nodes) + {p};
    forall j: nat | j < |g'.nodes| && g'.nodes[j] in g'.popped ensures g'.Free(j) {
      assert g.Free(j);
    }
  }

  lemma MarkUnblocked(g: Graph, p: TransactionPriorityId)
    requires g.Valid() && p in g.popped
    ensures Unblocked(g, p).Valid()
  {
    var g' := Unblocked(g, p);
    forall j: nat | j < |g.nodes| && g.nodes[j] in g.popped ensures g'.Free(j) {
      assert g.Free(j);
    }
  }
}
