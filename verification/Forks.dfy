/** `RollupStorage`'s fork tree: moving the root, finding which removed banks were ancestors of the
    new root, and marking the slots of abandoned forks dead. */
module Forks {
  import opened Basics

  type Slot = nat

  /** The banks by slot, each with its parent's slot. */
  type Banks = map<Slot, Slot>

  datatype Bank = Bank(slot: Slot, parent: Slot)

  /** A bank's parent has a lower slot, except that slot 0 is its own parent. */
  ghost predicate Tree(banks: Banks) {
    forall s :: s in banks ==> if s == 0 then banks[s] == 0 else banks[s] < s
  }

  /** The slots on the way up from `s`, `s` not included, as far as the banks are there. */
  ghost function Ancestors(banks: Banks, s: Slot): set<Slot>
    requires Tree(banks)
    decreases s
  {
    if s !in banks || s == 0 then {} else {banks[s]} + Ancestors(banks, banks[s])
  }

  lemma {:induction false} AncestorsBelow(banks: Banks, s: Slot)
    requires Tree(banks)
    ensures forall a :: a in Ancestors(banks, s) ==> a < s
    decreases s
  {
    if s in banks && s != 0 { AncestorsBelow(banks, banks[s]); }
  }

  function StopAt(root: Slot, finalized: Option<Slot>): Slot {
    if finalized.Some? then finalized.value else root
  }

  /** A bank survives the move of the root if it is the root, descends from it, or is an ancestor of
      it not below the finalized slot. */
  ghost predicate Survives(banks: Banks, root: Slot, stopAt: Slot, s: Slot)
    requires Tree(banks)
  {
    || s == root
    || root in Ancestors(banks, s)
    || (s in Ancestors(banks, root) && s >= stopAt)
  }

  // ---- The first loop ----

  /** One turn of the walk up from the root, or `None` when the walk ends. */
  function StepUp(banks: Banks, stopAt: Slot, s: Slot): Option<Slot> {
    if s in banks && banks[s] >= stopAt then Some(banks[s]) else None
  }

  /** Where the walk is after `n` turns, if it has not ended. */
  ghost function Walk(banks: Banks, stopAt: Slot, s: Slot, n: nat): Option<Slot>
    decreases n
  {
    if n == 0 then Some(s)
    else
      var next := StepUp(banks, stopAt, s);
      if next.None? then None else Walk(banks, stopAt, next.value, n - 1)
  }

  /** The links lead from `s` to the genesis bank. */
  ghost predicate ReachesGenesis(banks: Banks, s: Slot)
    requires Tree(banks)
    decreases s
  {
    s in banks && (s == 0 || ReachesGenesis(banks, banks[s]))
  }

  /** The walk has nowhere to loop. */
  ghost predicate Ends(banks: Banks, stopAt: Slot, root: Slot)
    requires Tree(banks)
  {
    stopAt > 0 || !ReachesGenesis(banks, root)
  }

  lemma {:induction false} WalkEnds(banks: Banks, stopAt: Slot, s: Slot) returns (n: nat)
    requires Tree(banks) && Ends(banks, stopAt, s)
    ensures Walk(banks, stopAt, s, n).None?
    decreases s
  {
    var next := StepUp(banks, stopAt, s);
    if next.None? {
      n := 1;
    } else {
      n := WalkEnds(banks, stopAt, next.value);
      n := n + 1;
    }
  }

  lemma {:induction false} WalkLoops(banks: Banks, s: Slot, n: nat)
    requires Tree(banks) && ReachesGenesis(banks, s)
    ensures Walk(banks, 0, s, n).Some?
    decreases n
  {
    if n > 0 { WalkLoops(banks, banks[s], n - 1); }
  }

  /** The walk ends exactly when it stops above slot 0 or does not get to the genesis bank. */
  lemma WalkEndsExactly(banks: Banks, stopAt: Slot, root: Slot)
    requires Tree(banks)
    ensures (exists n: nat :: Walk(banks, stopAt, root, n).None?) <==> Ends(banks, stopAt, root)
  {
    if Ends(banks, stopAt, root) {
      var n := WalkEnds(banks, stopAt, root);
    } else {
      forall n: nat ensures Walk(banks, stopAt, root, n).Some? {
        WalkLoops(banks, root, n);
      }
    }
  }

  /** With nothing finalized but genesis, a reorganisation onto a bank of the genesis chain loops. */
  lemma GenesisLoops(n: nat)
    ensures Tree(map[0 := 0, 1 := 0]) && !Ends(map[0 := 0, 1 := 0], 0, 1)
    ensures Walk(map[0 := 0, 1 := 0], 0, 1, n).Some?
  {
    var banks: Banks := map[0 := 0, 1 := 0];
    assert ReachesGenesis(banks, 0);
    WalkLoops(banks, 1, n);
  }

  /** Where the walk up from `s` ends. */
  ghost function Top(banks: Banks, stopAt: Slot, s: Slot): Slot
    requires Tree(banks) && Ends(banks, stopAt, s)
    decreases s
  {
    if s in banks && banks[s] >= stopAt then Top(banks, stopAt, banks[s]) else s
  }

  /** The chain of removed banks that starts at `s`. */
  ghost function Chain(removed: Banks, s: Slot): set<Slot>
    requires Tree(removed)
    decreases s
  {
    if s !in removed then {} else if s == 0 then {0} else {s} + Chain(removed, removed[s])
  }

  lemma {:induction false} ChainBelow(removed: Banks, s: Slot)
    requires Tree(removed)
    ensures Chain(removed, s) <= removed.Keys && forall a :: a in Chain(removed, s) ==> a <= s
    decreases s
  {
    if s in removed && s != 0 { ChainBelow(removed, removed[s]); }
  }

  // ---- find_ancestors ----

  /** `list` holds the banks of `banks`, once each, in any order. */
  ghost predicate Lists(list: seq<Bank>, banks: Banks) {
    && (forall i :: 0 <= i < |list| ==> list[i].slot in banks && banks[list[i].slot] == list[i].parent)
    && (forall s :: s in banks ==> Bank(s, banks[s]) in list)
  }

  ghost function Found(kept: Banks, removed: Banks, root: Slot, stopAt: Slot): set<Slot>
    requires Tree(kept) && Tree(removed) && Ends(kept, stopAt, root)
  {
    var top := Top(kept, stopAt, root);
    if top in kept then Chain(removed, kept[top]) else {}
  }

  method FindAncestors(root: Slot, finalized: Option<Slot>, kept: Banks, list: seq<Bank>, ghost removed: Banks)
    returns (ancestors: set<Slot>)
    requires Tree(kept) && Tree(removed) && Lists(list, removed) && Ends(kept, StopAt(root, finalized), root)
    ensures ancestors == Found(kept, removed, root, StopAt(root, finalized))
  {
    var stopAt := StopAt(root, finalized);
    var slot := root;
    while slot in kept && kept[slot] >= stopAt
      invariant Ends(kept, stopAt, slot) && Top(kept, stopAt, slot) == Top(kept, stopAt, root)
      decreases slot
    {
      slot := kept[slot];
    }
    if slot !in kept {
      return {};
    }
    ancestors := CollectChain(kept[slot], list, removed);
  }

  /** Follows the parent links through the removed banks, scanning the list for each link. */
  method CollectChain(first: Slot, list: seq<Bank>, ghost removed: Banks) returns (ancestors: set<Slot>)
    requires Tree(removed) && Lists(list, removed)
    ensures ancestors == Chain(removed, first)
  {
    var next := first;
    ancestors := {};
    while true
      invariant ancestors + Chain(removed, next) == Chain(removed, first)
      invariant Above(ancestors, next)
      decreases next, next !in ancestors
    {
      var found := FindLink(next, list, ancestors);
      if found.None? {
        ChainDone(removed, list, ancestors, next);
        break;
      }
      ChainStep(removed, next);
      ancestors := ancestors + {next};
      next := found.value.parent;
    }
  }

  /** The links collected so far lie above the one looked for, unless that is genesis again. */
  ghost predicate Above(ancestors: set<Slot>, next: Slot) {
    forall a :: a in ancestors ==> a > next || (a == 0 && next == 0)
  }

  lemma ChainDone(removed: Banks, list: seq<Bank>, ancestors: set<Slot>, next: Slot)
    requires Tree(removed) && Lists(list, removed) && Above(ancestors, next)
    requires next in ancestors || forall b :: b in list ==> b.slot != next
    ensures Chain(removed, next) <= ancestors
  {}

  lemma ChainStep(removed: Banks, s: Slot)
    requires Tree(removed) && s in removed
    ensures Chain(removed, s) == {s} + Chain(removed, removed[s])
  {}

  method FindLink(next: Slot, list: seq<Bank>, ancestors: set<Slot>) returns (r: Option<Bank>)
    ensures r.Some? ==> r.value in list && r.value.slot == next && next !in ancestors
    ensures r.None? ==> next in ancestors || forall b :: b in list ==> b.slot != next
  {
    for i := 0 to |list|
      invariant next in ancestors || forall j :: 0 <= j < i ==> list[j].slot != next
    {
      if list[i].slot !in ancestors && list[i].slot == next {
        return Some(list[i]);
      }
    }
    r := None;
  }

  // ---- Exactness ----

  ghost predicate Pruned(banks: Banks, root: Slot, stopAt: Slot, kept: Banks, removed: Banks)
    requires Tree(banks)
  {
    && (forall s :: s in kept <==> s in banks && Survives(banks, root, stopAt, s))
    && (forall s :: s in removed <==> s in banks && !Survives(banks, root, stopAt, s))
    && (forall s :: s in kept ==> kept[s] == banks[s])
    && (forall s :: s in removed ==> removed[s] == banks[s])
  }

  lemma {:induction false} AncestorsTransitive(banks: Banks, a: Slot, s: Slot)
    requires Tree(banks) && a in Ancestors(banks, s)
    ensures Ancestors(banks, a) <= Ancestors(banks, s)
    decreases s
  {
    if a != banks[s] { AncestorsTransitive(banks, a, banks[s]); }
  }

  /** The links of the surviving banks lead to genesis exactly when they did before. */
  lemma {:induction false} GenesisKept(banks: Banks, root: Slot, kept: Banks, removed: Banks, s: Slot)
    requires Tree(banks) && Pruned(banks, root, 0, kept, removed) && Tree(kept)
    requires s == root || s in Ancestors(banks, root)
    ensures ReachesGenesis(kept, s) <==> ReachesGenesis(banks, s)
    decreases s
  {
    if s in banks && s != 0 {
      if s != root { AncestorsTransitive(banks, s, root); }
      GenesisKept(banks, root, kept, removed, banks[s]);
    }
  }

  /** Above the stop the walk goes through surviving banks only. */
  lemma {:induction false} TopSplits(banks: Banks, root: Slot, stopAt: Slot, kept: Banks, removed: Banks, s: Slot)
    requires Tree(banks) && Pruned(banks, root, stopAt, kept, removed) && Tree(kept) && Tree(removed)
    requires (s == root || (s in Ancestors(banks, root) && s >= stopAt)) && Ends(kept, stopAt, s)
    ensures var top := Top(kept, stopAt, s);
      Ancestors(banks, s) * removed.Keys == if top in kept then Chain(removed, kept[top]) else {}
    decreases s
  {
    if s in banks && s != root { AncestorsTransitive(banks, s, root); }
    if s in kept && s != 0 {
      if kept[s] >= stopAt {
        AncestorsBelow(banks, s);
        TopSplits(banks, root, stopAt, kept, removed, banks[s]);
        NotRemoved(banks, root, stopAt, kept, removed, s);
      } else {
        BelowStop(banks, root, stopAt, kept, removed, banks[s]);
        FirstRemoved(banks, s, removed);
      }
    }
  }

  lemma NotRemoved(banks: Banks, root: Slot, stopAt: Slot, kept: Banks, removed: Banks, s: Slot)
    requires Tree(banks) && Pruned(banks, root, stopAt, kept, removed)
    requires s in banks && banks[s] >= stopAt && (s == root || s in Ancestors(banks, root))
    ensures s != 0 ==>
      banks[s] !in removed && Ancestors(banks, s) * removed.Keys == Ancestors(banks, banks[s]) * removed.Keys
  {
    if s != 0 {
      if s != root { AncestorsTransitive(banks, s, root); }
      assert banks[s] in Ancestors(banks, s);
      assert banks[s] in Ancestors(banks, root);
    }
  }

  lemma FirstRemoved(banks: Banks, s: Slot, removed: Banks)
    requires Tree(banks) && Tree(removed) && s in banks
    requires ({banks[s]} + Ancestors(banks, banks[s])) * removed.Keys == Chain(removed, banks[s])
    ensures s != 0 ==> Ancestors(banks, s) * removed.Keys == Chain(removed, banks[s])
  {}

  /** Below the stop every ancestor of the root that is there was removed. */
  lemma {:induction false} BelowStop(banks: Banks, root: Slot, stopAt: Slot, kept: Banks, removed: Banks, a: Slot)
    requires Tree(banks) && Pruned(banks, root, stopAt, kept, removed) && Tree(removed)
    requires a in Ancestors(banks, root) && a < stopAt
    ensures ({a} + Ancestors(banks, a)) * removed.Keys == Chain(removed, a)
    decreases a
  {
    AncestorsBelow(banks, root);
    AncestorsBelow(banks, a);
    NeitherWay(banks, root, a);
    if a in banks {
      assert a in removed;
      if a != 0 {
        AncestorsTransitive(banks, a, root);
        assert banks[a] in Ancestors(banks, a);
        BelowStop(banks, root, stopAt, kept, removed, banks[a]);
      }
    } else {
      assert a !in removed && Ancestors(banks, a) == {};
    }
  }

  /** No bank is an ancestor of its own ancestor. */
  lemma NeitherWay(banks: Banks, s: Slot, a: Slot)
    requires Tree(banks) && a in Ancestors(banks, s)
    ensures s !in Ancestors(banks, a) && a != s
  {
    AncestorsBelow(banks, s);
    AncestorsBelow(banks, a);
  }

  /** `find_ancestors` returns exactly the removed ancestors of the new root. */
  lemma FoundIsExact(banks: Banks, root: Slot, stopAt: Slot, kept: Banks, removed: Banks)
    requires Tree(banks) && Pruned(banks, root, stopAt, kept, removed) && root in banks
    requires Ends(banks, stopAt, root)
    ensures Tree(kept) && Tree(removed) && Ends(kept, stopAt, root)
    ensures Found(kept, removed, root, stopAt) == Ancestors(banks, root) * removed.Keys
  {
    if stopAt == 0 { GenesisKept(banks, root, kept, removed, root); }
    TopSplits(banks, root, stopAt, kept, removed, root);
  }

  /** The reorganisation comes to an end exactly when the finalized slot is above 0 or the links from
      the new root do not lead to the genesis bank. */
  lemma ReorgEndsExactly(banks: Banks, root: Slot, stopAt: Slot, kept: Banks, removed: Banks)
    requires Tree(banks) && Pruned(banks, root, stopAt, kept, removed) && root in banks
    ensures (exists n: nat :: Walk(kept, stopAt, root, n).None?) <==> Ends(banks, stopAt, root)
  {
    assert Tree(kept);
    WalkEndsExactly(kept, stopAt, root);
    if stopAt == 0 { GenesisKept(banks, root, kept, removed, root); }
  }

  // ---- The storage ----

  /** The slots of the forks abandoned by making `root` the root: neither the root, nor descended
      from it, nor on the way to it. */
  ghost function Abandoned(banks: Banks, root: Slot): set<Slot>
    requires Tree(banks)
  {
    set s | s in banks && s != root && root !in Ancestors(banks, s) && s !in Ancestors(banks, root)
  }

  ghost predicate EachOnce(list: seq<Bank>) {
    forall i, j :: 0 <= i < j < |list| ==> list[i].slot != list[j].slot
  }

  /** Who survives, said with the finalized slot itself. */
  lemma SurvivesPlainly(banks: Banks, root: Slot, finalized: Option<Slot>, s: Slot)
    requires Tree(banks)
    ensures Survives(banks, root, StopAt(root, finalized), s) <==>
      || s == root
      || root in Ancestors(banks, s)
      || (finalized.Some? && s in Ancestors(banks, root) && s >= finalized.value)
  {
    AncestorsBelow(banks, root);
  }

  class RollupStorage {
    var bankForks: Banks
    var root: Slot
    var bank: Slot                // the working bank
    var roots: set<Slot>          // what the blockstore has marked as roots
    var deadSlots: set<Slot>      // and as dead

    ghost predicate Valid()
      reads this
    {
      Tree(bankForks) && bank in bankForks && root in bankForks
    }

    constructor ()
      ensures Valid() && bankForks == map[0 := 0] && deadSlots == {}
    {
      bankForks, root, bank, roots, deadSlots := map[0 := 0], 0, 0, {}, {};
    }

    /** Moves the root and returns the banks that do not survive it, in no particular order. Panics
        if there is no such bank. */
    method SetRoot(slot: Slot, finalized: Option<Slot>) returns (list: seq<Bank>, ghost removed: Banks)
      requires Valid() && slot in bankForks
      modifies `bankForks, `root, `roots
      ensures Pruned(old(bankForks), slot, StopAt(slot, finalized), bankForks, removed)
      ensures Lists(list, removed) && EachOnce(list)
      ensures root == slot && slot in bankForks && roots == old(roots) + {slot}
    {
      roots := roots + {slot};
      root := slot;
      var survivors := Survivors(bankForks, slot, StopAt(slot, finalized));
      var gone := map s | s in bankForks && s !in survivors :: bankForks[s];
      list := ListBanks(gone);
      removed := gone;
      bankForks := map s | s in survivors :: bankForks[s];
    }

    static method Survivors(banks: Banks, root: Slot, stopAt: Slot) returns (r: set<Slot>)
      requires Tree(banks)
      ensures forall s :: s in r <==> s in banks && Survives(banks, root, stopAt, s)
    {
      r := {};
      var todo := banks.Keys;
      while todo != {}
        invariant todo <= banks.Keys
        invariant forall s :: s in r <==> s in banks && s !in todo && Survives(banks, root, stopAt, s)
        decreases |todo|
      {
        var s :| s in todo;
        var keep := Keeps(banks, root, stopAt, s);
        if keep { r := r + {s}; }
        todo := todo - {s};
      }
    }

    static method ListBanks(banks: Banks) returns (list: seq<Bank>)
      ensures Lists(list, banks) && EachOnce(list)
    {
      list := [];
      var todo := banks.Keys;
      while todo != {}
        invariant todo <= banks.Keys
        invariant forall i :: 0 <= i < |list| ==> list[i].slot in banks && banks[list[i].slot] == list[i].parent
        invariant forall s :: s in banks && s !in todo ==> Bank(s, banks[s]) in list
        invariant EachOnce(list) && forall i :: 0 <= i < |list| ==> list[i].slot !in todo
        decreases |todo|
      {
        var s :| s in todo;
        list := list + [Bank(s, banks[s])];
        todo := todo - {s};
      }
    }

    /** Whether a bank survives, by following the links. */
    static method Keeps(banks: Banks, root: Slot, stopAt: Slot, s: Slot) returns (r: bool)
      requires Tree(banks)
      ensures r <==> Survives(banks, root, stopAt, s)
    {
      var descends := IsAncestor(banks, root, s);
      var leads := IsAncestor(banks, s, root);
      r := s == root || descends || (leads && s >= stopAt);
    }

    static method IsAncestor(banks: Banks, a: Slot, s: Slot) returns (r: bool)
      requires Tree(banks)
      ensures r <==> a in Ancestors(banks, s)
    {
      var at := s;
      while at in banks && at != 0
        invariant a in Ancestors(banks, s) <==> a in Ancestors(banks, at)
        decreases at
      {
        at := banks[at];
        if at == a {
          return true;
        }
      }
      r := false;
    }

    /** Reorganises onto `slot`: it, its descendants and its ancestors from the finalized slot on stay,
        the others are returned, and the slots of abandoned forks are marked dead, and no others. Needs
        a finalized slot above 0, or a bank missing on the way to genesis. */
    method Reorg(slot: Slot, finalized: Option<Slot>) returns (list: seq<Bank>)
      requires Valid() && slot in bankForks && Ends(bankForks, StopAt(slot, finalized), slot)
      modifies this
      ensures Valid() && root == slot && roots == old(roots) + {slot}
      ensures forall s :: s in bankForks <==>
        && s in old(bankForks)
        && (|| s == slot
            || slot in Ancestors(old(bankForks), s)
            || (finalized.Some? && s in Ancestors(old(bankForks), slot) && s >= finalized.value))
      ensures forall s :: s in bankForks ==> bankForks[s] == old(bankForks)[s] && s <= bank
      ensures EachOnce(list) && forall b :: b in list <==>
        b.slot in old(bankForks) && b.slot !in bankForks && b.parent == old(bankForks)[b.slot]
      ensures deadSlots == old(deadSlots) + Abandoned(old(bankForks), slot)
    {
      ghost var banks, stopAt := bankForks, StopAt(slot, finalized);
      ghost var removed;
      list, removed := SetRoot(slot, finalized);
      FoundIsExact(banks, slot, stopAt, bankForks, removed);
      forall s { SurvivesPlainly(banks, slot, finalized, s); }
      var ancestors := FindAncestors(slot, finalized, bankForks, list, removed);
      ghost var dead := deadSlots;
      MarkDead(list, ancestors);
      assert deadSlots == dead + Abandoned(banks, slot) by {
        forall s ensures s in deadSlots <==> s in dead || s in Abandoned(banks, slot) {
          if s in removed { assert Bank(s, removed[s]) in list; }
        }
      }
      WorkingBank();
    }

    method MarkDead(list: seq<Bank>, ancestors: set<Slot>)
      modifies `deadSlots
      ensures forall s :: s in deadSlots <==>
        s in old(deadSlots) || exists i :: 0 <= i < |list| && list[i].slot == s && s !in ancestors
    {
      for i := 0 to |list|
        invariant forall s :: s in deadSlots <==>
          s in old(deadSlots) || exists j :: 0 <= j < i && list[j].slot == s && s !in ancestors
      {
        if list[i].slot !in ancestors {
          deadSlots := deadSlots + {list[i].slot};
        }
      }
    }

    /** The working bank is the one with the highest slot. */
    method WorkingBank()
      requires bankForks != map[]
      modifies `bank
      ensures bank in bankForks && forall s :: s in bankForks ==> s <= bank
    {
      var todo := bankForks.Keys;
      var first :| first in todo;
      bank := first;
      todo := todo - {first};
      while todo != {}
        invariant bank in bankForks && todo <= bankForks.Keys
        invariant forall s :: s in bankForks && s !in todo ==> s <= bank
        decreases |todo|
      {
        var s :| s in todo;
        if s > bank { bank := s; }
        todo := todo - {s};
      }
    }
  }
}
