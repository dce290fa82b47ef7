/** `calculate_thread_load_summary`: how busy the workers were during the merged windows. Times are
    exact, loads are reals, and a division by zero gives no number. */
module LoadSummary {
  import opened Basics
  import opened TimeWindows

  datatype Status =
    | Active(start: nat, end: nat)
    | Idle(start: nat, end: nat)

  datatype Update = Update(thread: nat, status: Status)

  ghost predicate ProperUpdates(updates: seq<Update>) {
    forall i :: 0 <= i < |updates| ==> updates[i].status.start <= updates[i].status.end
  }

  function WindowOf(u: Update): Window {
    Window(u.status.start, u.status.end)
  }

  function WindowsOf(updates: seq<Update>): (ws: seq<Window>)
    ensures |ws| == |updates| && forall i :: 0 <= i < |ws| ==> ws[i] == WindowOf(updates[i])
  {
    if updates == [] then [] else WindowsOf(updates[..|updates| - 1]) + [WindowOf(updates[|updates| - 1])]
  }

  // ---- Sorting by start, a stand-in for the library's stable sort ----

  function InsertSorted(ws: seq<Window>, w: Window): seq<Window> {
    if ws == [] || ws[|ws| - 1].start <= w.start then ws + [w]
    else InsertSorted(ws[..|ws| - 1], w) + [ws[|ws| - 1]]
  }

  function Sorted(ws: seq<Window>): seq<Window> {
    if ws == [] then [] else InsertSorted(Sorted(ws[..|ws| - 1]), ws[|ws| - 1])
  }

  lemma {:induction false} InsertElements(ws: seq<Window>, w: Window)
    ensures multiset(InsertSorted(ws, w)) == multiset(ws) + multiset{w}
    ensures forall x :: x in InsertSorted(ws, w) <==> x in ws || x == w
  {
    if !(ws == [] || ws[|ws| - 1].start <= w.start) {
      assert ws == ws[..|ws| - 1] + [ws[|ws| - 1]];
      InsertElements(ws[..|ws| - 1], w);
    }
  }

  lemma {:induction false} InsertIsSorted(ws: seq<Window>, w: Window)
    requires SortedByStart(ws)
    ensures SortedByStart(InsertSorted(ws, w))
  {
    if ws != [] {
      var init, last := ws[..|ws| - 1], ws[|ws| - 1];
      InsertIsSorted(init, w);
      InsertElements(init, w);
      var r := InsertSorted(init, w);
      if w.start < last.start {
        forall i | 0 <= i < |r| ensures r[i].start <= last.start {
          assert r[i] in r;
        }
      }
    }
  }

  /** The sorted list has the same elements. */
  lemma {:induction false} SortedIsSorted(ws: seq<Window>)
    ensures SortedByStart(Sorted(ws)) && multiset(Sorted(ws)) == multiset(ws)
  {
    if ws != [] {
      var init, last := ws[..|ws| - 1], ws[|ws| - 1];
      assert ws == init + [last];
      SortedIsSorted(init);
      InsertIsSorted(Sorted(init), last);
      InsertElements(Sorted(init), last);
    }
  }

  /** The merged windows of the updates. */
  function WindowsMerged(updates: seq<Update>): seq<Window> {
    Merged(Sorted(WindowsOf(updates)))
  }

  lemma SortedElements(updates: seq<Update>)
    ensures var ws := Sorted(WindowsOf(updates));
      && SortedByStart(ws)
      && (forall i :: 0 <= i < |ws| ==> exists k :: 0 <= k < |updates| && ws[i] == WindowOf(updates[k]))
      && (forall k :: 0 <= k < |updates| ==> WindowOf(updates[k]) in ws)
  {
    var all, ws := WindowsOf(updates), Sorted(WindowsOf(updates));
    SortedIsSorted(all);
    forall i | 0 <= i < |ws| ensures exists k :: 0 <= k < |updates| && ws[i] == WindowOf(updates[k]) {
      assert ws[i] in multiset(ws);
      assert ws[i] in all;
      var k :| 0 <= k < |all| && all[k] == ws[i];
    }
    forall k | 0 <= k < |updates| ensures WindowOf(updates[k]) in ws {
      assert all[k] in multiset(all);
    }
  }

  lemma WindowsGapped(updates: seq<Update>)
    requires ProperUpdates(updates)
    ensures Gapped(WindowsMerged(updates))
  {
    SortedElements(updates);
    var ws := Sorted(WindowsOf(updates));
    forall i | 0 <= i < |ws| ensures ws[i].start <= ws[i].end {
      var k :| 0 <= k < |updates| && ws[i] == WindowOf(updates[k]);
    }
    MergedGapped(ws);
  }

  // ---- Every update lies within one merged window ----

  ghost predicate Within(w: Window, merged: seq<Window>, i: nat) {
    i < |merged| && merged[i].start <= w.start && w.end <= merged[i].end
  }

  ghost predicate HeldBy(w: Window, merged: seq<Window>) {
    exists i: nat :: Within(w, merged, i)
  }

  lemma AbsorbedKeeps(merged: seq<Window>, w: Window, v: Window, i: nat)
    requires Within(v, merged, i)
    ensures Within(v, Absorbed(merged, w), i)
  {}

  lemma {:induction false} MergedContains(ws: seq<Window>, k: nat) returns (i: nat)
    requires SortedByStart(ws) && k < |ws|
    ensures Within(ws[k], Merged(ws), i)
  {
    var init, last := ws[..|ws| - 1], ws[|ws| - 1];
    if k < |init| {
      i := MergedContains(init, k);
      AbsorbedKeeps(Merged(init), last, ws[k], i);
    } else {
      MergedStarts(init);
      var merged := Merged(init);
      if init != [] { assert init[|init| - 1].start <= last.start; }
      i := if merged != [] && last.start <= merged[|merged| - 1].end then |merged| - 1 else |merged|;
    }
  }

  lemma UpdateWithin(updates: seq<Update>, k: nat) returns (i: nat)
    requires k < |updates|
    ensures Within(WindowOf(updates[k]), WindowsMerged(updates), i)
  {
    SortedElements(updates);
    var ws := Sorted(WindowsOf(updates));
    var j :| 0 <= j < |ws| && ws[j] == WindowOf(updates[k]);
    i := MergedContains(ws, j);
  }

  // ---- Overlaps ----

  /** How long a status was active within a window. */
  function Overlap(s: Status, w: Window): (r: nat)
    requires s.start <= s.end && w.start <= w.end
  {
    if s.Active? && s.start < w.end && s.end > w.start then Min(s.end, w.end) - Max(s.start, w.start) else 0
  }

  function ActiveTime(s: Status): nat
    requires s.start <= s.end
  {
    if s.Active? then s.end - s.start else 0
  }

  function TotalOverlap(updates: seq<Update>, w: Window): nat
    requires ProperUpdates(updates) && w.start <= w.end
  {
    if updates == [] then 0
    else TotalOverlap(updates[..|updates| - 1], w) + Overlap(updates[|updates| - 1].status, w)
  }

  function TotalActive(updates: seq<Update>): nat
    requires ProperUpdates(updates)
  {
    if updates == [] then 0
    else TotalActive(updates[..|updates| - 1]) + ActiveTime(updates[|updates| - 1].status)
  }

  function OverlapSum(s: Status, ws: seq<Window>): nat
    requires s.start <= s.end && Proper(ws)
  {
    if ws == [] then 0 else OverlapSum(s, ws[..|ws| - 1]) + Overlap(s, ws[|ws| - 1])
  }

  function OverlapTotals(updates: seq<Update>, ws: seq<Window>): nat
    requires ProperUpdates(updates) && Proper(ws)
  {
    if ws == [] then 0 else OverlapTotals(updates, ws[..|ws| - 1]) + TotalOverlap(updates, ws[|ws| - 1])
  }

  /** A status within one window overlaps no other. */
  lemma {:induction false} OverlapOnce(s: Status, ws: seq<Window>, i: nat)
    requires s.start <= s.end && Gapped(ws) && (i < |ws| ==> Within(Window(s.start, s.end), ws, i))
    requires i >= |ws| ==> forall j :: 0 <= j < |ws| ==> ws[j].end < s.start
    ensures OverlapSum(s, ws) == if i < |ws| then ActiveTime(s) else 0
  {
    if ws != [] {
      var init, last := ws[..|ws| - 1], ws[|ws| - 1];
      if i == |ws| - 1 {
        assert forall j :: 0 <= j < |init| ==> init[j].end < last.start;
      }
      OverlapOnce(s, init, i);
    }
  }

  lemma {:induction false} SumsExchange(updates: seq<Update>, ws: seq<Window>)
    requires ProperUpdates(updates) && updates != [] && Proper(ws)
    ensures OverlapTotals(updates, ws) ==
      OverlapTotals(updates[..|updates| - 1], ws) + OverlapSum(updates[|updates| - 1].status, ws)
  {
    if ws != [] { SumsExchange(updates, ws[..|ws| - 1]); }
  }

  lemma {:induction false} NoOverlap(ws: seq<Window>)
    requires Proper(ws)
    ensures OverlapTotals([], ws) == 0
  {
    if ws != [] { NoOverlap(ws[..|ws| - 1]); }
  }

  /** Over windows apart from each other that hold every update, the overlaps add up to the time active. */
  lemma {:induction false} OverlapConserved(updates: seq<Update>, ws: seq<Window>)
    requires ProperUpdates(updates) && Gapped(ws)
    requires forall k :: 0 <= k < |updates| ==> HeldBy(WindowOf(updates[k]), ws)
    ensures OverlapTotals(updates, ws) == TotalActive(updates)
  {
    if updates == [] {
      NoOverlap(ws);
    } else {
      var init, last := updates[..|updates| - 1], updates[|updates| - 1];
      assert forall k :: 0 <= k < |init| ==> init[k] == updates[k];
      OverlapConserved(init, ws);
      SumsExchange(updates, ws);
      assert HeldBy(WindowOf(last), ws);
      var i: nat :| Within(WindowOf(last), ws, i);
      OverlapOnce(last.status, ws, i);
    }
  }

  /** Conservation: the active time found in the merged windows is the time the workers were active. */
  lemma ActiveTimeConserved(updates: seq<Update>)
    requires ProperUpdates(updates)
    ensures Gapped(WindowsMerged(updates))
    ensures OverlapTotals(updates, WindowsMerged(updates)) == TotalActive(updates)
  {
    WindowsGapped(updates);
    forall k | 0 <= k < |updates| ensures HeldBy(WindowOf(updates[k]), WindowsMerged(updates)) {
      var i := UpdateWithin(updates, k);
    }
    OverlapConserved(updates, WindowsMerged(updates));
  }

  // ---- Sums over the threads, in whatever order a hash map yields them ----

  ghost function SumOver(f: nat -> nat, keys: set<nat>): nat
    decreases |keys|
  {
    if keys == {} then 0
    else
      var t :| t in keys;
      f(t) + SumOver(f, keys - {t})
  }

  lemma {:induction false} SumRemove(f: nat -> nat, keys: set<nat>, t: nat)
    requires t in keys
    ensures SumOver(f, keys) == f(t) + SumOver(f, keys - {t})
    decreases |keys|
  {
    var first :| first in keys && SumOver(f, keys) == f(first) + SumOver(f, keys - {first});
    if first != t {
      SumRemove(f, keys - {first}, t);
      SumRemove(f, keys - {t}, first);
      assert keys - {first} - {t} == keys - {t} - {first};
    }
  }

  lemma {:induction false} SumSame(f: nat -> nat, g: nat -> nat, keys: set<nat>)
    requires forall t :: t in keys ==> f(t) == g(t)
    ensures SumOver(f, keys) == SumOver(g, keys)
    decreases |keys|
  {
    if keys != {} {
      var t :| t in keys;
      SumRemove(f, keys, t);
      SumRemove(g, keys, t);
      SumSame(f, g, keys - {t});
    }
  }

  lemma SumShift(f: nat -> nat, g: nat -> nat, keys: set<nat>, t: nat, d: nat)
    requires t in keys && g(t) == f(t) + d && forall u :: u in keys && u != t ==> f(u) == g(u)
    ensures SumOver(g, keys) == SumOver(f, keys) + d
  {
    SumRemove(f, keys, t);
    SumRemove(g, keys, t);
    SumSame(f, g, keys - {t});
  }

  lemma {:induction false} SumBound(f: nat -> nat, keys: set<nat>, c: nat)
    requires forall t :: t in keys ==> f(t) <= c
    ensures SumOver(f, keys) <= |keys| * c
    decreases |keys|
  {
    if keys != {} {
      var t :| t in keys;
      SumRemove(f, keys, t);
      SumBound(f, keys - {t}, c);
      assert |keys| * c == (|keys| - 1) * c + c;
    }
  }

  /** The statuses of one thread, in order. */
  function StatusesOf(updates: seq<Update>, t: nat): seq<Status> {
    if updates == [] then []
    else
      var init, last := StatusesOf(updates[..|updates| - 1], t), updates[|updates| - 1];
      if last.thread == t then init + [last.status] else init
  }

  function Threads(updates: seq<Update>): set<nat> {
    if updates == [] then {} else Threads(updates[..|updates| - 1]) + {updates[|updates| - 1].thread}
  }

  /** The threads that sent an update. */
  ghost function Senders(updates: seq<Update>): set<nat> {
    set k | 0 <= k < |updates| :: updates[k].thread
  }

  lemma {:induction false} ThreadsAreSenders(updates: seq<Update>)
    ensures Threads(updates) == Senders(updates)
    ensures forall t :: t in Threads(updates) <==> exists k :: 0 <= k < |updates| && updates[k].thread == t
  {
    if updates != [] {
      var init := updates[..|updates| - 1];
      ThreadsAreSenders(init);
      assert forall k :: 0 <= k < |init| ==> init[k] == updates[k];
      assert Senders(updates) == Senders(init) + {updates[|updates| - 1].thread};
    }
  }

  ghost predicate ProperStatuses(ss: seq<Status>) {
    forall i :: 0 <= i < |ss| ==> ss[i].start <= ss[i].end
  }

  lemma {:induction false} StatusesProper(updates: seq<Update>, t: nat)
    requires ProperUpdates(updates)
    ensures ProperStatuses(StatusesOf(updates, t))
  {
    if updates != [] { StatusesProper(updates[..|updates| - 1], t); }
  }

  ghost function ThreadOverlap(updates: seq<Update>, w: Window, t: nat): nat
    requires ProperUpdates(updates) && w.start <= w.end
  {
    if updates == [] then 0
    else
      var last := updates[|updates| - 1];
      ThreadOverlap(updates[..|updates| - 1], w, t) + if last.thread == t then Overlap(last.status, w) else 0
  }

  ghost function ThreadActive(updates: seq<Update>, t: nat): nat
    requires ProperUpdates(updates)
  {
    if updates == [] then 0
    else
      var last := updates[|updates| - 1];
      ThreadActive(updates[..|updates| - 1], t) + if last.thread == t then ActiveTime(last.status) else 0
  }

  lemma {:induction false} SumOfZeros(f: nat -> nat, keys: set<nat>)
    requires forall t :: t in keys ==> f(t) == 0
    ensures SumOver(f, keys) == 0
  {
    SumBound(f, keys, 0);
  }

  ghost function OverlapBy(updates: seq<Update>, w: Window): nat -> nat
    requires ProperUpdates(updates) && w.start <= w.end
  {
    (t: nat) => ThreadOverlap(updates, w, t)
  }

  ghost function ActiveBy(updates: seq<Update>): nat -> nat
    requires ProperUpdates(updates)
  {
    (t: nat) => ThreadActive(updates, t)
  }

  /** Grouping by thread loses nothing and counts nothing twice. */
  lemma {:induction false} GroupedOverlap(updates: seq<Update>, w: Window, keys: set<nat>)
    requires ProperUpdates(updates) && w.start <= w.end && Threads(updates) <= keys
    ensures SumOver(OverlapBy(updates, w), keys) == TotalOverlap(updates, w)
  {
    if updates == [] {
      SumOfZeros(OverlapBy(updates, w), keys);
    } else {
      var init, last := updates[..|updates| - 1], updates[|updates| - 1];
      GroupedOverlap(init, w, keys);
      SumShift(OverlapBy(init, w), OverlapBy(updates, w), keys, last.thread, Overlap(last.status, w));
    }
  }

  lemma {:induction false} GroupedActive(updates: seq<Update>, keys: set<nat>)
    requires ProperUpdates(updates) && Threads(updates) <= keys
    ensures SumOver(ActiveBy(updates), keys) == TotalActive(updates)
  {
    if updates == [] {
      SumOfZeros(ActiveBy(updates), keys);
    } else {
      var init, last := updates[..|updates| - 1], updates[|updates| - 1];
      GroupedActive(init, keys);
      SumShift(ActiveBy(init), ActiveBy(updates), keys, last.thread, ActiveTime(last.status));
    }
  }

  // ---- The time a thread was active fits into the windows ----

  /** The instants from `a` on, before `b`. */
  ghost function Range(a: nat, b: nat): (r: set<nat>)
    ensures forall t :: t in r <==> a <= t < b
    decreases b
  {
    if a < b then Range(a, b - 1) + {b - 1} else {}
  }

  lemma {:induction false} RangeSize(a: nat, b: nat)
    requires a <= b
    ensures |Range(a, b)| == b - a
    decreases b
  {
    if a < b { RangeSize(a, b - 1); }
  }

  function Length(ws: seq<Window>): nat
    requires Proper(ws)
  {
    if ws == [] then 0 else Length(ws[..|ws| - 1]) + (ws[|ws| - 1].end - ws[|ws| - 1].start)
  }

  ghost function WindowPoints(ws: seq<Window>): set<nat> {
    if ws == [] then {} else WindowPoints(ws[..|ws| - 1]) + Range(ws[|ws| - 1].start, ws[|ws| - 1].end)
  }

  lemma {:induction false} WindowPointsIn(ws: seq<Window>, p: nat)
    ensures p in WindowPoints(ws) <==> exists i :: 0 <= i < |ws| && ws[i].start <= p < ws[i].end
  {
    if ws != [] {
      var init := ws[..|ws| - 1];
      WindowPointsIn(init, p);
      assert forall i :: 0 <= i < |init| ==> init[i] == ws[i];
    }
  }

  lemma {:induction false} LengthIsPoints(ws: seq<Window>)
    requires Gapped(ws)
    ensures |WindowPoints(ws)| == Length(ws)
  {
    if ws != [] {
      var init, last := ws[..|ws| - 1], ws[|ws| - 1];
      LengthIsPoints(init);
      RangeSize(last.start, last.end);
      forall p | p in WindowPoints(init) ensures p !in Range(last.start, last.end) {
        WindowPointsIn(init, p);
      }
    }
  }

  /** The instants thread `t` was active. */
  ghost function ActivePoints(updates: seq<Update>, t: nat): set<nat> {
    if updates == [] then {}
    else
      var last := updates[|updates| - 1];
      ActivePoints(updates[..|updates| - 1], t) +
      if last.thread == t && last.status.Active? then Range(last.status.start, last.status.end) else {}
  }

  /** No thread is active twice at the same time. */
  ghost predicate ActiveApart(updates: seq<Update>) {
    forall i, j :: 0 <= i < j < |updates| && updates[i].thread == updates[j].thread &&
                   updates[i].status.Active? && updates[j].status.Active? ==>
      Range(updates[i].status.start, updates[i].status.end) !! Range(updates[j].status.start, updates[j].status.end)
  }

  lemma {:induction false} ActivePointsIn(updates: seq<Update>, t: nat, p: nat)
    requires p in ActivePoints(updates, t)
    ensures exists i :: 0 <= i < |updates| && updates[i].thread == t && updates[i].status.Active? &&
                        updates[i].status.start <= p < updates[i].status.end
  {
    var init, last := updates[..|updates| - 1], updates[|updates| - 1];
    if p in ActivePoints(init, t) {
      ActivePointsIn(init, t, p);
      assert forall i :: 0 <= i < |init| ==> init[i] == updates[i];
    } else {
      assert last == updates[|updates| - 1];
    }
  }

  lemma {:induction false} ActiveIsPoints(updates: seq<Update>, t: nat)
    requires ProperUpdates(updates) && ActiveApart(updates)
    ensures |ActivePoints(updates, t)| == ThreadActive(updates, t)
  {
    if updates != [] {
      var init, last := updates[..|updates| - 1], updates[|updates| - 1];
      ActiveIsPoints(init, t);
      if last.thread == t && last.status.Active? {
        RangeSize(last.status.start, last.status.end);
        forall p | p in ActivePoints(init, t) ensures p !in Range(last.status.start, last.status.end) {
          ActivePointsIn(init, t, p);
          var i :| 0 <= i < |init| && init[i].thread == t && init[i].status.Active? &&
                   init[i].status.start <= p < init[i].status.end;
          assert p in Range(updates[i].status.start, updates[i].status.end);
        }
      }
    }
  }

  lemma ThreadActiveFits(updates: seq<Update>, t: nat)
    requires ProperUpdates(updates) && ActiveApart(updates)
    ensures Gapped(WindowsMerged(updates)) && ThreadActive(updates, t) <= Length(WindowsMerged(updates))
  {
    var ws := WindowsMerged(updates);
    WindowsGapped(updates);
    ActiveIsPoints(updates, t);
    LengthIsPoints(ws);
    forall p | p in ActivePoints(updates, t) ensures p in WindowPoints(ws) {
      ActivePointsIn(updates, t, p);
      var k :| 0 <= k < |updates| && updates[k].thread == t && updates[k].status.Active? &&
               updates[k].status.start <= p < updates[k].status.end;
      var i := UpdateWithin(updates, k);
      WindowPointsIn(ws, p);
      assert ws[i].start <= p < ws[i].end;
    }
    SubsetSize(ActivePoints(updates, t), WindowPoints(ws));
  }

  /** All threads together are active for no longer than the windows last times their number. */
  lemma TotalActiveFits(updates: seq<Update>)
    requires ProperUpdates(updates) && ActiveApart(updates)
    ensures Gapped(WindowsMerged(updates))
    ensures TotalActive(updates) <= |Threads(updates)| * Length(WindowsMerged(updates))
  {
    WindowsGapped(updates);
    var c := Length(WindowsMerged(updates));
    GroupedActive(updates, Threads(updates));
    forall t | t in Threads(updates) ensures ActiveBy(updates)(t) <= c { ThreadActiveFits(updates, t); }
    SumBound(ActiveBy(updates), Threads(updates), c);
  }

  // ---- The summary ----

  datatype ThreadLoadSummary = ThreadLoadSummary(
    totalDuration: nat, weightedLoad: Option<real>, averageLoad: Option<real>, mergedWindows: nat)

  ghost predicate AllPositive(ws: seq<Window>) {
    forall i :: 0 <= i < |ws| ==> ws[i].start < ws[i].end
  }

  ghost predicate GroupsOf(groups: map<nat, seq<Status>>, updates: seq<Update>) {
    && groups.Keys == Threads(updates)
    && forall t :: t in groups ==> groups[t] == StatusesOf(updates, t)
  }

  /** The windows of the updates, and their statuses by thread. */
  method Collect(updates: seq<Update>) returns (windows: seq<Window>, groups: map<nat, seq<Status>>)
    ensures windows == WindowsOf(updates) && GroupsOf(groups, updates)
  {
    windows, groups := [], map[];
    for i := 0 to |updates|
      invariant windows == WindowsOf(updates[..i]) && GroupsOf(groups, updates[..i])
    {
      var u := updates[i];
      assert updates[..i + 1][..i] == updates[..i];
      NotYetSeen(updates[..i], u.thread);
      windows := windows + [WindowOf(u)];
      groups := groups[u.thread := (if u.thread in groups then groups[u.thread] else []) + [u.status]];
    }
    assert updates[..|updates|] == updates;
  }

  lemma {:induction false} NotYetSeen(updates: seq<Update>, t: nat)
    ensures t !in Threads(updates) ==> StatusesOf(updates, t) == []
  {
    if updates != [] { NotYetSeen(updates[..|updates| - 1], t); }
  }

  ghost function StatusOverlap(ss: seq<Status>, w: Window): nat
    requires ProperStatuses(ss) && w.start <= w.end
  {
    if ss == [] then 0 else StatusOverlap(ss[..|ss| - 1], w) + Overlap(ss[|ss| - 1], w)
  }

  lemma {:induction false} StatusOverlapIs(updates: seq<Update>, w: Window, t: nat)
    requires ProperUpdates(updates) && w.start <= w.end
    ensures ProperStatuses(StatusesOf(updates, t))
    ensures StatusOverlap(StatusesOf(updates, t), w) == ThreadOverlap(updates, w, t)
  {
    StatusesProper(updates, t);
    if updates != [] {
      var init, last := updates[..|updates| - 1], updates[|updates| - 1];
      StatusOverlapIs(init, w, t);
      var ss := StatusesOf(init, t);
      if last.thread == t { assert (ss + [last.status])[..|ss|] == ss; }
    }
  }

  /** How long the threads were active within one window, summing over the groups in any order. */
  method ActiveWithin(groups: map<nat, seq<Status>>, w: Window, ghost updates: seq<Update>) returns (active: nat)
    requires ProperUpdates(updates) && GroupsOf(groups, updates) && w.start <= w.end
    ensures active == TotalOverlap(updates, w)
  {
    active := 0;
    var todo := groups.Keys;
    GroupedOverlap(updates, w, todo);
    while todo != {}
      invariant todo <= groups.Keys
      invariant active + SumOver(OverlapBy(updates, w), todo) == TotalOverlap(updates, w)
      decreases |todo|
    {
      var t :| t in todo;
      SumRemove(OverlapBy(updates, w), todo, t);
      StatusOverlapIs(updates, w, t);
      var n := ActiveOf(groups[t], w);
      active := active + n;
      todo := todo - {t};
    }
  }

  method ActiveOf(statuses: seq<Status>, w: Window) returns (active: nat)
    requires ProperStatuses(statuses) && w.start <= w.end
    ensures active == StatusOverlap(statuses, w)
  {
    active := 0;
    for i := 0 to |statuses|
      invariant active == StatusOverlap(statuses[..i], w)
    {
      assert statuses[..i + 1][..i] == statuses[..i];
      match statuses[i] {
        case Active(start, end) =>
          if start < w.end && end > w.start {
            active := active + (Min(end, w.end) - Max(start, w.start));
          }
        case Idle(_, _) =>
      }
    }
    assert statuses[..|statuses|] == statuses;
  }

  function Times(a: real, b: real): real {
    a * b
  }

  function Over(a: real, b: real): real
    requires b != 0.0
  {
    a / b
  }

  lemma Cancel(x: real, y: real, b: real)
    requires b != 0.0 && x * b == y * b
    ensures x == y
  {
    assert (x - y) * b == 0.0;
  }

  lemma OverIs(a: real, b: real, q: real)
    requires b != 0.0 && Times(q, b) == a
    ensures Over(a, b) == q
  {
    assert a / b * b == a;
    Cancel(a / b, q, b);
  }

  lemma Distribute(u: real, v: real, n: real)
    ensures Times(u + v, n) == Times(u, n) + Times(v, n)
  {}

  lemma Reassociate(x: real, d: real, n: real)
    ensures Times(Times(x, d), n) == Times(x, Times(d, n))
  {}

  lemma Weighted(active: real, duration: real, threads: real, sum: real)
    requires duration > 0.0 && threads > 0.0
    ensures Times(duration, threads) != 0.0
    ensures Over(sum, threads) + Times(Over(active, Times(duration, threads)), duration) == Over(sum + active, threads)
  {
    assert duration * threads > 0.0;
    var x, u := Over(active, Times(duration, threads)), Over(sum, threads);
    Reassociate(x, duration, threads);
    Distribute(u, Times(x, duration), threads);
    OverIs(sum + active, threads, u + Times(x, duration));
  }

  /** Floating-point division, with no number for a division by zero. */
  function Quotient(a: real, b: real): Option<real> {
    if b == 0.0 then None else Some(Over(a, b))
  }

  /** The weighted load after one more window. */
  function AddLoad(weighted: Option<real>, active: real, duration: real, threads: real): Option<real> {
    var load := Quotient(active, Times(duration, threads));
    if weighted.Some? && load.Some? then Some(weighted.value + Times(load.value, duration)) else None
  }

  lemma AddLoadIsShare(sum: real, active: real, duration: real, threads: real)
    requires threads > 0.0 && duration >= 0.0
    ensures AddLoad(Some(Over(sum, threads)), active, duration, threads) ==
      if duration > 0.0 then Some(Over(sum + active, threads)) else None
  {
    if duration > 0.0 {
      Weighted(active, duration, threads, sum);
    } else {
      assert Times(duration, threads) == 0.0;
    }
  }

  function Share(time: nat, threads: nat): real
    requires threads > 0
  {
    Over(time as real, threads as real)
  }

  lemma ThreadsOf(updates: seq<Update>)
    requires updates != []
    ensures |Threads(updates)| > 0
  {
    assert updates[|updates| - 1].thread in Threads(updates);
  }

  /** What the weighted load is after some of the windows: the share of time active, unless one of
      the windows had no duration. */
  ghost function LoadOver(updates: seq<Update>, ws: seq<Window>): Option<real>
    requires ProperUpdates(updates) && Gapped(ws) && |Threads(updates)| > 0
  {
    if AllPositive(ws) then Some(Share(OverlapTotals(updates, ws), |Threads(updates)|)) else None
  }

  lemma LoadNext(updates: seq<Update>, ws: seq<Window>, i: nat)
    requires ProperUpdates(updates) && Gapped(ws) && |Threads(updates)| > 0 && i < |ws|
    ensures Gapped(ws[..i]) && Gapped(ws[..i + 1])
    ensures LoadOver(updates, ws[..i + 1]) ==
      AddLoad(LoadOver(updates, ws[..i]), TotalOverlap(updates, ws[i]) as real, (ws[i].end - ws[i].start) as real,
              |Threads(updates)| as real)
    ensures Length(ws[..i + 1]) == Length(ws[..i]) + (ws[i].end - ws[i].start)
  {
    var init, next := ws[..i], ws[..i + 1];
    assert next[..i] == init && next[i] == ws[i];
    assert AllPositive(next) <==> AllPositive(init) && ws[i].start < ws[i].end;
    AddLoadIsShare(OverlapTotals(updates, init) as real, TotalOverlap(updates, ws[i]) as real,
                   (ws[i].end - ws[i].start) as real, |Threads(updates)| as real);
  }

  method WeighWindows(merged: seq<Window>, groups: map<nat, seq<Status>>, ghost updates: seq<Update>)
    returns (total: nat, weighted: Option<real>)
    requires ProperUpdates(updates) && GroupsOf(groups, updates) && Gapped(merged) && |groups.Keys| > 0
    ensures total == Length(merged) && weighted == LoadOver(updates, merged)
  {
    total, weighted := 0, Some(0.0);
    assert merged[..0] == [];
    for i := 0 to |merged|
      invariant Gapped(merged[..i]) && total == Length(merged[..i]) && weighted == LoadOver(updates, merged[..i])
    {
      LoadNext(updates, merged, i);
      var active := ActiveWithin(groups, merged[i], updates);
      total := total + (merged[i].end - merged[i].start);
      weighted := AddLoad(weighted, active as real, (merged[i].end - merged[i].start) as real, |groups.Keys| as real);
    }
    assert merged[..|merged|] == merged;
  }

  /** The weighted load is the share of their time the threads were active, and the average is the
      share of the available time; they are numbers exactly when every merged window has a duration,
      the average only if there are updates. */
  method CalculateThreadLoadSummary(updates: seq<Update>) returns (r: ThreadLoadSummary)
    requires ProperUpdates(updates)
    ensures Gapped(WindowsMerged(updates))
    ensures r.mergedWindows == |WindowsMerged(updates)| && r.totalDuration == Length(WindowsMerged(updates))
    ensures r.weightedLoad.Some? <==> AllPositive(WindowsMerged(updates))
    ensures updates == [] ==> r.weightedLoad == Some(0.0)
    ensures updates != [] && r.weightedLoad.Some? ==>
      |Senders(updates)| > 0 && r.weightedLoad.value == Share(TotalActive(updates), |Senders(updates)|)
    ensures r.averageLoad.Some? <==> updates != [] && AllPositive(WindowsMerged(updates))
    ensures r.averageLoad.Some? ==>
      && |Senders(updates)| > 0 && r.totalDuration > 0
      && r.averageLoad.value == Over(Share(TotalActive(updates), |Senders(updates)|), r.totalDuration as real)
  {
    var windows, groups := Collect(updates);
    WindowsGapped(updates);
    var merged := MergeTimeWindows(Sorted(windows));
    if updates == [] {
      return ThreadLoadSummary(0, Some(0.0), Quotient(0.0, 0.0), 0);
    }
    ThreadsOf(updates);
    ThreadsAreSenders(updates);
    var total, weighted := WeighWindows(merged, groups, updates);
    ActiveTimeConserved(updates);
    AverageIs(updates);
    r := ThreadLoadSummary(total, weighted, Average(weighted, total), |merged|);
  }

  function Average(weighted: Option<real>, total: nat): Option<real> {
    if weighted.None? then None else Quotient(weighted.value, total as real)
  }

  lemma AverageIs(updates: seq<Update>)
    requires ProperUpdates(updates) && updates != [] && |Threads(updates)| > 0 && Gapped(WindowsMerged(updates))
    ensures var merged := WindowsMerged(updates);
      if AllPositive(merged) then
        && Length(merged) > 0
        && Average(LoadOver(updates, merged), Length(merged)) ==
           Some(Over(Share(TotalActive(updates), |Threads(updates)|), Length(merged) as real))
      else Average(LoadOver(updates, merged), Length(merged)).None?
  {
    ActiveTimeConserved(updates);
    LastsSomeTime(updates);
  }

  /** Windows with a duration last some time together, if there is one. */
  lemma LastsSomeTime(updates: seq<Update>)
    requires ProperUpdates(updates) && updates != [] && Gapped(WindowsMerged(updates))
    ensures AllPositive(WindowsMerged(updates)) ==> Length(WindowsMerged(updates)) > 0
  {
    var i := UpdateWithin(updates, 0);
    var ws := WindowsMerged(updates);
    assert ws != [];
    assert ws[|ws| - 1].start <= ws[|ws| - 1].end;
  }

  // ---- When the average is a number, and how large it can be ----

  /** An update without duration that no update with a duration touches. */
  ghost predicate LoneInstant(updates: seq<Update>, k: nat)
    requires k < |updates|
  {
    && updates[k].status.start == updates[k].status.end
    && forall j :: 0 <= j < |updates| && updates[j].status.start <= updates[k].status.start <= updates[j].status.end ==>
         updates[j].status.start == updates[j].status.end
  }

  ghost predicate Touched(updates: seq<Update>, t: real) {
    exists k :: 0 <= k < |updates| && WindowOf(updates[k]).Holds(t)
  }

  lemma CoversUpdates(updates: seq<Update>, t: real)
    requires Covers(WindowsMerged(updates), t)
    ensures Touched(updates, t)
  {
    SortedElements(updates);
    var ws := Sorted(WindowsOf(updates));
    MergedCovers(ws, t);
    var i :| 0 <= i < |ws| && ws[i].Holds(t);
    var k :| 0 <= k < |updates| && ws[i] == WindowOf(updates[k]);
  }

  /** Next to a point of a window with a duration there is an update with a duration. */
  lemma TouchedByPositive(updates: seq<Update>, i: nat, t: nat) returns (k: nat)
    requires ProperUpdates(updates) && i < |WindowsMerged(updates)|
    requires WindowsMerged(updates)[i].start <= t <= WindowsMerged(updates)[i].end
    requires WindowsMerged(updates)[i].start < WindowsMerged(updates)[i].end
    ensures k < |updates| && updates[k].status.start <= t <= updates[k].status.end
    ensures updates[k].status.start < updates[k].status.end
  {
    var w := WindowsMerged(updates)[i];
    var p := if t < w.end then t as real + 0.5 else t as real - 0.5;
    assert w.Holds(p);
    CoversUpdates(updates, p);
    var j :| 0 <= j < |updates| && WindowOf(updates[j]).Holds(p);
    k := j;
  }

  /** A merged window comes from an update that starts where it does. */
  lemma {:induction false} MergedFrom(ws: seq<Window>, i: nat) returns (k: nat)
    requires SortedByStart(ws) && i < |Merged(ws)|
    ensures k < |ws| && ws[k].start == Merged(ws)[i].start
  {
    var init := ws[..|ws| - 1];
    if i < |Merged(init)| {
      k := MergedFrom(init, i);
    } else {
      k := |ws| - 1;
    }
  }

  /** Every merged window has a duration exactly when no update is a lone instant. */
  lemma PositiveExactly(updates: seq<Update>)
    requires ProperUpdates(updates)
    ensures AllPositive(WindowsMerged(updates)) <==> forall k: nat :: k < |updates| ==> !LoneInstant(updates, k)
  {
    var merged := WindowsMerged(updates);
    WindowsGapped(updates);
    if AllPositive(merged) {
      forall k: nat | k < |updates| ensures !LoneInstant(updates, k) {
        var i := UpdateWithin(updates, k);
        var j := TouchedByPositive(updates, i, updates[k].status.start);
      }
    } else {
      var i: nat :| i < |merged| && merged[i].start >= merged[i].end;
      var k := LoneFrom(updates, i);
    }
  }

  /** A worker that was active for an instant only: the average is not a number. */
  lemma InstantFails()
    ensures var updates := [Update(0, Active(5, 5))];
      ProperUpdates(updates) && LoneInstant(updates, 0) && !AllPositive(WindowsMerged(updates))
  {
    var updates := [Update(0, Active(5, 5))];
    assert LoneInstant(updates, 0);
    PositiveExactly(updates);
  }

  lemma LoneFrom(updates: seq<Update>, i: nat) returns (k: nat)
    requires ProperUpdates(updates) && Gapped(WindowsMerged(updates)) && i < |WindowsMerged(updates)|
    requires WindowsMerged(updates)[i].start == WindowsMerged(updates)[i].end
    ensures k < |updates| && LoneInstant(updates, k)
  {
    var merged, ws := WindowsMerged(updates), Sorted(WindowsOf(updates));
    SortedElements(updates);
    var j := MergedFrom(ws, i);
    var u :| 0 <= u < |updates| && ws[j] == WindowOf(updates[u]);
    k := u;
    var t := merged[i].start;
    forall v | 0 <= v < |updates| && updates[v].status.start <= t <= updates[v].status.end
      ensures updates[v].status.start == updates[v].status.end == t
    {
      SameWindow(updates, v, i, t);
    }
    SameWindow(updates, k, i, t);
  }

  /** An update that touches a point of a merged window lies within it. */
  lemma SameWindow(updates: seq<Update>, v: nat, i: nat, t: nat)
    requires ProperUpdates(updates) && Gapped(WindowsMerged(updates)) && v < |updates| && i < |WindowsMerged(updates)|
    requires WindowsMerged(updates)[i].start <= t <= WindowsMerged(updates)[i].end
    requires updates[v].status.start <= t <= updates[v].status.end
    ensures Within(WindowOf(updates[v]), WindowsMerged(updates), i)
  {
    var j := UpdateWithin(updates, v);
    var ws := WindowsMerged(updates);
    OneWindow(ws, i, j, t);
  }

  lemma OneWindow(ws: seq<Window>, i: nat, j: nat, t: nat)
    requires Gapped(ws) && i < |ws| && j < |ws| && ws[i].start <= t <= ws[i].end && ws[j].start <= t <= ws[j].end
    ensures i == j
  {}

  /** The average load is between 0 and 1 when no thread is active twice at the same time. */
  lemma AverageAtMostOne(updates: seq<Update>)
    requires ProperUpdates(updates) && ActiveApart(updates) && updates != []
    requires Gapped(WindowsMerged(updates)) && AllPositive(WindowsMerged(updates))
    ensures |Senders(updates)| > 0 && Length(WindowsMerged(updates)) > 0
    ensures 0.0 <= Over(Share(TotalActive(updates), |Senders(updates)|), Length(WindowsMerged(updates)) as real) <= 1.0
  {
    ThreadsOf(updates);
    ThreadsAreSenders(updates);
    LastsSomeTime(updates);
    TotalActiveFits(updates);
    FractionOf(TotalActive(updates), |Threads(updates)|, Length(WindowsMerged(updates)));
  }

  /** Every thread was active at every instant of the windows. */
  ghost predicate AlwaysActive(updates: seq<Update>) {
    forall t, p :: t in Senders(updates) && p in WindowPoints(WindowsMerged(updates)) ==> ActiveAt(updates, t, p)
  }

  ghost predicate ActiveAt(updates: seq<Update>, t: nat, p: nat) {
    exists k :: 0 <= k < |updates| && updates[k].thread == t && updates[k].status.Active? &&
                updates[k].status.start <= p < updates[k].status.end
  }

  /** The average load is exactly 1 when every thread was active throughout, once at a time. */
  lemma AverageIsOne(updates: seq<Update>)
    requires ProperUpdates(updates) && ActiveApart(updates) && updates != [] && AlwaysActive(updates)
    requires Gapped(WindowsMerged(updates)) && AllPositive(WindowsMerged(updates))
    ensures |Senders(updates)| > 0 && Length(WindowsMerged(updates)) > 0
    ensures Over(Share(TotalActive(updates), |Senders(updates)|), Length(WindowsMerged(updates)) as real) == 1.0
  {
    ThreadsOf(updates);
    ThreadsAreSenders(updates);
    LastsSomeTime(updates);
    var c, threads := Length(WindowsMerged(updates)), Threads(updates);
    GroupedActive(updates, threads);
    forall t | t in threads ensures ActiveBy(updates)(t) == c { ThreadAlwaysActive(updates, t); }
    SumOfSame(ActiveBy(updates), threads, c);
    WholeIs(TotalActive(updates), |threads|, c);
  }

  lemma ThreadAlwaysActive(updates: seq<Update>, t: nat)
    requires ProperUpdates(updates) && ActiveApart(updates) && AlwaysActive(updates) && t in Senders(updates)
    ensures Gapped(WindowsMerged(updates)) && ThreadActive(updates, t) == Length(WindowsMerged(updates))
  {
    var ws := WindowsMerged(updates);
    ThreadActiveFits(updates, t);
    ActiveIsPoints(updates, t);
    LengthIsPoints(ws);
    forall p | p in WindowPoints(ws) ensures p in ActivePoints(updates, t) {
      assert ActiveAt(updates, t, p);
      ActivePointsHas(updates, t, p);
    }
    SubsetSize(WindowPoints(ws), ActivePoints(updates, t));
  }

  lemma {:induction false} ActivePointsHas(updates: seq<Update>, t: nat, p: nat)
    requires ActiveAt(updates, t, p)
    ensures p in ActivePoints(updates, t)
  {
    var k :| 0 <= k < |updates| && updates[k].thread == t && updates[k].status.Active? &&
             updates[k].status.start <= p < updates[k].status.end;
    var init := updates[..|updates| - 1];
    if k < |init| {
      assert init[k] == updates[k];
      ActivePointsHas(init, t, p);
    }
  }

  lemma {:induction false} SumOfSame(f: nat -> nat, keys: set<nat>, c: nat)
    requires forall t :: t in keys ==> f(t) == c
    ensures SumOver(f, keys) == |keys| * c
    decreases |keys|
  {
    if keys != {} {
      var t :| t in keys;
      SumRemove(f, keys, t);
      SumOfSame(f, keys - {t}, c);
      assert |keys| * c == (|keys| - 1) * c + c;
    }
  }

  lemma WholeIs(a: nat, n: nat, l: nat)
    requires a == n * l && n > 0 && l > 0
    ensures Over(Share(a, n), l as real) == 1.0
  {
    RealProduct(n, l);
    assert Over(a as real, n as real) == l as real by {
      assert a as real == (n as real) * (l as real) == (l as real) * (n as real);
      OverIs(a as real, n as real, l as real);
    }
    OverIs(l as real, l as real, 1.0);
  }

  lemma FractionOf(a: nat, n: nat, l: nat)
    requires a <= n * l && n > 0 && l > 0
    ensures 0.0 <= Over(Share(a, n), l as real) <= 1.0
  {
    RealProduct(n, l);
    Fraction(a as real, n as real, l as real);
  }

  lemma {:induction false} RealProduct(a: nat, b: nat)
    ensures (a * b) as real == a as real * b as real
  {
    if a > 0 {
      RealProduct(a - 1, b);
      assert a * b == (a - 1) * b + b;
      assert a as real == (a - 1) as real + 1.0;
    }
  }

  lemma AtMost(x: real, y: real, b: real)
    requires b > 0.0 && x * b <= y * b
    ensures x <= y
  {
    assert (x - y) * b <= 0.0;
  }

  lemma Fraction(a: real, n: real, l: real)
    requires 0.0 <= a <= n * l && n > 0.0 && l > 0.0
    ensures 0.0 <= Over(Over(a, n), l) <= 1.0
  {
    var q := Over(a, n);
    assert q * n == a && n * l == l * n;
    AtMost(q, l, n);
    var r := Over(q, l);
    assert r * l == q == r * l;
    AtMost(r, 1.0, l);
  }
}
