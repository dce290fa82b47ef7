/** Merging time windows into the one list of disjoint windows that covers the same points. */
module TimeWindows {
  import opened Basics

  datatype Window = Window(start: nat, end: nat) {
    predicate Holds(t: real) {
      start as real <= t <= end as real
    }
  }

  ghost predicate Covers(ws: seq<Window>, t: real) {
    exists i :: 0 <= i < |ws| && ws[i].Holds(t)
  }

  ghost predicate Proper(ws: seq<Window>) {
    forall i :: 0 <= i < |ws| ==> ws[i].start <= ws[i].end
  }

  ghost predicate SortedByStart(ws: seq<Window>) {
    forall i, j :: 0 <= i < j < |ws| ==> ws[i].start <= ws[j].start
  }

  /** In order, and apart from each other. */
  ghost predicate Gapped(ws: seq<Window>) {
    && Proper(ws)
    && forall i, j :: 0 <= i < j < |ws| ==> ws[i].end < ws[j].start
  }

  // ---- Merging ----

  /** One more window: it extends the last one if it starts within it or at its end. */
  function Absorbed(merged: seq<Window>, w: Window): seq<Window> {
    if merged != [] && w.start <= merged[|merged| - 1].end then
      var last := merged[|merged| - 1];
      merged[|merged| - 1 := Window(last.start, Max(last.end, w.end))]
    else merged + [w]
  }

  function Merged(ws: seq<Window>): seq<Window> {
    if ws == [] then [] else Absorbed(Merged(ws[..|ws| - 1]), ws[|ws| - 1])
  }

  /** From windows sorted by start, the windows in order and apart that cover the same points. */
  method MergeTimeWindows(windows: seq<Window>) returns (merged: seq<Window>)
    ensures merged == Merged(windows)
    ensures SortedByStart(windows) && Proper(windows) ==> Gapped(merged)
    ensures SortedByStart(windows) ==> forall t: real :: Covers(merged, t) <==> Covers(windows, t)
  {
    MergedIs(windows);
    if windows == [] {
      return [];
    }
    merged := [windows[0]];
    assert windows[..1] == [windows[0]];
    for i := 1 to |windows|
      invariant merged != [] && merged == Merged(windows[..i])
    {
      var window := windows[i];
      var last := merged[|merged| - 1];
      assert windows[..i + 1][..i] == windows[..i];
      if window.start <= last.end {
        merged := merged[|merged| - 1 := Window(last.start, Max(last.end, window.end))];
      } else {
        merged := merged + [window];
      }
    }
    assert windows[..|windows|] == windows;
  }

  lemma MergedIs(ws: seq<Window>)
    ensures SortedByStart(ws) && Proper(ws) ==> Gapped(Merged(ws))
    ensures SortedByStart(ws) ==> forall t: real :: Covers(Merged(ws), t) <==> Covers(ws, t)
  {
    if SortedByStart(ws) {
      forall t: real ensures Covers(Merged(ws), t) <==> Covers(ws, t) { MergedCovers(ws, t); }
      if Proper(ws) { MergedGapped(ws); }
    }
  }

  /** What has been merged so far starts no later than what is to come. */
  lemma {:induction false} MergedStarts(ws: seq<Window>)
    requires SortedByStart(ws)
    ensures |Merged(ws)| <= |ws| && (ws != [] ==> Merged(ws) != [])
    ensures forall i :: 0 <= i < |Merged(ws)| ==> Merged(ws)[i].start <= ws[|ws| - 1].start
  {
    if ws != [] {
      var init := ws[..|ws| - 1];
      MergedStarts(init);
      if init != [] { assert init[|init| - 1].start <= ws[|ws| - 1].start; }
    }
  }

  lemma CoversMore(ws: seq<Window>, w: Window, t: real)
    ensures Covers(ws + [w], t) <==> Covers(ws, t) || w.Holds(t)
  {
    if Covers(ws, t) {
      var i :| 0 <= i < |ws| && ws[i].Holds(t);
      assert (ws + [w])[i].Holds(t);
    }
    assert (ws + [w])[|ws|] == w;
  }

  lemma AbsorbedCovers(merged: seq<Window>, w: Window, t: real)
    requires forall i :: 0 <= i < |merged| ==> merged[i].start <= w.start
    ensures Covers(Absorbed(merged, w), t) <==> Covers(merged, t) || w.Holds(t)
  {
    if merged != [] && w.start <= merged[|merged| - 1].end {
      var init, last := merged[..|merged| - 1], merged[|merged| - 1];
      var wide := Window(last.start, Max(last.end, w.end));
      assert merged == init + [last] && Absorbed(merged, w) == init + [wide];
      CoversMore(init, last, t);
      CoversMore(init, wide, t);
    } else {
      CoversMore(merged, w, t);
    }
  }

  /** Merging covers exactly the points covered before, whether or not every window is proper. */
  lemma {:induction false} MergedCovers(ws: seq<Window>, t: real)
    requires SortedByStart(ws)
    ensures Covers(Merged(ws), t) <==> Covers(ws, t)
  {
    if ws != [] {
      var init, last := ws[..|ws| - 1], ws[|ws| - 1];
      assert ws == init + [last];
      MergedCovers(init, t);
      MergedStarts(init);
      if init != [] { assert init[|init| - 1].start <= last.start; }
      AbsorbedCovers(Merged(init), last, t);
      CoversMore(init, last, t);
    }
  }

  lemma {:induction false} MergedGapped(ws: seq<Window>)
    requires SortedByStart(ws) && Proper(ws)
    ensures Gapped(Merged(ws))
  {
    if ws != [] {
      var init, w := ws[..|ws| - 1], ws[|ws| - 1];
      MergedGapped(init);
      MergedStarts(init);
      if init != [] { assert init[|init| - 1].start <= w.start; }
      AbsorbedGapped(Merged(init), w);
    }
  }

  lemma AbsorbedGapped(merged: seq<Window>, w: Window)
    requires Gapped(merged) && w.start <= w.end && forall i :: 0 <= i < |merged| ==> merged[i].start <= w.start
    ensures Gapped(Absorbed(merged, w))
  {}

  // ---- There is only one such list ----

  lemma FirstStart(a: seq<Window>, b: seq<Window>)
    requires Gapped(a) && Gapped(b) && a != [] && b != [] && forall t: real :: Covers(a, t) ==> Covers(b, t)
    ensures b[0].start <= a[0].start
  {
    var t := a[0].start as real;
    assert a[0].Holds(t);
    assert Covers(b, t);
    var i :| 0 <= i < |b| && b[i].Holds(t);
  }

  lemma FirstEnd(a: seq<Window>, b: seq<Window>)
    requires Gapped(a) && Gapped(b) && a != [] && b != [] && a[0].start == b[0].start
    requires forall t: real :: Covers(b, t) ==> Covers(a, t)
    ensures b[0].end <= a[0].end
  {
    var t := a[0].end as real + 0.5;
    JustAfter(a);
    var first := b[0];
    assert !Covers(b, t);
    assert first.end > a[0].end ==> first.Holds(t);
  }

  /** Just after the end of a window there is a point that no window holds. */
  lemma JustAfter(a: seq<Window>)
    requires Gapped(a) && a != []
    ensures !Covers(a, a[0].end as real + 0.5)
  {
    var t := a[0].end as real + 0.5;
    forall i | 0 <= i < |a| ensures !a[i].Holds(t) {
      if i > 0 { assert a[0].end < a[i].start; }
    }
  }

  lemma RestCovers(a: seq<Window>, b: seq<Window>, t: real)
    requires Gapped(a) && Gapped(b) && a != [] && b != [] && a[0] == b[0]
    requires Covers(a, t) ==> Covers(b, t)
    ensures Covers(a[1..], t) ==> Covers(b[1..], t)
  {
    if Covers(a[1..], t) {
      var i :| 0 <= i < |a[1..]| && a[1..][i].Holds(t);
      assert a[i + 1].Holds(t) && a[0].end < a[i + 1].start;
      var j :| 0 <= j < |b| && b[j].Holds(t);
      assert b[1..][j - 1].Holds(t);
    }
  }

  /** Windows that are in order and apart are determined by the points they cover. */
  lemma {:induction false} GappedUnique(a: seq<Window>, b: seq<Window>)
    requires Gapped(a) && Gapped(b) && forall t: real :: Covers(a, t) <==> Covers(b, t)
    ensures a == b
    decreases |a|
  {
    if a == [] {
      if b != [] { NoneCovered(b, a); }
    } else if b == [] {
      NoneCovered(a, b);
    } else {
      FirstStart(a, b);
      FirstStart(b, a);
      FirstEnd(a, b);
      FirstEnd(b, a);
      forall t: real ensures Covers(a[1..], t) <==> Covers(b[1..], t) {
        RestCovers(a, b, t);
        RestCovers(b, a, t);
      }
      GappedUnique(a[1..], b[1..]);
      assert a == [a[0]] + a[1..] && b == [b[0]] + b[1..];
    }
  }

  lemma NoneCovered(a: seq<Window>, b: seq<Window>)
    requires a != [] && b == [] && Gapped(a)
    ensures exists t: real :: Covers(a, t) && !Covers(b, t)
  {
    var t := a[0].start as real;
    assert a[0].Holds(t);
    assert Covers(a, t) && !Covers(b, t);
  }

  /** Merging what is merged changes nothing. */
  lemma MergedIdempotent(ws: seq<Window>)
    requires SortedByStart(ws) && Proper(ws)
    ensures Merged(Merged(ws)) == Merged(ws)
  {
    var m := Merged(ws);
    MergedGapped(ws);
    assert SortedByStart(m);
    MergedGapped(m);
    forall t: real ensures Covers(Merged(m), t) <==> Covers(m, t) { MergedCovers(m, t); }
    GappedUnique(Merged(m), m);
  }

  /** The outcome depends only on the points covered, so not on how equal starts were ordered. */
  lemma MergedCanonical(ws: seq<Window>, vs: seq<Window>)
    requires SortedByStart(ws) && Proper(ws) && SortedByStart(vs) && Proper(vs)
    requires forall t: real :: Covers(ws, t) <==> Covers(vs, t)
    ensures Merged(ws) == Merged(vs)
  {
    MergedGapped(ws);
    MergedGapped(vs);
    forall t: real ensures Covers(Merged(ws), t) <==> Covers(Merged(vs), t) {
      MergedCovers(ws, t);
      MergedCovers(vs, t);
    }
    GappedUnique(Merged(ws), Merged(vs));
  }
}
