/** Where consecutive hunk windows meet: at the gaps of unchanged lines between changes. */
module DiffGaps {
  import opened UnifiedDiff

  /** A change after an unchanged line is followed by another change, or ends the script. */
  ghost predicate NoLoneChange(edits: seq<Edit>) {
    forall k :: 0 < k < |edits| - 1 && Unchanged(edits[k - 1]) && !Unchanged(edits[k]) ==> !Unchanged(edits[k + 1])
  }

  /** Between two changes, the `length` unchanged edits from `u` on. */
  ghost predicate Gap(edits: seq<Edit>, u: nat, length: nat) {
    && 0 < u && u + length < |edits| && !Unchanged(edits[u - 1]) && !Unchanged(edits[u + length])
    && forall k :: u <= k < u + length ==> Unchanged(edits[k])
  }

  // ---- Where a region ends ----

  lemma {:induction false} RegionEndStops(edits: seq<Edit>, change: nat, from: nat)
    requires change <= from <= |edits|
    ensures from <= RegionEnd(edits, change, from) <= |edits|
    ensures RegionEnd(edits, change, from) < |edits| ==> StopsAt(edits, change, RegionEnd(edits, change, from))
    ensures forall k :: from <= k < RegionEnd(edits, change, from) ==> !StopsAt(edits, change, k)
    decreases |edits| - from
  {
    if from < |edits| && !StopsAt(edits, change, from) {
      RegionEndStops(edits, change, from + 1);
    }
  }

  /** A region that ends before the script does ends on the second of at least three unchanged edits. */
  lemma RegionEndsInGap(edits: seq<Edit>, change: nat)
    requires NoLoneChange(edits) && change < |edits| && !Unchanged(edits[change])
    ensures change <= RegionEnd(edits, change, change) <= |edits|
    ensures RegionEnd(edits, change, change) < |edits| ==>
              var e := RegionEnd(edits, change, change);
              && change + 2 <= e < |edits| - 1 && !Unchanged(edits[e - 2])
              && Unchanged(edits[e - 1]) && Unchanged(edits[e]) && Unchanged(edits[e + 1])
  {
    RegionEndStops(edits, change, change);
    var e := RegionEnd(edits, change, change);
    if e < |edits| {
      assert StopsAt(edits, change, e);
      assert Unchanged(edits[e]);
      assert e - 1 != change;
      assert !StopsAt(edits, change, e - 1);
    }
  }

  // ---- Consecutive windows ----

  lemma {:induction false} WindowAt(edits: seq<Edit>, windows: seq<Window>, k: nat)
    requires Chain(edits, windows) && k < |windows|
    ensures OpensAt(edits, if k == 0 then 0 else windows[k - 1].end, windows[k])
  {
    ChainPrefix(edits, windows, k);
    assert Cursor(windows[..k]) == if k == 0 then 0 else windows[k - 1].end;
  }

  /** Window `k` and the next one, with the gap between their regions. */
  ghost predicate Boundary(edits: seq<Edit>, w: Window, v: Window, u: nat, length: nat) {
    && Gap(edits, u, length) && length >= 3 && w.end == u + 4 && w.change < u
    && v.change == (if length == 3 then u + 4 else u + length) && v.start == v.change - 3 && v.change < |edits|
  }

  lemma NextWindowMeets(edits: seq<Edit>, cursor: nat, w: Window, v: Window) returns (u: nat, length: nat)
    requires NoLoneChange(edits) && OpensAt(edits, cursor, w) && OpensAt(edits, w.end, v)
    ensures Boundary(edits, w, v, u, length)
  {
    RegionEndsInGap(edits, w.change);
    u := RegionEnd(edits, w.change, w.change) - 1;
    if !Unchanged(edits[u + 3]) {
      length := 3;
      assert !Unchanged(edits[u + 4]);
      assert Unchanged(edits[u + 4]) || v.change <= u + 4;
    } else {
      length := v.change - u;
      forall k | u <= k < u + length ensures Unchanged(edits[k]) {
        if k >= u + 4 {
          assert w.end <= k < v.change;
        }
      }
    }
  }

  lemma ConsecutiveMeet(edits: seq<Edit>, windows: seq<Window>, k: nat) returns (u: nat, length: nat)
    requires NoLoneChange(edits) && Chain(edits, windows) && k + 1 < |windows|
    ensures Boundary(edits, windows[k], windows[k + 1], u, length)
  {
    WindowAt(edits, windows, k);
    WindowAt(edits, windows, k + 1);
    u, length := NextWindowMeets(edits, if k == 0 then 0 else windows[k - 1].end, windows[k], windows[k + 1]);
  }

  /** The window whose end first passes an edit. */
  lemma {:induction false} FirstPast(edits: seq<Edit>, windows: seq<Window>, x: nat) returns (k: nat)
    requires Chain(edits, windows) && x < Cursor(windows)
    ensures k < |windows| && x < windows[k].end && (k > 0 ==> windows[k - 1].end <= x)
  {
    var m := |windows| - 1;
    if x < Cursor(windows[..m]) {
      k := FirstPast(edits, windows[..m], x);
    } else {
      k := m;
    }
  }

  /** The region of the change before a long gap ends in that gap. */
  lemma RegionBeforeGap(edits: seq<Edit>, change: nat, u: nat, length: nat)
    requires NoLoneChange(edits) && Gap(edits, u, length) && length >= 3
    requires change < u && !Unchanged(edits[change]) && Min(RegionEnd(edits, change, change) + 3, |edits|) >= u
    ensures RegionEnd(edits, change, change) == u + 1
  {
    RegionEndStops(edits, change, change);
    RegionEndsInGap(edits, change);
    var e := RegionEnd(edits, change, change);
    assert StopsAt(edits, change, u + 1);
    assert e <= u + 1;
    assert e < u + 1 ==> e + 3 == u || e + 3 == u + 1 || e + 3 == u + 2 || e + 3 == u + 3;
  }

  /** Every gap of at least three lies between the regions of two windows, if any change is left. */
  lemma GapMeets(edits: seq<Edit>, windows: seq<Window>, u: nat, length: nat) returns (k: nat)
    requires NoLoneChange(edits) && Windows(edits, windows) && Gap(edits, u, length) && length >= 3
    requires length == 3 ==> u + 4 < |edits|
    ensures k + 1 < |windows| && Boundary(edits, windows[k], windows[k + 1], u, length)
  {
    assert u - 1 < Cursor(windows);
    k := FirstPast(edits, windows, u - 1);
    WindowAt(edits, windows, k);
    var w := windows[k];
    assert w.change <= u - 1;
    RegionBeforeGap(edits, w.change, u, length);
    assert w.end == u + 4;
    if length == 3 {
      assert Unchanged(edits[u + 3 - 1]) && !Unchanged(edits[u + 3]);
      assert !Unchanged(edits[u + 3 + 1]);
    }
    var next := if length == 3 then u + 4 else u + length;
    assert !Unchanged(edits[next]) && next < |edits|;
    assert next < Cursor(windows);
    var v, n := ConsecutiveMeet(edits, windows, k);
    SameGap(edits, u, length, v, n);
  }

  lemma SameGap(edits: seq<Edit>, u: nat, length: nat, v: nat, n: nat)
    requires Gap(edits, u, length) && Gap(edits, v, n) && u == v
    ensures length == n
  {
    assert Unchanged(edits[u + length]) || n <= length;
    assert Unchanged(edits[u + n]) || length <= n;
  }

  // ---- Overlaps ----

  /** A gap at which two hunks show the same lines. */
  ghost predicate OverlapsAt(edits: seq<Edit>, u: nat, length: nat) {
    Gap(edits, u, length) && (4 <= length <= 6 || (length == 3 && u + 4 < |edits|))
  }

  ghost predicate HasOverlap(edits: seq<Edit>) {
    exists u, length :: OverlapsAt(edits, u, length)
  }

  lemma {:induction false} ConsecutiveSuffices(edits: seq<Edit>, windows: seq<Window>, i: nat, j: nat)
    requires InBounds(edits, windows) && i < j < |windows|
    requires forall k :: 0 <= k < |windows| - 1 ==> windows[k].end <= windows[k + 1].start
    ensures windows[i].end <= windows[j].start
    decreases j
  {
    if i < j - 1 {
      ConsecutiveSuffices(edits, windows, i, j - 1);
    }
    assert windows[j - 1].end <= windows[j - 1 + 1].start;
  }

  /** Windows overlap exactly at such a gap. */
  lemma DisjointIff(edits: seq<Edit>, windows: seq<Window>)
    requires NoLoneChange(edits) && Windows(edits, windows) && InBounds(edits, windows)
    ensures Disjoint(windows) <==> !HasOverlap(edits)
  {
    if HasOverlap(edits) {
      var u, length :| OverlapsAt(edits, u, length);
      var k := GapMeets(edits, windows, u, length);
      assert windows[k].end > windows[k + 1].start;
    } else {
      forall i, j | 0 <= i < j < |windows| ensures windows[i].end <= windows[j].start {
        forall k | 0 <= k < |windows| - 1 ensures windows[k].end <= windows[k + 1].start {
          NoOverlapAtBoundary(edits, windows, k);
        }
        ConsecutiveSuffices(edits, windows, i, j);
      }
    }
  }

  lemma NoOverlapAtBoundary(edits: seq<Edit>, windows: seq<Window>, k: nat)
    requires NoLoneChange(edits) && Chain(edits, windows) && k + 1 < |windows| && !HasOverlap(edits)
    ensures windows[k].end <= windows[k + 1].start
  {
    var u, length := ConsecutiveMeet(edits, windows, k);
    assert !OverlapsAt(edits, u, length);
  }

  /** An overlap starts on an unchanged edit. */
  lemma OverlapStartsUnchanged(edits: seq<Edit>, windows: seq<Window>, k: nat)
    requires NoLoneChange(edits) && Chain(edits, windows) && k + 1 < |windows| && windows[k + 1].start < windows[k].end
    ensures windows[k + 1].start < |edits| && Unchanged(edits[windows[k + 1].start])
  {
    var u, length := ConsecutiveMeet(edits, windows, k);
  }

  // ---- What overlaps ----

  /** No edit is in two windows that are not neighbours. */
  lemma {:induction false} FarWindowsApart(edits: seq<Edit>, windows: seq<Window>, i: nat, j: nat)
    requires NoLoneChange(edits) && Chain(edits, windows) && i + 2 <= j < |windows|
    ensures windows[i].end <= windows[j].start
    ensures windows[i].end <= windows[j - 1].change
    decreases j
  {
    var u, length := ConsecutiveMeet(edits, windows, j - 1);
    if i + 2 < j {
      FarWindowsApart(edits, windows, i, j - 1);
      var v, n := ConsecutiveMeet(edits, windows, j - 2);
    } else {
      WindowAt(edits, windows, i + 1);
    }
  }

  /** A changed edit in two neighbouring windows comes right after a gap of three. */
  lemma SharedChange(edits: seq<Edit>, windows: seq<Window>, k: nat, x: nat)
    requires NoLoneChange(edits) && Chain(edits, windows) && InBounds(edits, windows) && k + 1 < |windows|
    requires x < |edits| && !Unchanged(edits[x])
    requires windows[k].start <= x < windows[k].end && windows[k + 1].start <= x < windows[k + 1].end
    ensures x >= 3 && Gap(edits, x - 3, 3) && x + 1 < |edits|
  {
    var u, length := ConsecutiveMeet(edits, windows, k);
    assert u <= x;
    assert x == u + 3;
    assert Unchanged(edits[u + 3]) || length <= 3;
  }

  /** And every change after such a gap, unless it ends the script, is in two windows. */
  lemma GapOfThreeShares(edits: seq<Edit>, windows: seq<Window>, x: nat) returns (k: nat)
    requires NoLoneChange(edits) && Windows(edits, windows) && InBounds(edits, windows)
    requires x >= 3 && Gap(edits, x - 3, 3) && x + 1 < |edits|
    ensures k + 1 < |windows|
    ensures windows[k].start <= x < windows[k].end && windows[k + 1].start <= x < windows[k + 1].end
  {
    k := GapMeets(edits, windows, x - 3, 3);
    WindowAt(edits, windows, k);
    WindowAt(edits, windows, k + 1);
    RegionEndsInGap(edits, windows[k + 1].change);
  }
}
