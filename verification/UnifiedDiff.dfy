/** The line-by-line edit script and the context windows of the unified diff. */
module UnifiedDiff {

  // ---- Lines ----

  function Split(s: string): (lines: seq<string>)
    ensures lines != []
  {
    if s == "" then [""]
    else
      var rest := Split(s[1..]);
      if s[0] == '\n' then [""] + rest else [[s[0]] + rest[0]] + rest[1..]
  }

  function SplitLines(s: string): seq<string> {
    if s == "" then [] else
      var lines := Split(s);
      if lines[|lines| - 1] == "" then lines[..|lines| - 1] else lines
  }

  /** Every line followed by a newline. */
  function Unlines(lines: seq<string>): string {
    if lines == [] then "" else lines[0] + "\n" + Unlines(lines[1..])
  }

  lemma UnlinesCons(first: string, rest: seq<string>)
    ensures Unlines([first] + rest) == first + "\n" + Unlines(rest)
  {
    assert ([first] + rest)[1..] == rest;
  }

  lemma CancelNewline(a: string, b: string)
    requires a + "\n" == b + "\n"
    ensures a == b
  {
    assert (a + "\n")[..|a|] == a && (b + "\n")[..|b|] == b;
  }

  lemma {:induction false} SplitInverse(s: string)
    ensures Unlines(Split(s)) == s + "\n"
  {
    if s != "" {
      SplitInverse(s[1..]);
      var rest := Split(s[1..]);
      assert s + "\n" == [s[0]] + (s[1..] + "\n");
      if s[0] == '\n' {
        UnlinesCons("", rest);
      } else {
        assert rest == [rest[0]] + rest[1..];
        UnlinesCons(rest[0], rest[1..]);
        UnlinesCons([s[0]] + rest[0], rest[1..]);
      }
    }
  }

  lemma {:induction false} UnlinesAppend(lines: seq<string>, last: string)
    ensures Unlines(lines + [last]) == Unlines(lines) + last + "\n"
  {
    if lines == [] {
      assert lines + [last] == [last];
    } else {
      assert (lines + [last])[1..] == lines[1..] + [last];
      UnlinesAppend(lines[1..], last);
    }
  }

  /** Splitting loses at most the question whether the text ended in a newline. */
  lemma SplitLinesInverse(s: string)
    ensures s == "" <==> SplitLines(s) == []
    ensures s != "" ==> Unlines(SplitLines(s)) == if s[|s| - 1] == '\n' then s else s + "\n"
  {
    if s != "" {
      SplitInverse(s);
      var lines := Split(s);
      var m := |lines| - 1;
      assert lines == lines[..m] + [lines[m]];
      UnlinesAppend(lines[..m], lines[m]);
      LastPart(s);
      if lines[m] == "" {
        CancelNewline(Unlines(lines[..m]), s);
      }
    }
  }

  lemma {:induction false} LastPart(s: string)
    requires s != ""
    ensures Split(s)[|Split(s)| - 1] == "" <==> s[|s| - 1] == '\n'
  {
    if |s| > 1 {
      LastPart(s[1..]);
      var rest := Split(s[1..]);
      if |rest| == 1 && s[0] != '\n' {
        SplitInverse(s[1..]);
        assert rest[1..] == [];
        assert s[1..] + "\n" == rest[0] + "\n";
        assert (s[1..] + "\n")[..|s| - 1] == s[1..] && (rest[0] + "\n")[..|rest[0]|] == rest[0];
      }
    }
  }

  // ---- Edit script ----

  /** -1 on the old side marks an insertion, -1 on the new side a deletion. */
  datatype Edit = Edit(oldIdx: int, newIdx: int)

  predicate Unchanged(e: Edit) {
    e.oldIdx >= 0 && e.newIdx >= 0
  }

  /** The edits for line `i` of both files: they are only ever compared at the same position. */
  function EditsAt(before: seq<string>, after: seq<string>, i: nat): seq<Edit> {
    if i < |before| && i < |after| then
      if before[i] == after[i] then [Edit(i, i)] else [Edit(i, -1), Edit(-1, i)]
    else if i < |before| then [Edit(i, -1)]
    else [Edit(-1, i)]
  }

  function EditsUpTo(before: seq<string>, after: seq<string>, n: nat): seq<Edit> {
    if n == 0 then [] else EditsUpTo(before, after, n - 1) + EditsAt(before, after, n - 1)
  }

  function Max(a: nat, b: nat): nat {
    if a > b then a else b
  }

  function Min(a: nat, b: nat): nat {
    if a < b then a else b
  }

  function EditScript(before: seq<string>, after: seq<string>): seq<Edit> {
    EditsUpTo(before, after, Max(|before|, |after|))
  }

  lemma TwoEdits(edits: seq<Edit>, d: Edit, e: Edit)
    ensures edits + [d] + [e] == edits + [d, e]
  {
  }

  method LcsEdits(before: seq<string>, after: seq<string>) returns (edits: seq<Edit>)
    ensures edits == EditScript(before, after)
  {
    edits := [];
    var oi, ni := 0, 0;
    while oi < |before| && ni < |after|
      invariant oi == ni <= |before| && ni <= |after|
      invariant edits == EditsUpTo(before, after, oi)
    {
      if before[oi] == after[ni] {
        edits := edits + [Edit(oi, ni)];
        oi, ni := oi + 1, ni + 1;
      } else {
        TwoEdits(edits, Edit(oi, -1), Edit(-1, ni));
        edits := edits + [Edit(oi, -1)];
        oi := oi + 1;
        edits := edits + [Edit(-1, ni)];
        ni := ni + 1;
      }
    }
    edits := RestOfScript(before, after, edits, oi);
  }

  /** The rest of the longer file. */
  method RestOfScript(before: seq<string>, after: seq<string>, start: seq<Edit>, common: nat) returns (edits: seq<Edit>)
    requires common == Min(|before|, |after|) && start == EditsUpTo(before, after, common)
    ensures edits == EditScript(before, after)
  {
    edits := start;
    var oi, ni := common, common;
    while oi < |before|
      invariant common <= oi <= |before| && (oi > common ==> common == |after|) && (oi < |before| ==> oi >= |after|)
      invariant edits == EditsUpTo(before, after, oi)
    {
      edits := edits + [Edit(oi, -1)];
      oi := oi + 1;
    }
    while ni < |after|
      invariant common <= ni <= |after| && (common < |after| ==> common == |before|)
      invariant edits == EditsUpTo(before, after, Max(|before|, ni))
    {
      edits := edits + [Edit(-1, ni)];
      ni := ni + 1;
    }
  }

  function OldLine(before: seq<string>, e: Edit): seq<string> {
    if 0 <= e.oldIdx < |before| then [before[e.oldIdx]] else []
  }

  function NewLine(after: seq<string>, e: Edit): seq<string> {
    if 0 <= e.newIdx < |after| then [after[e.newIdx]] else []
  }

  /** The texts of the old side of the edits, in order. */
  function OldSide(before: seq<string>, edits: seq<Edit>): seq<string> {
    if edits == [] then [] else
      OldSide(before, edits[..|edits| - 1]) + OldLine(before, edits[|edits| - 1])
  }

  function NewSide(after: seq<string>, edits: seq<Edit>): seq<string> {
    if edits == [] then [] else
      NewSide(after, edits[..|edits| - 1]) + NewLine(after, edits[|edits| - 1])
  }

  /** Each edit refers to existing lines and to at least one side; unchanged lines are equal. */
  ghost predicate ProperEdit(before: seq<string>, after: seq<string>, e: Edit) {
    && -1 <= e.oldIdx < |before| && -1 <= e.newIdx < |after|
    && (e.oldIdx >= 0 || e.newIdx >= 0)
    && (Unchanged(e) ==> before[e.oldIdx] == after[e.newIdx])
  }

  ghost predicate Proper(before: seq<string>, after: seq<string>, edits: seq<Edit>) {
    forall k :: 0 <= k < |edits| ==> ProperEdit(before, after, edits[k])
  }

  lemma SidesAppend(before: seq<string>, after: seq<string>, edits: seq<Edit>, e: Edit)
    ensures OldSide(before, edits + [e]) == OldSide(before, edits) + OldLine(before, e)
    ensures NewSide(after, edits + [e]) == NewSide(after, edits) + NewLine(after, e)
  {
    assert (edits + [e])[..|edits|] == edits;
  }

  lemma {:induction false} ScriptProper(before: seq<string>, after: seq<string>, n: nat)
    requires n <= Max(|before|, |after|)
    ensures Proper(before, after, EditsUpTo(before, after, n))
  {
    if n > 0 {
      ScriptProper(before, after, n - 1);
    }
  }

  lemma {:induction false} OldSideConcat(before: seq<string>, a: seq<Edit>, b: seq<Edit>)
    ensures OldSide(before, a + b) == OldSide(before, a) + OldSide(before, b)
  {
    if b == [] {
      assert a + b == a;
    } else {
      var m := |b| - 1;
      OldSideConcat(before, a, b[..m]);
      assert (a + b)[..|a + b| - 1] == a + b[..m];
      Associates(OldSide(before, a), OldSide(before, b[..m]), OldLine(before, b[m]));
    }
  }

  lemma {:induction false} NewSideConcat(after: seq<string>, a: seq<Edit>, b: seq<Edit>)
    ensures NewSide(after, a + b) == NewSide(after, a) + NewSide(after, b)
  {
    if b == [] {
      assert a + b == a;
    } else {
      var m := |b| - 1;
      NewSideConcat(after, a, b[..m]);
      assert (a + b)[..|a + b| - 1] == a + b[..m];
      Associates(NewSide(after, a), NewSide(after, b[..m]), NewLine(after, b[m]));
    }
  }

  lemma SidesConcat(before: seq<string>, after: seq<string>, a: seq<Edit>, b: seq<Edit>)
    ensures OldSide(before, a + b) == OldSide(before, a) + OldSide(before, b)
    ensures NewSide(after, a + b) == NewSide(after, a) + NewSide(after, b)
  {
    OldSideConcat(before, a, b);
    NewSideConcat(after, a, b);
  }

  lemma Associates(x: seq<string>, y: seq<string>, z: seq<string>)
    ensures (x + y) + z == x + (y + z)
  {
  }

  function LineAt(lines: seq<string>, i: nat): seq<string> {
    if i < |lines| then [lines[i]] else []
  }

  lemma SidesAt(before: seq<string>, after: seq<string>, i: nat)
    requires i < Max(|before|, |after|)
    ensures OldSide(before, EditsAt(before, after, i)) == LineAt(before, i)
    ensures NewSide(after, EditsAt(before, after, i)) == LineAt(after, i)
  {
    var at := EditsAt(before, after, i);
    OneEditSides(before, after, at[0]);
    if |at| == 2 {
      SidesAppend(before, after, [at[0]], at[1]);
      assert at == [at[0]] + [at[1]];
    } else {
      assert at == [at[0]];
    }
  }

  lemma OneEditSides(before: seq<string>, after: seq<string>, e: Edit)
    ensures OldSide(before, [e]) == OldLine(before, e) && NewSide(after, [e]) == NewLine(after, e)
  {
    SidesAppend(before, after, [], e);
    assert [] + [e] == [e];
  }

  lemma {:induction false} ScriptSides(before: seq<string>, after: seq<string>, n: nat)
    requires n <= Max(|before|, |after|)
    ensures OldSide(before, EditsUpTo(before, after, n)) == before[..Min(n, |before|)]
    ensures NewSide(after, EditsUpTo(before, after, n)) == after[..Min(n, |after|)]
  {
    if n > 0 {
      ScriptSides(before, after, n - 1);
      OldSideGrows(before, after, EditsUpTo(before, after, n - 1), n);
      NewSideGrows(before, after, EditsUpTo(before, after, n - 1), n);
    }
  }

  lemma OldSideGrows(before: seq<string>, after: seq<string>, edits: seq<Edit>, n: nat)
    requires 0 < n <= Max(|before|, |after|) && OldSide(before, edits) == before[..Min(n - 1, |before|)]
    ensures OldSide(before, edits + EditsAt(before, after, n - 1)) == before[..Min(n, |before|)]
  {
    SidesConcat(before, after, edits, EditsAt(before, after, n - 1));
    SidesAt(before, after, n - 1);
    PrefixGrows(before, n);
  }

  lemma NewSideGrows(before: seq<string>, after: seq<string>, edits: seq<Edit>, n: nat)
    requires 0 < n <= Max(|before|, |after|) && NewSide(after, edits) == after[..Min(n - 1, |after|)]
    ensures NewSide(after, edits + EditsAt(before, after, n - 1)) == after[..Min(n, |after|)]
  {
    SidesConcat(before, after, edits, EditsAt(before, after, n - 1));
    SidesAt(before, after, n - 1);
    PrefixGrows(after, n);
  }

  lemma PrefixGrows(s: seq<string>, n: nat)
    requires n > 0
    ensures s[..Min(n, |s|)] == s[..Min(n - 1, |s|)] + LineAt(s, n - 1)
  {
  }

  /** The script reads off as all old lines in order on one side and all new lines on the other. */
  lemma ScriptProjects(before: seq<string>, after: seq<string>)
    ensures Proper(before, after, EditScript(before, after))
    ensures OldSide(before, EditScript(before, after)) == before && NewSide(after, EditScript(before, after)) == after
  {
    var n := Max(|before|, |after|);
    ScriptProper(before, after, n);
    ScriptSides(before, after, n);
  }

  // ---- Hunks ----

  const CONTEXT := 3

  datatype Hunk = Hunk(oldStart: nat, oldCount: nat, newStart: nat, newCount: nat, lines: seq<string>)

  /** The edits `[start..end)` shown around the change at index `change`. */
  datatype Window = Window(change: nat, start: nat, end: nat)

  ghost predicate InBounds(edits: seq<Edit>, windows: seq<Window>) {
    forall k :: 0 <= k < |windows| ==> windows[k].start <= windows[k].end <= |edits|
  }

  /** Where the scan for the end of a changed region stops. */
  predicate StopsAt(edits: seq<Edit>, change: nat, end: nat)
    requires end < |edits|
  {
    end > change && Unchanged(edits[end - 1]) && end + 1 < |edits| && Unchanged(edits[end + 1])
  }

  function RegionEnd(edits: seq<Edit>, change: nat, end: nat): nat
    decreases |edits| - end
  {
    if end < |edits| && !StopsAt(edits, change, end) then RegionEnd(edits, change, end + 1) else end
  }

  function Cursor(windows: seq<Window>): nat {
    if windows == [] then 0 else windows[|windows| - 1].end
  }

  ghost predicate AllUnchanged(edits: seq<Edit>, from: nat, to: nat) {
    forall k :: from <= k < to && k < |edits| ==> Unchanged(edits[k])
  }

  /** The window opened by the first change at or after `cursor`. */
  ghost predicate OpensAt(edits: seq<Edit>, cursor: nat, w: Window) {
    && cursor <= w.change < |edits| && !Unchanged(edits[w.change]) && AllUnchanged(edits, cursor, w.change)
    && w.start == (if w.change < CONTEXT then 0 else w.change - CONTEXT)
    && w.end == Min(RegionEnd(edits, w.change, w.change) + CONTEXT, |edits|)
  }

  ghost predicate Chain(edits: seq<Edit>, windows: seq<Window>) {
    windows != [] ==>
      var m := |windows| - 1;
      Chain(edits, windows[..m]) && OpensAt(edits, Cursor(windows[..m]), windows[m])
  }

  /** The windows the hunk loop goes through, up to the end of the script. */
  ghost predicate Windows(edits: seq<Edit>, windows: seq<Window>) {
    Chain(edits, windows) && AllUnchanged(edits, Cursor(windows), |edits|)
  }

  ghost predicate Disjoint(windows: seq<Window>) {
    forall i, j :: 0 <= i < j < |windows| ==> windows[i].end <= windows[j].start
  }

  function LineOf(before: seq<string>, after: seq<string>, e: Edit): string {
    if 0 <= e.oldIdx < |before| && e.newIdx >= 0 then " " + before[e.oldIdx] + "\n"
    else if 0 <= e.oldIdx < |before| then "-" + before[e.oldIdx] + "\n"
    else if 0 <= e.newIdx < |after| then "+" + after[e.newIdx] + "\n"
    else ""
  }

  function Rendered(before: seq<string>, after: seq<string>, edits: seq<Edit>): seq<string> {
    seq(|edits|, k requires 0 <= k < |edits| => LineOf(before, after, edits[k]))
  }

  function OldCount(edits: seq<Edit>): nat {
    if edits == [] then 0 else OldCount(edits[..|edits| - 1]) + if edits[|edits| - 1].oldIdx >= 0 then 1 else 0
  }

  function NewCount(edits: seq<Edit>): nat {
    if edits == [] then 0 else NewCount(edits[..|edits| - 1]) + if edits[|edits| - 1].newIdx >= 0 then 1 else 0
  }

  function HunkOf(before: seq<string>, after: seq<string>, edits: seq<Edit>, w: Window): Hunk
    requires w.start <= w.end <= |edits|
  {
    var shown := edits[w.start..w.end];
    Hunk(1 + OldCount(edits[..w.start]), OldCount(shown), 1 + NewCount(edits[..w.start]), NewCount(shown),
         Rendered(before, after, shown))
  }

  lemma {:induction false} RegionEndBeyond(edits: seq<Edit>, change: nat, end: nat)
    requires change <= end < |edits|
    ensures change < RegionEnd(edits, change, end) <= |edits| && end <= RegionEnd(edits, change, end)
    decreases |edits| - end
  {
    if !StopsAt(edits, change, end) && end + 1 < |edits| {
      RegionEndBeyond(edits, change, end + 1);
    }
  }

  method FindRegionEnd(edits: seq<Edit>, change: nat) returns (end: nat)
    requires change < |edits|
    ensures end == RegionEnd(edits, change, change)
  {
    end := change;
    while end < |edits| && !StopsAt(edits, change, end)
      invariant end <= |edits| && RegionEnd(edits, change, end) == RegionEnd(edits, change, change)
    {
      end := end + 1;
    }
  }

  lemma RenderedAppend(before: seq<string>, after: seq<string>, edits: seq<Edit>, k: nat)
    requires k < |edits|
    ensures Rendered(before, after, edits[..k + 1]) ==
              Rendered(before, after, edits[..k]) + [LineOf(before, after, edits[k])]
  {
  }

  method Render(before: seq<string>, after: seq<string>, shown: seq<Edit>)
    returns (lines: seq<string>, oldCount: nat, newCount: nat)
    requires Proper(before, after, shown)
    ensures lines == Rendered(before, after, shown) && oldCount == OldCount(shown) && newCount == NewCount(shown)
  {
    oldCount, newCount, lines := 0, 0, [];
    for k := 0 to |shown|
      invariant lines == Rendered(before, after, shown[..k])
      invariant oldCount == OldCount(shown[..k]) && newCount == NewCount(shown[..k])
    {
      var e := shown[k];
      assert ProperEdit(before, after, e);
      assert shown[..k + 1][..k] == shown[..k];
      var line;
      if e.oldIdx >= 0 && e.newIdx >= 0 {
        line := " " + before[e.oldIdx] + "\n";
        oldCount, newCount := oldCount + 1, newCount + 1;
      } else if e.oldIdx >= 0 {
        line := "-" + before[e.oldIdx] + "\n";
        oldCount := oldCount + 1;
      } else {
        line := "+" + after[e.newIdx] + "\n";
        newCount := newCount + 1;
      }
      RenderedAppend(before, after, shown, k);
      lines := lines + [line];
    }
    assert shown[..|shown|] == shown;
  }

  /** The line numbers at which the window begins, counted over everything in front of it. */
  method StartLines(skipped: seq<Edit>) returns (oldStart: nat, newStart: nat)
    ensures oldStart == 1 + OldCount(skipped) && newStart == 1 + NewCount(skipped)
  {
    oldStart, newStart := 1, 1;
    for k := 0 to |skipped|
      invariant oldStart == 1 + OldCount(skipped[..k]) && newStart == 1 + NewCount(skipped[..k])
    {
      assert skipped[..k + 1][..k] == skipped[..k];
      if skipped[k].oldIdx >= 0 {
        oldStart := oldStart + 1;
      }
      if skipped[k].newIdx >= 0 {
        newStart := newStart + 1;
      }
    }
    assert skipped[..|skipped|] == skipped;
  }

  method BuildHunk(before: seq<string>, after: seq<string>, edits: seq<Edit>, w: Window) returns (hunk: Hunk)
    requires w.start <= w.end <= |edits| && Proper(before, after, edits)
    ensures hunk == HunkOf(before, after, edits, w)
  {
    var lines, oldCount, newCount := Render(before, after, edits[w.start..w.end]);
    var oldStart, newStart := StartLines(edits[..w.start]);
    hunk := Hunk(oldStart, oldCount, newStart, newCount, lines);
  }

  method NextChange(edits: seq<Edit>, cursor: nat) returns (i: nat)
    requires cursor <= |edits|
    ensures cursor <= i <= |edits| && AllUnchanged(edits, cursor, i)
    ensures i < |edits| ==> !Unchanged(edits[i])
  {
    i := cursor;
    while i < |edits| && Unchanged(edits[i])
      invariant cursor <= i <= |edits| && AllUnchanged(edits, cursor, i)
    {
      i := i + 1;
    }
  }

  lemma {:induction false} ChainBounds(edits: seq<Edit>, windows: seq<Window>)
    requires Chain(edits, windows)
    ensures Cursor(windows) <= |edits|
    ensures forall k :: 0 <= k < |windows| ==> windows[k].start <= windows[k].change < windows[k].end <= |edits|
  {
    if windows != [] {
      var m := |windows| - 1;
      ChainBounds(edits, windows[..m]);
      RegionEndBeyond(edits, windows[m].change, windows[m].change);
      assert forall k :: 0 <= k < m ==> windows[..m][k] == windows[k];
    }
  }

  function HunksOf(before: seq<string>, after: seq<string>, edits: seq<Edit>, windows: seq<Window>): seq<Hunk>
    requires forall k :: 0 <= k < |windows| ==> windows[k].start <= windows[k].end <= |edits|
  {
    seq(|windows|, k requires 0 <= k < |windows| => HunkOf(before, after, edits, windows[k]))
  }

  lemma HunksAppend(before: seq<string>, after: seq<string>, edits: seq<Edit>, windows: seq<Window>, w: Window)
    requires forall k :: 0 <= k < |windows| ==> windows[k].start <= windows[k].end <= |edits|
    requires w.start <= w.end <= |edits|
    ensures HunksOf(before, after, edits, windows + [w]) ==
              HunksOf(before, after, edits, windows) + [HunkOf(before, after, edits, w)]
  {
  }

  /** The hunks of these windows, which go through the whole script. */
  ghost predicate HunksOfWindows(before: seq<string>, after: seq<string>, windows: seq<Window>, hunks: seq<Hunk>) {
    && Windows(EditScript(before, after), windows)
    && (forall k :: 0 <= k < |windows| ==> windows[k].start <= windows[k].end <= |EditScript(before, after)|)
    && hunks == HunksOf(before, after, EditScript(before, after), windows)
  }

  ghost predicate HunksSoFar(before: seq<string>, after: seq<string>, edits: seq<Edit>, windows: seq<Window>,
                             hunks: seq<Hunk>) {
    && Chain(edits, windows)
    && (forall k :: 0 <= k < |windows| ==> windows[k].start <= windows[k].end <= |edits|)
    && hunks == HunksOf(before, after, edits, windows)
  }

  lemma OneMoreHunk(before: seq<string>, after: seq<string>, edits: seq<Edit>, windows: seq<Window>, hunks: seq<Hunk>,
                    w: Window)
    requires HunksSoFar(before, after, edits, windows, hunks) && OpensAt(edits, Cursor(windows), w)
    requires w.start <= w.end <= |edits|
    ensures HunksSoFar(before, after, edits, windows + [w], hunks + [HunkOf(before, after, edits, w)])
  {
    assert (windows + [w])[..|windows|] == windows;
    HunksAppend(before, after, edits, windows, w);
  }

  method ComputeHunks(before: seq<string>, after: seq<string>) returns (hunks: seq<Hunk>)
    ensures exists windows :: HunksOfWindows(before, after, windows, hunks)
  {
    var edits := LcsEdits(before, after);
    ScriptProjects(before, after);
    ghost var windows: seq<Window> := [];
    hunks := [];
    var i := 0;
    while i < |edits|
      invariant HunksSoFar(before, after, edits, windows, hunks) && i == Cursor(windows)
      decreases |edits| - i
    {
      var change := NextChange(edits, i);
      if change >= |edits| {
        break;
      }
      var window := FindWindow(edits, i, change);
      var hunk := BuildHunk(before, after, edits, window);
      OneMoreHunk(before, after, edits, windows, hunks, window);
      hunks, windows := hunks + [hunk], windows + [window];
      i := window.end;
    }
    assert HunksOfWindows(before, after, windows, hunks);
  }

  /** The changed region with its context. */
  method FindWindow(edits: seq<Edit>, cursor: nat, change: nat) returns (window: Window)
    requires cursor <= change < |edits| && !Unchanged(edits[change]) && AllUnchanged(edits, cursor, change)
    ensures OpensAt(edits, cursor, window) && cursor < window.end && window.start <= window.end <= |edits|
  {
    var end := FindRegionEnd(edits, change);
    RegionEndBeyond(edits, change, change);
    var ctxStart := if change < CONTEXT then 0 else change - CONTEXT;
    var ctxEnd := if end + CONTEXT > |edits| then |edits| else end + CONTEXT;
    window := Window(change, ctxStart, ctxEnd);
  }

  /** From a cursor there is one next window. */
  lemma NextWindowUnique(edits: seq<Edit>, cursor: nat, v: Window, w: Window)
    requires OpensAt(edits, cursor, v) && OpensAt(edits, cursor, w)
    ensures v == w
  {
    assert Unchanged(edits[v.change]) || v.change >= w.change;
    assert Unchanged(edits[w.change]) || w.change >= v.change;
  }

  lemma {:induction false} ChainsAgree(edits: seq<Edit>, windows: seq<Window>, others: seq<Window>)
    requires Chain(edits, windows) && Chain(edits, others) && |windows| == |others|
    ensures windows == others
  {
    if windows != [] {
      var m := |windows| - 1;
      ChainsAgree(edits, windows[..m], others[..m]);
      NextWindowUnique(edits, Cursor(windows[..m]), windows[m], others[m]);
      assert windows == windows[..m] + [windows[m]] && others == others[..m] + [others[m]];
    }
  }

  lemma {:induction false} ChainPrefix(edits: seq<Edit>, windows: seq<Window>, n: nat)
    requires Chain(edits, windows) && n <= |windows|
    ensures Chain(edits, windows[..n])
    ensures n < |windows| ==> OpensAt(edits, Cursor(windows[..n]), windows[n])
    decreases |windows|
  {
    if n < |windows| - 1 {
      var m := |windows| - 1;
      ChainPrefix(edits, windows[..m], n);
      assert windows[..m][..n] == windows[..n];
    } else if n == |windows| {
      assert windows[..n] == windows;
    }
  }

  lemma NoMoreWindows(edits: seq<Edit>, windows: seq<Window>, others: seq<Window>)
    requires Windows(edits, windows) && Chain(edits, others)
    ensures |others| <= |windows|
  {
    if |others| > |windows| {
      var n := |windows|;
      ChainPrefix(edits, others, n);
      ChainsAgree(edits, windows, others[..n]);
    }
  }

  /** The script determines its windows, and so the hunks. */
  lemma WindowsUnique(edits: seq<Edit>, windows: seq<Window>, others: seq<Window>)
    requires Windows(edits, windows) && Windows(edits, others)
    ensures windows == others
  {
    NoMoreWindows(edits, windows, others);
    NoMoreWindows(edits, others, windows);
    ChainsAgree(edits, windows, others);
  }
}
