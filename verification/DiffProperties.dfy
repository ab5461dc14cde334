/** What the emitted hunks say about the two files, and how far the line counts can be trusted. */
module DiffProperties {
  import opened UnifiedDiff

  // ---- Every change is shown ----

  ghost predicate InWindow(w: Window, k: nat) {
    w.start <= k < w.end
  }

  ghost predicate Shown(windows: seq<Window>, k: nat) {
    exists m :: 0 <= m < |windows| && InWindow(windows[m], k)
  }

  lemma {:induction false} ChangesBeforeCursorShown(edits: seq<Edit>, windows: seq<Window>, k: nat)
    requires Chain(edits, windows) && k < Cursor(windows) && k < |edits| && !Unchanged(edits[k])
    ensures Shown(windows, k)
  {
    var m := |windows| - 1;
    if k < Cursor(windows[..m]) {
      ChangesBeforeCursorShown(edits, windows[..m], k);
      var j :| 0 <= j < m && InWindow(windows[..m][j], k);
      assert InWindow(windows[j], k);
    } else {
      assert InWindow(windows[m], k);
    }
  }

  lemma EveryChangeShown(edits: seq<Edit>, windows: seq<Window>, k: nat)
    requires Windows(edits, windows) && k < |edits| && !Unchanged(edits[k])
    ensures Shown(windows, k)
  {
    ChangesBeforeCursorShown(edits, windows, k);
  }

  // ---- Hunks are slices of both files ----

  /** The texts of the lines that belong to the side written with `mark`. */
  function SideOf(lines: seq<string>, mark: char): seq<string> {
    if lines == [] then [] else
      var line := lines[|lines| - 1];
      SideOf(lines[..|lines| - 1], mark) +
      if |line| >= 2 && (line[0] == ' ' || line[0] == mark) then [line[1..|line| - 1]] else []
  }

  lemma RenderedText(mark: char, text: string)
    ensures |[mark] + text + "\n"| >= 2 && ([mark] + text + "\n")[0] == mark
    ensures ([mark] + text + "\n")[1..|[mark] + text + "\n"| - 1] == text
  {
  }

  /** What a rendered edit contributes to a side. */
  lemma RenderedEdit(before: seq<string>, after: seq<string>, e: Edit)
    requires ProperEdit(before, after, e)
    ensures SideOf([LineOf(before, after, e)], '-') == OldLine(before, e)
    ensures SideOf([LineOf(before, after, e)], '+') == NewLine(after, e)
  {
    var line := LineOf(before, after, e);
    assert [line][..0] == [];
    if e.oldIdx >= 0 {
      RenderedText(' ', before[e.oldIdx]);
      RenderedText('-', before[e.oldIdx]);
    } else {
      RenderedText('+', after[e.newIdx]);
    }
  }

  lemma SideOfAppend(lines: seq<string>, line: string, mark: char)
    ensures SideOf(lines + [line], mark) == SideOf(lines, mark) + SideOf([line], mark)
  {
    assert (lines + [line])[..|lines|] == lines && [line][..0] == [];
  }

  lemma RenderedSideStep(before: seq<string>, after: seq<string>, edits: seq<Edit>, mark: char)
    requires edits != []
    ensures var m := |edits| - 1;
            SideOf(Rendered(before, after, edits), mark) ==
            SideOf(Rendered(before, after, edits[..m]), mark) + SideOf([LineOf(before, after, edits[m])], mark)
  {
    var m := |edits| - 1;
    assert Rendered(before, after, edits) == Rendered(before, after, edits[..m]) + [LineOf(before, after, edits[m])];
    SideOfAppend(Rendered(before, after, edits[..m]), LineOf(before, after, edits[m]), mark);
  }

  lemma {:induction false} RenderedSides(before: seq<string>, after: seq<string>, edits: seq<Edit>)
    requires Proper(before, after, edits)
    ensures SideOf(Rendered(before, after, edits), '-') == OldSide(before, edits)
    ensures SideOf(Rendered(before, after, edits), '+') == NewSide(after, edits)
  {
    if edits != [] {
      var m := |edits| - 1;
      RenderedSides(before, after, edits[..m]);
      RenderedEdit(before, after, edits[m]);
      RenderedSideStep(before, after, edits, '-');
      RenderedSideStep(before, after, edits, '+');
    }
  }

  lemma {:induction false} SideCounts(before: seq<string>, after: seq<string>, edits: seq<Edit>)
    requires Proper(before, after, edits)
    ensures |OldSide(before, edits)| == OldCount(edits) && |NewSide(after, edits)| == NewCount(edits)
  {
    if edits != [] {
      SideCounts(before, after, edits[..|edits| - 1]);
      assert ProperEdit(before, after, edits[|edits| - 1]);
    }
  }

  ghost predicate IsSlice(part: seq<string>, whole: seq<string>, from: nat, count: nat) {
    from + count <= |whole| && part == whole[from..from + count]
  }

  lemma MiddleIsSlice(a: seq<string>, b: seq<string>, c: seq<string>, whole: seq<string>)
    requires a + b + c == whole
    ensures IsSlice(b, whole, |a|, |b|)
  {
  }

  /** A script whose two sides are the two files. */
  ghost predicate Describes(before: seq<string>, after: seq<string>, edits: seq<Edit>) {
    Proper(before, after, edits) && OldSide(before, edits) == before && NewSide(after, edits) == after
  }

  lemma WindowSides(before: seq<string>, after: seq<string>, edits: seq<Edit>, start: nat, end: nat)
    requires start <= end <= |edits| && Describes(before, after, edits)
    ensures var shown := edits[start..end];
            && IsSlice(OldSide(before, shown), before, OldCount(edits[..start]), OldCount(shown))
            && IsSlice(NewSide(after, shown), after, NewCount(edits[..start]), NewCount(shown))
  {
    assert edits == edits[..start] + edits[start..end] + edits[end..];
    MiddleSides(before, after, edits, edits[..start], edits[start..end], edits[end..]);
  }

  lemma MiddleSides(before: seq<string>, after: seq<string>, edits: seq<Edit>, a: seq<Edit>, b: seq<Edit>, c: seq<Edit>)
    requires edits == a + b + c && Proper(before, after, a) && Proper(before, after, b)
    ensures IsSlice(OldSide(before, b), OldSide(before, edits), OldCount(a), OldCount(b))
    ensures IsSlice(NewSide(after, b), NewSide(after, edits), NewCount(a), NewCount(b))
  {
    SideCounts(before, after, a);
    SideCounts(before, after, b);
    OldMiddle(before, a, b, c);
    NewMiddle(after, a, b, c);
  }

  lemma OldMiddle(before: seq<string>, a: seq<Edit>, b: seq<Edit>, c: seq<Edit>)
    ensures IsSlice(OldSide(before, b), OldSide(before, a + b + c), |OldSide(before, a)|, |OldSide(before, b)|)
  {
    OldSideConcat(before, a, b);
    OldSideConcat(before, a + b, c);
    MiddleIsSlice(OldSide(before, a), OldSide(before, b), OldSide(before, c), OldSide(before, a + b + c));
  }

  lemma NewMiddle(after: seq<string>, a: seq<Edit>, b: seq<Edit>, c: seq<Edit>)
    ensures IsSlice(NewSide(after, b), NewSide(after, a + b + c), |NewSide(after, a)|, |NewSide(after, b)|)
  {
    NewSideConcat(after, a, b);
    NewSideConcat(after, a + b, c);
    MiddleIsSlice(NewSide(after, a), NewSide(after, b), NewSide(after, c), NewSide(after, a + b + c));
  }

  /** A hunk's header names exactly the lines its body shows: the context and removed lines are that
      range of the old file, the context and added lines that range of the new one. */
  lemma HunkMatchesBothFiles(before: seq<string>, after: seq<string>, w: Window)
    requires w.start <= w.end <= |EditScript(before, after)|
    ensures var h := HunkOf(before, after, EditScript(before, after), w);
            && h.oldStart > 0 && IsSlice(SideOf(h.lines, '-'), before, h.oldStart - 1, h.oldCount)
            && h.newStart > 0 && IsSlice(SideOf(h.lines, '+'), after, h.newStart - 1, h.newCount)
  {
    ScriptProjects(before, after);
    RenderedSides(before, after, EditScript(before, after)[w.start..w.end]);
    WindowSides(before, after, EditScript(before, after), w.start, w.end);
  }

  // ---- Line counts ----

  /** Lines counted as added (mark `+`) or removed (mark `-`). */
  predicate Counted(line: string, mark: char) {
    |line| > 0 && line[0] == mark && !(|line| > 2 && line[1] == mark && line[2] == mark)
  }

  function CountLines(lines: seq<string>, mark: char): nat {
    if lines == [] then 0 else
      CountLines(lines[..|lines| - 1], mark) + if Counted(lines[|lines| - 1], mark) then 1 else 0
  }

  function CountAll(hunks: seq<Hunk>, mark: char): nat {
    if hunks == [] then 0 else CountAll(hunks[..|hunks| - 1], mark) + CountLines(hunks[|hunks| - 1].lines, mark)
  }

  datatype DiffResult = DiffResult(hunks: seq<Hunk>, linesAdded: nat, linesRemoved: nat)

  method CountHunk(lines: seq<string>) returns (added: nat, removed: nat)
    ensures added == CountLines(lines, '+') && removed == CountLines(lines, '-')
  {
    added, removed := 0, 0;
    for k := 0 to |lines|
      invariant added == CountLines(lines[..k], '+') && removed == CountLines(lines[..k], '-')
    {
      assert lines[..k + 1][..k] == lines[..k];
      if Counted(lines[k], '+') {
        added := added + 1;
      } else if Counted(lines[k], '-') {
        removed := removed + 1;
      }
    }
    assert lines[..|lines|] == lines;
  }

  method CountHunks(hunks: seq<Hunk>) returns (added: nat, removed: nat)
    ensures added == CountAll(hunks, '+') && removed == CountAll(hunks, '-')
  {
    added, removed := 0, 0;
    for k := 0 to |hunks|
      invariant added == CountAll(hunks[..k], '+') && removed == CountAll(hunks[..k], '-')
    {
      assert hunks[..k + 1][..k] == hunks[..k];
      var plus, minus := CountHunk(hunks[k].lines);
      added, removed := added + plus, removed + minus;
    }
    assert hunks[..|hunks|] == hunks;
  }

  predicate StartsTwice(text: string, mark: char) {
    |text| >= 2 && text[0] == mark && text[1] == mark
  }

  lemma CountedText(mark: char, text: string)
    requires mark == '+' || mark == '-'
    ensures Counted([mark] + text + "\n", mark) <==> !StartsTwice(text, mark)
  {
    var line := [mark] + text + "\n";
    assert line[0] == mark;
    assert forall k :: 0 <= k < |text| ==> line[k + 1] == text[k];
    assert line[|text| + 1] == '\n';
  }

  /** What is counted: insertions whose line does not start with `++`, deletions whose line does not
      start with `--`. */
  lemma CountedMeaning(before: seq<string>, after: seq<string>, e: Edit)
    requires ProperEdit(before, after, e)
    ensures Counted(LineOf(before, after, e), '+') <==> e.oldIdx < 0 && !StartsTwice(after[e.newIdx], '+')
    ensures Counted(LineOf(before, after, e), '-') <==> e.newIdx < 0 && !StartsTwice(before[e.oldIdx], '-')
  {
    if e.oldIdx < 0 {
      CountedText('+', after[e.newIdx]);
      RenderedText('+', after[e.newIdx]);
    } else if e.newIdx < 0 {
      CountedText('-', before[e.oldIdx]);
      RenderedText('-', before[e.oldIdx]);
    } else {
      RenderedText(' ', before[e.oldIdx]);
    }
  }

  /** Which lines of the script are counted under `mark`. */
  ghost function Flags(before: seq<string>, after: seq<string>, edits: seq<Edit>, mark: char): seq<bool> {
    seq(|edits|, k requires 0 <= k < |edits| => Counted(LineOf(before, after, edits[k]), mark))
  }

  ghost function Marked(flags: seq<bool>, start: nat, end: nat): set<nat>
    requires end <= |flags|
  {
    set k: nat | start <= k < end && flags[k]
  }

  /** The positions in a stretch of the script whose line is counted under `mark`. */
  ghost function Positions(before: seq<string>, after: seq<string>, edits: seq<Edit>, mark: char, start: nat,
                           end: nat): set<nat>
    requires end <= |edits|
  {
    Marked(Flags(before, after, edits, mark), start, end)
  }

  lemma MarkedStep(flags: seq<bool>, start: nat, end: nat)
    requires start < end <= |flags|
    ensures |Marked(flags, start, end)| == |Marked(flags, start, end - 1)| + if flags[end - 1] then 1 else 0
  {
    if flags[end - 1] {
      assert Marked(flags, start, end) == Marked(flags, start, end - 1) + {end - 1};
    } else {
      assert Marked(flags, start, end) == Marked(flags, start, end - 1);
    }
  }

  ghost predicate FlagsOf(lines: seq<string>, mark: char, flags: seq<bool>) {
    |lines| == |flags| && forall k :: 0 <= k < |lines| ==> flags[k] == Counted(lines[k], mark)
  }

  lemma {:induction false} CountFlagged(lines: seq<string>, mark: char, flags: seq<bool>, start: nat, end: nat)
    requires start <= end <= |lines| && FlagsOf(lines, mark, flags)
    ensures CountLines(lines[start..end], mark) == |Marked(flags, start, end)|
    decreases end - start
  {
    if start == end {
      assert Marked(flags, start, end) == {};
    } else {
      CountFlagged(lines, mark, flags, start, end - 1);
      MarkedStep(flags, start, end);
      assert lines[start..end][..end - start - 1] == lines[start..end - 1];
    }
  }

  lemma RenderedSlice(before: seq<string>, after: seq<string>, edits: seq<Edit>, start: nat, end: nat)
    requires start <= end <= |edits|
    ensures Rendered(before, after, edits[start..end]) == Rendered(before, after, edits)[start..end]
  {
  }

  lemma CountIsCardinality(before: seq<string>, after: seq<string>, edits: seq<Edit>, mark: char, start: nat, end: nat)
    requires start <= end <= |edits|
    ensures CountLines(Rendered(before, after, edits[start..end]), mark) ==
              |Positions(before, after, edits, mark, start, end)|
  {
    RenderedSlice(before, after, edits, start, end);
    CountFlagged(Rendered(before, after, edits), mark, Flags(before, after, edits, mark), start, end);
  }

  function Sum(sets: seq<set<nat>>): nat {
    if sets == [] then 0 else Sum(sets[..|sets| - 1]) + |sets[|sets| - 1]|
  }

  function Union(sets: seq<set<nat>>): set<nat> {
    if sets == [] then {} else Union(sets[..|sets| - 1]) + sets[|sets| - 1]
  }

  lemma {:induction false} UnionMembers(sets: seq<set<nat>>, x: nat)
    ensures x in Union(sets) <==> exists i :: 0 <= i < |sets| && x in sets[i]
  {
    if sets != [] {
      UnionMembers(sets[..|sets| - 1], x);
      assert forall i :: 0 <= i < |sets| - 1 ==> sets[..|sets| - 1][i] == sets[i];
    }
  }

  lemma UnionSize(a: set<nat>, b: set<nat>)
    ensures |a + b| == |a| + |b| - |a * b|
    ensures |a * b| == 0 <==> a !! b
  {
    assert a + b == a + (b - a);
    assert b == (b - a) + (a * b);
  }

  ghost function WindowPositions(before: seq<string>, after: seq<string>, edits: seq<Edit>, windows: seq<Window>,
                                 mark: char): seq<set<nat>>
    requires InBounds(edits, windows)
  {
    seq(|windows|, k requires 0 <= k < |windows| =>
      Positions(before, after, edits, mark, windows[k].start, windows[k].end))
  }

  lemma OneMoreWindow(before: seq<string>, after: seq<string>, edits: seq<Edit>, windows: seq<Window>, mark: char)
    requires windows != [] && InBounds(edits, windows)
    ensures var m := |windows| - 1;
            var positions := WindowPositions(before, after, edits, windows, mark);
            var shown := edits[windows[m].start..windows[m].end];
            && CountAll(HunksOf(before, after, edits, windows), mark) ==
               CountAll(HunksOf(before, after, edits, windows[..m]), mark)
               + CountLines(Rendered(before, after, shown), mark)
            && positions[..m] == WindowPositions(before, after, edits, windows[..m], mark)
            && positions[m] == Positions(before, after, edits, mark, windows[m].start, windows[m].end)
  {
    var m := |windows| - 1;
    assert HunksOf(before, after, edits, windows)[..m] == HunksOf(before, after, edits, windows[..m]);
  }

  lemma {:induction false} CountIsSum(before: seq<string>, after: seq<string>, edits: seq<Edit>, windows: seq<Window>,
                                      mark: char)
    requires InBounds(edits, windows)
    ensures CountAll(HunksOf(before, after, edits, windows), mark) ==
            Sum(WindowPositions(before, after, edits, windows, mark))
  {
    if windows != [] {
      var m := |windows| - 1;
      CountIsSum(before, after, edits, windows[..m], mark);
      OneMoreWindow(before, after, edits, windows, mark);
      CountIsCardinality(before, after, edits, mark, windows[m].start, windows[m].end);
    }
  }

  lemma WindowsHoldAllCounted(before: seq<string>, after: seq<string>, windows: seq<Window>, mark: char)
    requires (mark == '+' || mark == '-') && Windows(EditScript(before, after), windows)
    requires InBounds(EditScript(before, after), windows)
    ensures Union(WindowPositions(before, after, EditScript(before, after), windows, mark)) ==
            Positions(before, after, EditScript(before, after), mark, 0, |EditScript(before, after)|)
  {
    var edits := EditScript(before, after);
    var sets, all := WindowPositions(before, after, edits, windows, mark),
        Positions(before, after, edits, mark, 0, |edits|);
    ScriptProjects(before, after);
    forall x: nat ensures x in Union(sets) <==> x in all {
      UnionMembers(sets, x);
      if x in all {
        CountedMeaning(before, after, edits[x]);
        EveryChangeShown(edits, windows, x);
        var m :| 0 <= m < |windows| && InWindow(windows[m], x);
        assert x in sets[m];
      }
    }
  }

  // ---- Applying the hunks ----

  datatype Patching = Failed | Patching(output: seq<string>, consumed: nat)

  /** Copies the lines in front of the hunk and replaces its old side, which has to match. */
  function ApplyHunk(before: seq<string>, p: Patching, h: Hunk): Patching {
    if p.Patching? && h.oldStart > 0 && p.consumed <= h.oldStart - 1 && h.oldStart - 1 + h.oldCount <= |before|
       && before[h.oldStart - 1..h.oldStart - 1 + h.oldCount] == SideOf(h.lines, '-')
    then Patching(p.output + before[p.consumed..h.oldStart - 1] + SideOf(h.lines, '+'), h.oldStart - 1 + h.oldCount)
    else Failed
  }

  function ApplyHunks(before: seq<string>, hunks: seq<Hunk>): Patching {
    if hunks == [] then Patching([], 0)
    else ApplyHunk(before, ApplyHunks(before, hunks[..|hunks| - 1]), hunks[|hunks| - 1])
  }

  /** The old file with all hunks applied. */
  ghost predicate PatchesTo(before: seq<string>, hunks: seq<Hunk>, result: seq<string>) {
    var p := ApplyHunks(before, hunks);
    p.Patching? && p.consumed <= |before| && p.output + before[p.consumed..] == result
  }

  lemma {:induction false} UnchangedSidesAgree(before: seq<string>, after: seq<string>, edits: seq<Edit>)
    requires Proper(before, after, edits) && AllUnchanged(edits, 0, |edits|)
    ensures OldSide(before, edits) == NewSide(after, edits)
  {
    if edits != [] {
      assert ProperEdit(before, after, edits[|edits| - 1]) && Unchanged(edits[|edits| - 1]);
      UnchangedSidesAgree(before, after, edits[..|edits| - 1]);
    }
  }

  /** The script's first `n` edits turn this much of the old file into this much of the new one. */
  ghost predicate Patched(after: seq<string>, edits: seq<Edit>, n: nat, p: Patching)
    requires n <= |edits|
  {
    p.Patching? && p.consumed == OldCount(edits[..n]) && p.output == NewSide(after, edits[..n])
  }

  lemma StretchOfScript(before: seq<string>, after: seq<string>, edits: seq<Edit>, a: nat, b: nat)
    requires a <= b <= |edits| && Describes(before, after, edits)
    ensures OldCount(edits[..a]) <= OldCount(edits[..b]) <= |before|
    ensures OldCount(edits[..b]) == OldCount(edits[..a]) + OldCount(edits[a..b])
    ensures before[OldCount(edits[..a])..OldCount(edits[..b])] == OldSide(before, edits[a..b])
    ensures NewSide(after, edits[..b]) == NewSide(after, edits[..a]) + NewSide(after, edits[a..b])
  {
    WindowSides(before, after, edits, a, b);
    StretchConcat(before, after, edits, a, b);
  }

  lemma StretchConcat(before: seq<string>, after: seq<string>, edits: seq<Edit>, a: nat, b: nat)
    requires a <= b <= |edits| && Proper(before, after, edits)
    ensures OldCount(edits[..b]) == OldCount(edits[..a]) + OldCount(edits[a..b])
    ensures NewSide(after, edits[..b]) == NewSide(after, edits[..a]) + NewSide(after, edits[a..b])
  {
    assert edits[..b] == edits[..a] + edits[a..b];
    SidesConcat(before, after, edits[..a], edits[a..b]);
    SideCounts(before, after, edits[..a]);
    SideCounts(before, after, edits[..b]);
    SideCounts(before, after, edits[a..b]);
  }

  /** A hunk's sides are those of the edits it shows, and its counts are theirs. */
  lemma HunkSides(before: seq<string>, after: seq<string>, edits: seq<Edit>, w: Window)
    requires w.start <= w.end <= |edits| && Proper(before, after, edits)
    ensures var h := HunkOf(before, after, edits, w);
            && SideOf(h.lines, '-') == OldSide(before, edits[w.start..w.end])
            && SideOf(h.lines, '+') == NewSide(after, edits[w.start..w.end])
            && h.oldStart - 1 == OldCount(edits[..w.start]) && h.oldCount == OldCount(edits[w.start..w.end])
  {
    RenderedSides(before, after, edits[w.start..w.end]);
  }

  /** Where the hunk of a window sits in the old file and what its sides are. */
  lemma HunkPlace(before: seq<string>, after: seq<string>, edits: seq<Edit>, w: Window)
    requires w.start <= w.end <= |edits| && Describes(before, after, edits)
    ensures var h := HunkOf(before, after, edits, w);
            && h.oldStart - 1 == OldCount(edits[..w.start])
            && h.oldStart - 1 + h.oldCount == OldCount(edits[..w.end]) <= |before|
            && before[h.oldStart - 1..h.oldStart - 1 + h.oldCount] == SideOf(h.lines, '-')
            && SideOf(h.lines, '+') == NewSide(after, edits[w.start..w.end])
  {
    StretchOfScript(before, after, edits, w.start, w.end);
    HunkSides(before, after, edits, w);
  }

  lemma HunkPatches(before: seq<string>, after: seq<string>, edits: seq<Edit>, cursor: nat, w: Window, p: Patching)
    requires Describes(before, after, edits) && cursor <= w.start <= w.end <= |edits|
    requires AllUnchanged(edits, cursor, w.start) && Patched(after, edits, cursor, p)
    ensures Patched(after, edits, w.end, ApplyHunk(before, p, HunkOf(before, after, edits, w)))
  {
    var h := HunkOf(before, after, edits, w);
    HunkPlace(before, after, edits, w);
    StretchOfScript(before, after, edits, cursor, w.start);
    UnchangedSidesAgree(before, after, edits[cursor..w.start]);
    assert p.output + before[p.consumed..h.oldStart - 1] == NewSide(after, edits[..w.start]);
    assert ApplyHunk(before, p, h) == Patching(NewSide(after, edits[..w.start]) + SideOf(h.lines, '+'),
                                               h.oldStart - 1 + h.oldCount);
    StretchOfScript(before, after, edits, w.start, w.end);
  }

  lemma {:induction false} HunksPatch(before: seq<string>, after: seq<string>, edits: seq<Edit>, windows: seq<Window>)
    requires Describes(before, after, edits) && Chain(edits, windows) && Disjoint(windows)
    requires InBounds(edits, windows)
    ensures Cursor(windows) <= |edits|
    ensures Patched(after, edits, Cursor(windows), ApplyHunks(before, HunksOf(before, after, edits, windows)))
  {
    ChainBounds(edits, windows);
    if windows != [] {
      var m := |windows| - 1;
      HunksPatch(before, after, edits, windows[..m]);
      ApplyLast(before, after, edits, windows);
      HunkPatches(before, after, edits, Cursor(windows[..m]), windows[m],
                  ApplyHunks(before, HunksOf(before, after, edits, windows[..m])));
    }
  }

  lemma ApplyLast(before: seq<string>, after: seq<string>, edits: seq<Edit>, windows: seq<Window>)
    requires windows != [] && InBounds(edits, windows)
    ensures var m := |windows| - 1;
            ApplyHunks(before, HunksOf(before, after, edits, windows)) ==
            ApplyHunk(before, ApplyHunks(before, HunksOf(before, after, edits, windows[..m])),
                      HunkOf(before, after, edits, windows[m]))
  {
    var m := |windows| - 1;
    assert HunksOf(before, after, edits, windows)[..m] == HunksOf(before, after, edits, windows[..m]);
  }

  /** As long as no two windows overlap, applying the diff to the old file gives the new one. */
  lemma DiffPatchesOldToNew(before: seq<string>, after: seq<string>, windows: seq<Window>)
    requires Windows(EditScript(before, after), windows) && Disjoint(windows)
    requires InBounds(EditScript(before, after), windows)
    ensures PatchesTo(before, HunksOf(before, after, EditScript(before, after), windows), after)
  {
    var edits := EditScript(before, after);
    ScriptProjects(before, after);
    HunksPatch(before, after, edits, windows);
    PatchedThenRest(before, after, edits, Cursor(windows), ApplyHunks(before, HunksOf(before, after, edits, windows)));
  }

  lemma PatchedThenRest(before: seq<string>, after: seq<string>, edits: seq<Edit>, n: nat, p: Patching)
    requires Describes(before, after, edits) && n <= |edits| && Patched(after, edits, n, p)
    requires AllUnchanged(edits, n, |edits|)
    ensures p.consumed <= |before| && p.output + before[p.consumed..] == after
  {
    StretchOfScript(before, after, edits, n, |edits|);
    UnchangedSidesAgree(before, after, edits[n..]);
    assert edits[..|edits|] == edits && edits[n..|edits|] == edits[n..];
    SideCounts(before, after, edits);
    assert before[p.consumed..] == before[p.consumed..|before|];
  }
}
