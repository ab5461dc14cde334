/** When line counts are exact and hunks patch, told from the two files alone. */
module DiffExactness {
  import opened UnifiedDiff
  import opened DiffGaps
  import opened DiffProperties

  // ---- Lines of the files and edits of the script ----

  /** Lines of the longer file. */
  function Lines(before: seq<string>, after: seq<string>): nat {
    Max(|before|, |after|)
  }

  /** The files differ at line `i`, or one of them has no such line. */
  predicate Differs(before: seq<string>, after: seq<string>, i: nat) {
    i >= |before| || i >= |after| || before[i] != after[i]
  }

  /** Where the edits of line `i` start in the script. */
  function StartOf(before: seq<string>, after: seq<string>, i: nat): nat {
    |EditsUpTo(before, after, i)|
  }

  lemma EditsAtShape(before: seq<string>, after: seq<string>, i: nat)
    requires i < Lines(before, after)
    ensures var at := EditsAt(before, after, i);
            && 1 <= |at| <= 2 && (|at| == 2 <==> Differs(before, after, i) && i < |before| && i < |after|)
            && (Unchanged(at[0]) <==> !Differs(before, after, i)) && (|at| == 2 ==> !Unchanged(at[1]))
            && at[0] == (if !Differs(before, after, i) then Edit(i, i) else if i < |before| then Edit(i, -1)
                         else Edit(-1, i))
            && (|at| == 2 ==> at[1] == Edit(-1, i))
  {
  }

  lemma {:induction false} ScriptPrefix(before: seq<string>, after: seq<string>, i: nat, n: nat)
    requires i <= n
    ensures EditsUpTo(before, after, i) <= EditsUpTo(before, after, n)
  {
    if i < n {
      ScriptPrefix(before, after, i, n - 1);
    }
  }

  /** The edits of line `i` in the script. */
  lemma ScriptAt(before: seq<string>, after: seq<string>, i: nat, j: nat)
    requires i < Lines(before, after) && j < |EditsAt(before, after, i)|
    ensures StartOf(before, after, i) + j < StartOf(before, after, i + 1) <= |EditScript(before, after)|
    ensures EditScript(before, after)[StartOf(before, after, i) + j] == EditsAt(before, after, i)[j]
  {
    ScriptPrefix(before, after, i + 1, Lines(before, after));
    var upTo := EditsUpTo(before, after, i + 1);
    assert upTo[StartOf(before, after, i) + j] == EditsAt(before, after, i)[j];
  }

  lemma {:induction false} Locate(before: seq<string>, after: seq<string>, k: nat, n: nat) returns (i: nat)
    requires k < StartOf(before, after, n) && n <= Lines(before, after)
    ensures i < n && StartOf(before, after, i) <= k < StartOf(before, after, i + 1)
  {
    if k < StartOf(before, after, n - 1) {
      i := Locate(before, after, k, n - 1);
    } else {
      i := n - 1;
    }
  }

  /** The line an edit belongs to, and which of its edits it is. */
  lemma LineOfEdit(before: seq<string>, after: seq<string>, k: nat) returns (i: nat, j: nat)
    requires k < |EditScript(before, after)|
    ensures i < Lines(before, after) && j < |EditsAt(before, after, i)| && k == StartOf(before, after, i) + j
    ensures EditScript(before, after)[k] == EditsAt(before, after, i)[j]
    ensures Unchanged(EditScript(before, after)[k]) <==> !Differs(before, after, i)
  {
    i := Locate(before, after, k, Lines(before, after));
    j := k - StartOf(before, after, i);
    ScriptAt(before, after, i, j);
    EditsAtShape(before, after, i);
  }

  /** The last edit of line `i` and the first of the next. */
  lemma LineEnds(before: seq<string>, after: seq<string>, i: nat)
    requires i < Lines(before, after)
    ensures var edits, end := EditScript(before, after), StartOf(before, after, i + 1);
            && 0 < end <= |edits| && (Unchanged(edits[end - 1]) <==> !Differs(before, after, i))
            && (end == |edits| <==> i + 1 == Lines(before, after))
            && (i + 1 < Lines(before, after) ==> (Unchanged(edits[end]) <==> !Differs(before, after, i + 1)))
  {
    EditsAtShape(before, after, i);
    ScriptAt(before, after, i, |EditsAt(before, after, i)| - 1);
    if i + 1 < Lines(before, after) {
      EditsAtShape(before, after, i + 1);
      ScriptAt(before, after, i + 1, 0);
    }
  }

  lemma ScriptHasNoLoneChange(before: seq<string>, after: seq<string>)
    ensures NoLoneChange(EditScript(before, after))
  {
    var edits := EditScript(before, after);
    forall k | 0 < k < |edits| - 1 && Unchanged(edits[k - 1]) && !Unchanged(edits[k]) ensures !Unchanged(edits[k + 1]) {
      var i, j := LineOfEdit(before, after, k);
      EditsAtShape(before, after, i);
      if |EditsAt(before, after, i)| == 2 && j == 0 {
        ScriptAt(before, after, i, 1);
      } else {
        LineEnds(before, after, i);
        if j == 1 {
          ScriptAt(before, after, i, 0);
        }
      }
    }
  }

  // ---- Gaps of the files ----

  /** Two differing lines with exactly `length` equal ones between them. */
  ghost predicate FileGap(before: seq<string>, after: seq<string>, i: nat, length: nat) {
    && i + length + 1 < Lines(before, after)
    && Differs(before, after, i) && Differs(before, after, i + length + 1)
    && forall k :: i < k <= i + length ==> !Differs(before, after, k)
  }

  lemma {:induction false} EqualLinesTakeOneEdit(before: seq<string>, after: seq<string>, i: nat, length: nat)
    requires i + length < Lines(before, after) && forall k :: i < k <= i + length ==> !Differs(before, after, k)
    ensures StartOf(before, after, i + 1 + length) == StartOf(before, after, i + 1) + length
  {
    if length > 0 {
      EqualLinesTakeOneEdit(before, after, i, length - 1);
      EditsAtShape(before, after, i + length);
    }
  }

  lemma EqualLineInScript(before: seq<string>, after: seq<string>, i: nat, length: nat)
    requires i + length + 1 < Lines(before, after) && forall k :: i < k <= i + length + 1 ==> !Differs(before, after, k)
    ensures StartOf(before, after, i + 1) + length < |EditScript(before, after)|
    ensures Unchanged(EditScript(before, after)[StartOf(before, after, i + 1) + length])
  {
    EqualLinesTakeOneEdit(before, after, i, length);
    EditsAtShape(before, after, i + 1 + length);
    ScriptAt(before, after, i + 1 + length, 0);
  }

  lemma FileGapInScript(before: seq<string>, after: seq<string>, i: nat, length: nat)
    requires FileGap(before, after, i, length)
    ensures Gap(EditScript(before, after), StartOf(before, after, i + 1), length)
    ensures StartOf(before, after, i + 1 + length) == StartOf(before, after, i + 1) + length
  {
    var u := StartOf(before, after, i + 1);
    LineEnds(before, after, i);
    EqualLinesTakeOneEdit(before, after, i, length);
    LineEnds(before, after, i + length);
    forall k | u <= k < u + length ensures Unchanged(EditScript(before, after)[k]) {
      EqualLineInScript(before, after, i, k - u);
    }
  }

  /** An unchanged edit that starts a line is that line's only one. */
  lemma UnchangedLine(before: seq<string>, after: seq<string>, p: nat)
    requires p < Lines(before, after) && StartOf(before, after, p) + 1 < |EditScript(before, after)|
    requires Unchanged(EditScript(before, after)[StartOf(before, after, p)])
    ensures !Differs(before, after, p) && p + 1 < Lines(before, after)
    ensures StartOf(before, after, p + 1) == StartOf(before, after, p) + 1
  {
    EditsAtShape(before, after, p);
    ScriptAt(before, after, p, 0);
    LineEnds(before, after, p);
  }

  /** In the run of unchanged edits from line `i + 1` on, edit follows line. */
  lemma {:induction false} RunFollowsLines(before: seq<string>, after: seq<string>, i: nat, u: nat, length: nat)
    requires u == StartOf(before, after, i + 1) && i + 1 < Lines(before, after)
    requires u + length < |EditScript(before, after)|
    requires forall k :: u <= k < u + length ==> Unchanged(EditScript(before, after)[k])
    ensures i + 1 + length < Lines(before, after) && StartOf(before, after, i + 1 + length) == u + length
    ensures forall k :: i < k <= i + length ==> !Differs(before, after, k)
  {
    if length > 0 {
      RunFollowsLines(before, after, i, u, length - 1);
      UnchangedLine(before, after, i + length);
    }
  }

  lemma ScriptGapInFile(before: seq<string>, after: seq<string>, u: nat, length: nat) returns (i: nat)
    requires Gap(EditScript(before, after), u, length) && length > 0
    ensures FileGap(before, after, i, length) && u == StartOf(before, after, i + 1)
  {
    var edits := EditScript(before, after);
    var p, j := LineOfEdit(before, after, u);
    EditsAtShape(before, after, p);
    assert j == 0;
    assert StartOf(before, after, 0) == 0;
    i := p - 1;
    LineEnds(before, after, i);
    RunFollowsLines(before, after, i, u, length);
    EditsAtShape(before, after, i + 1 + length);
    ScriptAt(before, after, i + 1 + length, 0);
  }

  /** Line `i` is the last of its file and missing in the other: its one edit ends the script. */
  predicate EndsScript(before: seq<string>, after: seq<string>, i: nat) {
    i + 1 == Lines(before, after) && (i >= |before| || i >= |after|)
  }

  lemma EndsScriptMeaning(before: seq<string>, after: seq<string>, i: nat)
    requires i < Lines(before, after) && Differs(before, after, i)
    ensures EndsScript(before, after, i) <==> StartOf(before, after, i) + 1 == |EditScript(before, after)|
  {
    EditsAtShape(before, after, i);
    LineEnds(before, after, i);
    ScriptAt(before, after, i, 0);
  }

  /** A gap of four to six equal lines, or of three with more of the script to follow. */
  ghost predicate OverlapsAfter(before: seq<string>, after: seq<string>, i: nat, length: nat) {
    FileGap(before, after, i, length) && (4 <= length <= 6 || (length == 3 && !EndsScript(before, after, i + 4)))
  }

  ghost predicate Overlapping(before: seq<string>, after: seq<string>) {
    exists i, length :: OverlapsAfter(before, after, i, length)
  }

  lemma FileOverlapInScript(before: seq<string>, after: seq<string>, i: nat, length: nat)
    requires OverlapsAfter(before, after, i, length)
    ensures OverlapsAt(EditScript(before, after), StartOf(before, after, i + 1), length)
  {
    FileGapInScript(before, after, i, length);
    EndsScriptMeaning(before, after, i + length + 1);
  }

  lemma ScriptOverlapInFile(before: seq<string>, after: seq<string>, u: nat, length: nat) returns (i: nat)
    requires OverlapsAt(EditScript(before, after), u, length)
    ensures OverlapsAfter(before, after, i, length)
  {
    i := ScriptGapInFile(before, after, u, length);
    EqualLinesTakeOneEdit(before, after, i, length);
    EndsScriptMeaning(before, after, i + length + 1);
  }

  lemma OverlappingMeaning(before: seq<string>, after: seq<string>)
    ensures Overlapping(before, after) <==> HasOverlap(EditScript(before, after))
  {
    if Overlapping(before, after) {
      var i, length :| OverlapsAfter(before, after, i, length);
      FileOverlapInScript(before, after, i, length);
    }
    if HasOverlap(EditScript(before, after)) {
      var u, length :| OverlapsAt(EditScript(before, after), u, length);
      var i := ScriptOverlapInFile(before, after, u, length);
    }
  }

  // ---- Patching ----

  lemma {:induction false} FailedStays(before: seq<string>, hunks: seq<Hunk>, n: nat)
    requires n <= |hunks| && ApplyHunks(before, hunks[..n]).Failed?
    ensures ApplyHunks(before, hunks).Failed?
    decreases |hunks|
  {
    if n < |hunks| {
      assert hunks[..|hunks| - 1][..n] == hunks[..n];
      FailedStays(before, hunks[..|hunks| - 1], n);
    } else {
      assert hunks[..n] == hunks;
    }
  }

  lemma OldCountGrows(edits: seq<Edit>, a: nat, b: nat)
    requires a < b <= |edits| && Unchanged(edits[a])
    ensures OldCount(edits[..a]) < OldCount(edits[..b])
    decreases b
  {
    assert edits[..b][..b - 1] == edits[..b - 1];
    if a < b - 1 {
      OldCountGrows(edits, a, b - 1);
    }
  }

  /** A hunk that starts inside the one before it does not apply after it. */
  lemma OverlappingHunkFails(before: seq<string>, after: seq<string>, edits: seq<Edit>, p: Patching, w: Window,
                             v: Window)
    requires Describes(before, after, edits) && w.start <= w.end <= |edits| && v.start <= v.end <= |edits|
    requires v.start < w.end && Unchanged(edits[v.start])
    ensures ApplyHunk(before, ApplyHunk(before, p, HunkOf(before, after, edits, w)),
                      HunkOf(before, after, edits, v)).Failed?
  {
    HunkPlace(before, after, edits, w);
    HunkPlace(before, after, edits, v);
    OldCountGrows(edits, v.start, w.end);
  }

  lemma OverlapFails(before: seq<string>, after: seq<string>, edits: seq<Edit>, windows: seq<Window>, k: nat)
    requires Describes(before, after, edits) && NoLoneChange(edits) && Chain(edits, windows) && InBounds(edits, windows)
    requires k + 1 < |windows| && windows[k + 1].start < windows[k].end
    ensures ApplyHunks(before, HunksOf(before, after, edits, windows)).Failed?
  {
    var hunks := HunksOf(before, after, edits, windows);
    OverlapStartsUnchanged(edits, windows, k);
    OverlappingHunkFails(before, after, edits, ApplyHunks(before, hunks[..k]), windows[k], windows[k + 1]);
    assert hunks[..k + 2][..k + 1] == hunks[..k + 1] && hunks[..k + 1][..k] == hunks[..k];
    FailedStays(before, hunks, k + 2);
  }

  /** Applying the diff to the old file gives the new one exactly when no two of its differing lines are
      so close that their hunks overlap. */
  lemma PatchesIff(before: seq<string>, after: seq<string>, hunks: seq<Hunk>, windows: seq<Window>)
    requires HunksOfWindows(before, after, windows, hunks)
    ensures PatchesTo(before, hunks, after) <==> !Overlapping(before, after)
  {
    var edits := EditScript(before, after);
    ScriptHasNoLoneChange(before, after);
    OverlappingMeaning(before, after);
    DisjointIff(edits, windows);
    if Disjoint(windows) {
      DiffPatchesOldToNew(before, after, windows);
    } else {
      var u, length :| OverlapsAt(edits, u, length);
      var k := GapMeets(edits, windows, u, length);
      ScriptProjects(before, after);
      OverlapFails(before, after, edits, windows, k);
    }
  }

  // ---- Lines counted, lines skipped, lines counted twice ----

  /** The file whose lines carry the mark. */
  function SideLines(before: seq<string>, after: seq<string>, mark: char): seq<string> {
    if mark == '+' then after else before
  }

  /** The lines really added (mark `+`) or removed (mark `-`). */
  predicate IsTrue(before: seq<string>, after: seq<string>, mark: char, i: nat) {
    i < |SideLines(before, after, mark)| && Differs(before, after, i)
  }

  ghost function TrueLines(before: seq<string>, after: seq<string>, mark: char): set<nat> {
    set i: nat | i < |SideLines(before, after, mark)| && IsTrue(before, after, mark, i)
  }

  /** Those among them that the count leaves out, because they start with the mark twice. */
  ghost function SkippedLines(before: seq<string>, after: seq<string>, mark: char): set<nat> {
    set i: nat | i < |SideLines(before, after, mark)| && IsTrue(before, after, mark, i)
                 && StartsTwice(SideLines(before, after, mark)[i], mark)
  }

  ghost function CountedOnce(before: seq<string>, after: seq<string>, mark: char): set<nat> {
    set i: nat | i < |SideLines(before, after, mark)| && IsTrue(before, after, mark, i)
                 && !StartsTwice(SideLines(before, after, mark)[i], mark)
  }

  /** The first edit of line `i` is counted under the mark. */
  predicate FirstCounted(before: seq<string>, after: seq<string>, mark: char, i: nat) {
    && i < |SideLines(before, after, mark)| && (mark == '+' ==> i >= |before|)
    && !StartsTwice(SideLines(before, after, mark)[i], mark)
  }

  /** Line `i` comes after exactly three equal lines, more of the script follows, and the edit shared by
      the two hunks is counted. */
  ghost predicate DoubledAt(before: seq<string>, after: seq<string>, mark: char, i: nat) {
    i >= 4 && FileGap(before, after, i - 4, 3) && !EndsScript(before, after, i) && FirstCounted(before, after, mark, i)
  }

  ghost function DoubledLines(before: seq<string>, after: seq<string>, mark: char): set<nat> {
    set i: nat | i < Lines(before, after) && DoubledAt(before, after, mark, i)
  }

  // ---- Counting edits line by line ----

  function One(b: bool): nat {
    if b then 1 else 0
  }

  function Weight(before: seq<string>, after: seq<string>, flags: seq<bool>, i: nat): nat
    requires i < Lines(before, after) && |flags| == |EditScript(before, after)|
  {
    ScriptAt(before, after, i, 0);
    EditsAtShape(before, after, i);
    var at := StartOf(before, after, i);
    if |EditsAt(before, after, i)| == 2 then
      ScriptAt(before, after, i, 1);
      One(flags[at]) + One(flags[at + 1])
    else One(flags[at])
  }

  ghost function Below(lines: set<nat>, n: nat): set<nat> {
    set i | i in lines && i < n
  }

  lemma BelowStep(lines: set<nat>, n: nat)
    ensures |Below(lines, n + 1)| == |Below(lines, n)| + One(n in lines)
  {
    if n in lines {
      assert Below(lines, n + 1) == Below(lines, n) + {n};
    } else {
      assert Below(lines, n + 1) == Below(lines, n);
    }
  }

  /** If each line holds one flagged edit or none, there are as many flagged edits as such lines. */
  lemma {:induction false} FlaggedByLine(before: seq<string>, after: seq<string>, flags: seq<bool>, lines: set<nat>,
                                         n: nat)
    requires n <= Lines(before, after) && |flags| == |EditScript(before, after)|
    requires forall i: nat :: i < Lines(before, after) ==> Weight(before, after, flags, i) == One(i in lines)
    ensures StartOf(before, after, n) <= |flags| && |Marked(flags, 0, StartOf(before, after, n))| == |Below(lines, n)|
  {
    if n == 0 {
      FlaggedNone(before, after, flags, lines);
    } else {
      FlaggedByLine(before, after, flags, lines, n - 1);
      FlaggedStep(before, after, flags, lines, n - 1);
    }
  }

  lemma FlaggedStep(before: seq<string>, after: seq<string>, flags: seq<bool>, lines: set<nat>, i: nat)
    requires i < Lines(before, after) && |flags| == |EditScript(before, after)|
    requires Weight(before, after, flags, i) == One(i in lines)
    requires StartOf(before, after, i) <= |flags| && |Marked(flags, 0, StartOf(before, after, i))| == |Below(lines, i)|
    ensures StartOf(before, after, i + 1) <= |flags|
    ensures |Marked(flags, 0, StartOf(before, after, i + 1))| == |Below(lines, i + 1)|
  {
    LineFlags(before, after, flags, i);
    BelowStep(lines, i);
  }

  lemma FlaggedNone(before: seq<string>, after: seq<string>, flags: seq<bool>, lines: set<nat>)
    ensures StartOf(before, after, 0) == 0 && |Marked(flags, 0, 0)| == 0 == |Below(lines, 0)|
  {
    assert Marked(flags, 0, 0) == {} && Below(lines, 0) == {};
  }

  lemma LineFlags(before: seq<string>, after: seq<string>, flags: seq<bool>, i: nat)
    requires i < Lines(before, after) && |flags| == |EditScript(before, after)|
    ensures StartOf(before, after, i) <= StartOf(before, after, i + 1) <= |flags|
    ensures |Marked(flags, 0, StartOf(before, after, i + 1))| ==
            |Marked(flags, 0, StartOf(before, after, i))| + Weight(before, after, flags, i)
  {
    var at := StartOf(before, after, i);
    EditsAtShape(before, after, i);
    ScriptAt(before, after, i, 0);
    MarkedStep(flags, 0, at + 1);
    if |EditsAt(before, after, i)| == 2 {
      ScriptAt(before, after, i, 1);
      MarkedStep(flags, 0, at + 2);
    }
  }

  lemma FlagAt(before: seq<string>, after: seq<string>, edits: seq<Edit>, mark: char, x: nat)
    requires (mark == '+' || mark == '-') && Proper(before, after, edits) && x < |edits|
    ensures Flags(before, after, edits, mark)[x] <==>
            if mark == '+' then edits[x].oldIdx < 0 && !StartsTwice(after[edits[x].newIdx], '+')
            else edits[x].newIdx < 0 && !StartsTwice(before[edits[x].oldIdx], '-')
  {
    assert ProperEdit(before, after, edits[x]);
    CountedMeaning(before, after, edits[x]);
  }

  lemma FirstFlag(before: seq<string>, after: seq<string>, mark: char, i: nat)
    requires (mark == '+' || mark == '-') && i < Lines(before, after)
    ensures StartOf(before, after, i) < |EditScript(before, after)|
    ensures Flags(before, after, EditScript(before, after), mark)[StartOf(before, after, i)] <==>
            Differs(before, after, i) && FirstCounted(before, after, mark, i)
  {
    EditsAtShape(before, after, i);
    ScriptAt(before, after, i, 0);
    ScriptProjects(before, after);
    FlagAt(before, after, EditScript(before, after), mark, StartOf(before, after, i));
  }

  lemma SecondFlag(before: seq<string>, after: seq<string>, mark: char, i: nat)
    requires (mark == '+' || mark == '-') && i < Lines(before, after) && |EditsAt(before, after, i)| == 2
    ensures i < |after| && StartOf(before, after, i) + 1 < |EditScript(before, after)|
    ensures Flags(before, after, EditScript(before, after), mark)[StartOf(before, after, i) + 1] <==>
            mark == '+' && !StartsTwice(after[i], '+')
  {
    EditsAtShape(before, after, i);
    ScriptAt(before, after, i, 1);
    ScriptProjects(before, after);
    FlagAt(before, after, EditScript(before, after), mark, StartOf(before, after, i) + 1);
  }

  lemma CountedWeight(before: seq<string>, after: seq<string>, mark: char, i: nat)
    requires (mark == '+' || mark == '-') && i < Lines(before, after)
    ensures Weight(before, after, Flags(before, after, EditScript(before, after), mark), i) ==
            One(i in CountedOnce(before, after, mark))
  {
    EditsAtShape(before, after, i);
    FirstFlag(before, after, mark, i);
    if |EditsAt(before, after, i)| == 2 {
      SecondFlag(before, after, mark, i);
    }
  }

  lemma CountedLinesCount(before: seq<string>, after: seq<string>, mark: char)
    requires mark == '+' || mark == '-'
    ensures |Positions(before, after, EditScript(before, after), mark, 0, |EditScript(before, after)|)| ==
            |CountedOnce(before, after, mark)|
  {
    var flags, lines := Flags(before, after, EditScript(before, after), mark), CountedOnce(before, after, mark);
    forall i: nat | i < Lines(before, after) ensures Weight(before, after, flags, i) == One(i in lines) {
      CountedWeight(before, after, mark, i);
    }
    FlaggedByLine(before, after, flags, lines, Lines(before, after));
    assert Below(lines, Lines(before, after)) == lines;
  }

  // ---- Edits in two windows ----

  /** What is in the last set and in one before, for every set in turn. */
  function Twice(sets: seq<set<nat>>): set<nat> {
    if sets == [] then {}
    else Twice(sets[..|sets| - 1]) + (Union(sets[..|sets| - 1]) * sets[|sets| - 1])
  }

  /** Only neighbours may intersect. */
  ghost predicate FarApart(sets: seq<set<nat>>) {
    forall i, j :: 0 <= i && i + 2 <= j < |sets| ==> sets[i] !! sets[j]
  }

  lemma {:induction false} TwiceMembers(sets: seq<set<nat>>, x: nat)
    ensures x in Twice(sets) <==> exists i, j :: 0 <= i < j < |sets| && x in sets[i] && x in sets[j]
  {
    if sets != [] {
      var m := |sets| - 1;
      TwiceMembers(sets[..m], x);
      UnionMembers(sets[..m], x);
      assert forall i :: 0 <= i < m ==> sets[..m][i] == sets[i];
      if x in Twice(sets[..m]) {
        var i, j :| 0 <= i < j < m && x in sets[..m][i] && x in sets[..m][j];
        assert x in sets[i] && x in sets[j];
      }
      if x in Union(sets[..m]) && x in sets[m] {
        var i :| 0 <= i < m && x in sets[..m][i];
        assert x in sets[i];
      }
    }
  }

  /** If only neighbours intersect, sizes add up to the union and what is shared. */
  lemma {:induction false} SumIsUnionAndTwice(sets: seq<set<nat>>)
    requires FarApart(sets)
    ensures Sum(sets) == |Union(sets)| + |Twice(sets)|
  {
    if sets != [] {
      var m := |sets| - 1;
      var rest := sets[..m];
      assert forall i :: 0 <= i < m ==> rest[i] == sets[i];
      SumIsUnionAndTwice(rest);
      UnionSize(Union(rest), sets[m]);
      forall x | x in Twice(rest) ensures x !in sets[m] {
        TwiceMembers(rest, x);
        var i, j :| 0 <= i < j < m && x in rest[i] && x in rest[j];
        assert sets[i] !! sets[m] || i + 2 > m;
      }
      var shared := Union(rest) * sets[m];
      assert Twice(rest) !! shared;
      UnionSize(Twice(rest), shared);
    }
  }

  /** The edit at `x` is counted, and shown by two hunks. */
  ghost predicate SharedAt(before: seq<string>, after: seq<string>, mark: char, x: nat)
    requires x < |EditScript(before, after)|
  {
    && Flags(before, after, EditScript(before, after), mark)[x]
    && x >= 3 && Gap(EditScript(before, after), x - 3, 3) && x + 1 < |EditScript(before, after)|
  }

  ghost function SharedFlags(before: seq<string>, after: seq<string>, mark: char): seq<bool> {
    seq(|EditScript(before, after)|, x requires 0 <= x < |EditScript(before, after)| =>
        SharedAt(before, after, mark, x))
  }

  lemma CountedIsChange(before: seq<string>, after: seq<string>, mark: char, x: nat)
    requires (mark == '+' || mark == '-') && x < |EditScript(before, after)|
    requires Flags(before, after, EditScript(before, after), mark)[x]
    ensures !Unchanged(EditScript(before, after)[x])
  {
    ScriptProjects(before, after);
    assert ProperEdit(before, after, EditScript(before, after)[x]);
    CountedMeaning(before, after, EditScript(before, after)[x]);
  }

  lemma WindowsFarApart(before: seq<string>, after: seq<string>, windows: seq<Window>, mark: char)
    requires var edits := EditScript(before, after); Windows(edits, windows) && InBounds(edits, windows)
    ensures FarApart(WindowPositions(before, after, EditScript(before, after), windows, mark))
  {
    var edits := EditScript(before, after);
    var sets := WindowPositions(before, after, edits, windows, mark);
    ScriptHasNoLoneChange(before, after);
    forall i, j | 0 <= i && i + 2 <= j < |sets| ensures sets[i] !! sets[j] {
      FarWindowsApart(edits, windows, i, j);
    }
  }

  lemma TwiceAreShared(before: seq<string>, after: seq<string>, windows: seq<Window>, mark: char, i: nat, j: nat,
                       x: nat)
    requires mark == '+' || mark == '-'
    requires var edits := EditScript(before, after); Windows(edits, windows) && InBounds(edits, windows)
    requires i < j < |windows|
    requires var sets := WindowPositions(before, after, EditScript(before, after), windows, mark);
             x in sets[i] && x in sets[j]
    ensures x < |EditScript(before, after)| && SharedAt(before, after, mark, x)
  {
    var edits := EditScript(before, after);
    ScriptHasNoLoneChange(before, after);
    if i + 2 <= j {
      FarWindowsApart(edits, windows, i, j);
    }
    CountedIsChange(before, after, mark, x);
    SharedChange(edits, windows, i, x);
  }

  lemma SharedAreTwice(before: seq<string>, after: seq<string>, windows: seq<Window>, mark: char, x: nat)
      returns (k: nat)
    requires var edits := EditScript(before, after); Windows(edits, windows) && InBounds(edits, windows)
    requires x < |EditScript(before, after)| && SharedAt(before, after, mark, x)
    ensures k + 1 < |windows|
    ensures var sets := WindowPositions(before, after, EditScript(before, after), windows, mark);
            x in sets[k] && x in sets[k + 1]
  {
    ScriptHasNoLoneChange(before, after);
    k := GapOfThreeShares(EditScript(before, after), windows, x);
  }

  lemma SharedMembers(before: seq<string>, after: seq<string>, windows: seq<Window>, mark: char, x: nat)
    requires mark == '+' || mark == '-'
    requires var edits := EditScript(before, after); Windows(edits, windows) && InBounds(edits, windows)
    ensures x in Twice(WindowPositions(before, after, EditScript(before, after), windows, mark)) <==>
            x < |EditScript(before, after)| && SharedAt(before, after, mark, x)
  {
    var sets := WindowPositions(before, after, EditScript(before, after), windows, mark);
    TwiceMembers(sets, x);
    if x in Twice(sets) {
      var i, j :| 0 <= i < j < |sets| && x in sets[i] && x in sets[j];
      TwiceAreShared(before, after, windows, mark, i, j, x);
    } else if x < |EditScript(before, after)| && SharedAt(before, after, mark, x) {
      var k := SharedAreTwice(before, after, windows, mark, x);
    }
  }

  lemma DoubledIsShared(before: seq<string>, after: seq<string>, mark: char, i: nat)
    requires (mark == '+' || mark == '-') && i < Lines(before, after) && DoubledAt(before, after, mark, i)
    ensures StartOf(before, after, i) < |EditScript(before, after)|
    ensures SharedAt(before, after, mark, StartOf(before, after, i))
  {
    FirstFlag(before, after, mark, i);
    FileGapInScript(before, after, i - 4, 3);
    EndsScriptMeaning(before, after, i);
  }

  lemma SameStart(before: seq<string>, after: seq<string>, i: nat, j: nat)
    requires i <= Lines(before, after) && j <= Lines(before, after)
    requires StartOf(before, after, i) == StartOf(before, after, j)
    ensures i == j
  {
    StartsAreDistinct(before, after, i, j);
    StartsAreDistinct(before, after, j, i);
  }

  /** A line whose first edit follows a gap of three edits comes after three equal lines. */
  lemma GapBeforeLine(before: seq<string>, after: seq<string>, i: nat)
    requires i < Lines(before, after) && StartOf(before, after, i) >= 3
    requires Gap(EditScript(before, after), StartOf(before, after, i) - 3, 3)
    ensures i >= 4 && FileGap(before, after, i - 4, 3)
  {
    var p := ScriptGapInFile(before, after, StartOf(before, after, i) - 3, 3);
    FileGapInScript(before, after, p, 3);
    SameStart(before, after, i, p + 4);
  }

  lemma SharedIsDoubled(before: seq<string>, after: seq<string>, mark: char, i: nat)
    requires (mark == '+' || mark == '-') && i < Lines(before, after)
    requires StartOf(before, after, i) < |EditScript(before, after)|
    requires SharedAt(before, after, mark, StartOf(before, after, i))
    ensures DoubledAt(before, after, mark, i)
  {
    FirstFlag(before, after, mark, i);
    GapBeforeLine(before, after, i);
    EndsScriptMeaning(before, after, i);
  }

  lemma SharedFirst(before: seq<string>, after: seq<string>, mark: char, i: nat)
    requires (mark == '+' || mark == '-') && i < Lines(before, after)
    ensures StartOf(before, after, i) < |EditScript(before, after)|
    ensures SharedAt(before, after, mark, StartOf(before, after, i)) <==> DoubledAt(before, after, mark, i)
  {
    FirstFlag(before, after, mark, i);
    if DoubledAt(before, after, mark, i) {
      DoubledIsShared(before, after, mark, i);
    } else if SharedAt(before, after, mark, StartOf(before, after, i)) {
      SharedIsDoubled(before, after, mark, i);
    }
  }

  lemma StartsAreDistinct(before: seq<string>, after: seq<string>, i: nat, j: nat)
    requires i < j <= Lines(before, after) || i >= j
    ensures i < j ==> StartOf(before, after, i) < StartOf(before, after, j)
    decreases j
  {
    if i < j {
      EditsAtShape(before, after, j - 1);
      if i < j - 1 {
        StartsAreDistinct(before, after, i, j - 1);
      }
    }
  }

  lemma SharedSecond(before: seq<string>, after: seq<string>, mark: char, i: nat)
    requires i < Lines(before, after) && |EditsAt(before, after, i)| == 2
    ensures StartOf(before, after, i) + 1 < |EditScript(before, after)|
    ensures !SharedAt(before, after, mark, StartOf(before, after, i) + 1)
  {
    EditsAtShape(before, after, i);
    ScriptAt(before, after, i, 0);
    ScriptAt(before, after, i, 1);
    var x := StartOf(before, after, i) + 1;
    assert Unchanged(EditScript(before, after)[x - 1]) || x < 3 || !Gap(EditScript(before, after), x - 3, 3);
  }

  lemma SharedLinesCount(before: seq<string>, after: seq<string>, mark: char)
    requires mark == '+' || mark == '-'
    ensures |Marked(SharedFlags(before, after, mark), 0, |EditScript(before, after)|)| ==
              |DoubledLines(before, after, mark)|
  {
    var flags, lines := SharedFlags(before, after, mark), DoubledLines(before, after, mark);
    forall i: nat | i < Lines(before, after) ensures Weight(before, after, flags, i) == One(i in lines) {
      EditsAtShape(before, after, i);
      SharedFirst(before, after, mark, i);
      if |EditsAt(before, after, i)| == 2 {
        SharedSecond(before, after, mark, i);
      }
    }
    FlaggedByLine(before, after, flags, lines, Lines(before, after));
    assert Below(lines, Lines(before, after)) == lines;
  }

  // ---- The line counts ----

  /** The count reported for a mark, from the files alone: the lines really changed, less those that start
      with the mark twice, plus those shown by two hunks. */
  lemma ReportedCount(before: seq<string>, after: seq<string>, windows: seq<Window>, mark: char)
    requires mark == '+' || mark == '-'
    requires var edits := EditScript(before, after); Windows(edits, windows) && InBounds(edits, windows)
    ensures CountAll(HunksOf(before, after, EditScript(before, after), windows), mark) ==
            |CountedOnce(before, after, mark)| + |DoubledLines(before, after, mark)|
    ensures |TrueLines(before, after, mark)| == |CountedOnce(before, after, mark)| + |SkippedLines(before, after, mark)|
  {
    var edits := EditScript(before, after);
    var sets := WindowPositions(before, after, edits, windows, mark);
    CountIsSum(before, after, edits, windows, mark);
    WindowsFarApart(before, after, windows, mark);
    SumIsUnionAndTwice(sets);
    WindowsHoldAllCounted(before, after, windows, mark);
    CountedLinesCount(before, after, mark);
    TwiceIsShared(before, after, windows, mark);
    SharedLinesCount(before, after, mark);
    SplitTrue(before, after, mark);
  }

  lemma TwiceIsShared(before: seq<string>, after: seq<string>, windows: seq<Window>, mark: char)
    requires mark == '+' || mark == '-'
    requires var edits := EditScript(before, after); Windows(edits, windows) && InBounds(edits, windows)
    ensures Twice(WindowPositions(before, after, EditScript(before, after), windows, mark)) ==
            Marked(SharedFlags(before, after, mark), 0, |EditScript(before, after)|)
  {
    var sets := WindowPositions(before, after, EditScript(before, after), windows, mark);
    forall x: nat
      ensures x in Twice(sets) <==> x in Marked(SharedFlags(before, after, mark), 0, |EditScript(before, after)|)
    {
      SharedMembers(before, after, windows, mark, x);
    }
  }

  lemma SplitTrue(before: seq<string>, after: seq<string>, mark: char)
    ensures |TrueLines(before, after, mark)| == |CountedOnce(before, after, mark)| + |SkippedLines(before, after, mark)|
  {
    var once, skipped := CountedOnce(before, after, mark), SkippedLines(before, after, mark);
    assert TrueLines(before, after, mark) == once + skipped && once !! skipped;
    UnionSize(once, skipped);
  }

  // ---- The diff ----

  /** Counts are exact exactly if as many lines are skipped as are counted twice; never too small if none
      is skipped. */
  lemma CountsExactIff(before: seq<string>, after: seq<string>, windows: seq<Window>, mark: char)
    requires mark == '+' || mark == '-'
    requires var edits := EditScript(before, after); Windows(edits, windows) && InBounds(edits, windows)
    ensures var reported := CountAll(HunksOf(before, after, EditScript(before, after), windows), mark);
            var truth, skipped, doubled := |TrueLines(before, after, mark)|, SkippedLines(before, after, mark),
                DoubledLines(before, after, mark);
            && (reported == truth <==> |skipped| == |doubled|)
            && (reported >= truth <==> |skipped| <= |doubled|)
            && (skipped == {} ==> (reported == truth <==> doubled == {}))
  {
    ReportedCount(before, after, windows, mark);
  }

  /** Hunks and line counts of a pair of files. Whether the hunks turn the old file into the new one, and
      how far the counts are from the lines really changed, follows from the files alone. */
  method ComputeUnifiedDiff(oldContent: string, newContent: string) returns (diff: DiffResult)
    ensures exists windows :: HunksOfWindows(SplitLines(oldContent), SplitLines(newContent), windows, diff.hunks)
    ensures var before, after := SplitLines(oldContent), SplitLines(newContent);
            PatchesTo(before, diff.hunks, after) <==> !Overlapping(before, after)
    ensures var before, after := SplitLines(oldContent), SplitLines(newContent);
            && diff.linesAdded + |SkippedLines(before, after, '+')| ==
               |TrueLines(before, after, '+')| + |DoubledLines(before, after, '+')|
            && diff.linesRemoved + |SkippedLines(before, after, '-')| ==
               |TrueLines(before, after, '-')| + |DoubledLines(before, after, '-')|
  {
    var before, after := SplitLines(oldContent), SplitLines(newContent);
    var hunks := ComputeHunks(before, after);
    var added, removed := CountHunks(hunks);
    diff := DiffResult(hunks, added, removed);
    ghost var windows :| HunksOfWindows(before, after, windows, hunks);
    PatchesIff(before, after, hunks, windows);
    ReportedCount(before, after, windows, '+');
    ReportedCount(before, after, windows, '-');
  }

  /** A file that gains the line `++x` is reported to gain none. */
  lemma DoublePlusIsSkipped(windows: seq<Window>, hunks: seq<Hunk>)
    requires HunksOfWindows([], ["++x"], windows, hunks)
    ensures |TrueLines([], ["++x"], '+')| == 1 && CountAll(hunks, '+') == 0
  {
    ReportedCount([], ["++x"], windows, '+');
    DoublePlusLines();
  }

  lemma DoublePlusLines()
    ensures TrueLines([], ["++x"], '+') == {0} && CountedOnce([], ["++x"], '+') == {}
    ensures DoubledLines([], ["++x"], '+') == {}
  {
    assert StartsTwice("++x", '+');
  }

  /** Two changed lines with three equal ones between them: the second deletion is reported twice, and the
      hunks do not apply. */
  lemma NearbyChangesCountTwice(windows: seq<Window>, hunks: seq<Hunk>)
    requires HunksOfWindows(["a", "b", "c", "d", "e"], ["x", "b", "c", "d", "y"], windows, hunks)
    ensures var before, after := ["a", "b", "c", "d", "e"], ["x", "b", "c", "d", "y"];
            && |TrueLines(before, after, '-')| == 2 && CountAll(hunks, '-') == 3
            && !PatchesTo(before, hunks, after)
  {
    var before, after := ["a", "b", "c", "d", "e"], ["x", "b", "c", "d", "y"];
    NearbyLines(before, after);
    ReportedCount(before, after, windows, '-');
    PatchesIff(before, after, hunks, windows);
  }

  lemma NearbyLines(before: seq<string>, after: seq<string>)
    requires before == ["a", "b", "c", "d", "e"] && after == ["x", "b", "c", "d", "y"]
    ensures TrueLines(before, after, '-') == CountedOnce(before, after, '-') == {0, 4}
    ensures DoubledLines(before, after, '-') == {4} && Overlapping(before, after)
  {
    assert before[0] == "a" && after[0] == "x" && before[4] == "e" && after[4] == "y";
    assert FileGap(before, after, 0, 3);
    assert OverlapsAfter(before, after, 0, 3);
    assert DoubledAt(before, after, '-', 4);
  }
}
