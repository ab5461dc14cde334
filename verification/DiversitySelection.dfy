/** Reranking of retrieved chunks and the greedy selection under a per-file and a total cap. */
module DiversitySelection {

  datatype RetrievedChunk = RetrievedChunk(id: string, filePath: string, content: string, score: real)

  // ---- Selections ----

  /** Which of the first |mask| chunks are chosen. */
  type Mask = seq<bool>

  function Size(mask: Mask): nat {
    if mask == [] then 0 else Size(mask[..|mask| - 1]) + if mask[|mask| - 1] then 1 else 0
  }

  /** Chosen chunks whose file is among `files`. */
  function SizeIn(chunks: seq<RetrievedChunk>, mask: Mask, files: set<string>): nat
    requires |mask| <= |chunks|
  {
    if mask == [] then 0 else
      var n := |mask| - 1;
      SizeIn(chunks, mask[..n], files) + if mask[n] && chunks[n].filePath in files then 1 else 0
  }

  function Total(chunks: seq<RetrievedChunk>, mask: Mask): real
    requires |mask| <= |chunks|
  {
    if mask == [] then 0.0 else
      var n := |mask| - 1;
      Total(chunks, mask[..n]) + if mask[n] then chunks[n].score else 0.0
  }

  function Kept(chunks: seq<RetrievedChunk>, mask: Mask): seq<RetrievedChunk>
    requires |mask| <= |chunks|
  {
    if mask == [] then [] else
      var n := |mask| - 1;
      Kept(chunks, mask[..n]) + if mask[n] then [chunks[n]] else []
  }

  // ---- Selections as chunks ----

  /** `selected` are chunks of the list, each taken once, in its order. */
  ghost predicate Picks(chunks: seq<RetrievedChunk>, positions: seq<nat>, selected: seq<RetrievedChunk>) {
    && |positions| == |selected|
    && (forall k :: 0 <= k < |positions| ==> positions[k] < |chunks| && selected[k] == chunks[positions[k]])
    && forall j, k :: 0 <= j < k < |positions| ==> positions[j] < positions[k]
  }

  function CountOf(selected: seq<RetrievedChunk>, file: string): nat {
    if selected == [] then 0 else
      var last := |selected| - 1;
      CountOf(selected[..last], file) + if selected[last].filePath == file then 1 else 0
  }

  function ScoreSum(selected: seq<RetrievedChunk>): real {
    if selected == [] then 0.0 else ScoreSum(selected[..|selected| - 1]) + selected[|selected| - 1].score
  }

  ghost predicate WithinCaps(selected: seq<RetrievedChunk>, maxPerFile: int, finalK: int) {
    |selected| <= finalK && forall f :: CountOf(selected, f) <= maxPerFile
  }

  /** No choice of chunks within the caps has a higher total score. */
  ghost predicate Best(chunks: seq<RetrievedChunk>, selected: seq<RetrievedChunk>, maxPerFile: int, finalK: int) {
    forall positions, rival :: Picks(chunks, positions, rival) && WithinCaps(rival, maxPerFile, finalK) ==>
      ScoreSum(rival) <= ScoreSum(selected)
  }

  function Positions(mask: Mask): seq<nat> {
    if mask == [] then [] else
      Positions(mask[..|mask| - 1]) + if mask[|mask| - 1] then [|mask| - 1] else []
  }

  lemma OneMoreChunk(selected: seq<RetrievedChunk>, chunk: RetrievedChunk, file: string)
    ensures CountOf(selected + [chunk], file) == CountOf(selected, file) + if chunk.filePath == file then 1 else 0
    ensures ScoreSum(selected + [chunk]) == ScoreSum(selected) + chunk.score
  {
    assert (selected + [chunk])[..|selected|] == selected;
  }

  /** The chunks of a mask are those it marks, and its numbers are theirs. */
  lemma {:induction false} KeptPicks(chunks: seq<RetrievedChunk>, mask: Mask)
    requires |mask| <= |chunks|
    ensures Picks(chunks, Positions(mask), Kept(chunks, mask))
    ensures forall k :: 0 <= k < |Positions(mask)| ==> Positions(mask)[k] < |mask|
  {
    if mask != [] {
      KeptPicks(chunks, mask[..|mask| - 1]);
    }
  }

  lemma {:induction false} KeptNumbers(chunks: seq<RetrievedChunk>, mask: Mask, file: string)
    requires |mask| <= |chunks|
    ensures |Kept(chunks, mask)| == Size(mask) && CountOf(Kept(chunks, mask), file) == SizeIn(chunks, mask, {file})
    ensures ScoreSum(Kept(chunks, mask)) == Total(chunks, mask)
  {
    if mask != [] {
      KeptNumbers(chunks, mask[..|mask| - 1], file);
      var before := Kept(chunks, mask[..|mask| - 1]);
      OneMoreChunk(before, chunks[|mask| - 1], file);
      assert before + [] == before;
    }
  }

  function MaskOf(positions: seq<nat>, n: nat): Mask {
    seq(n, i => i in positions)
  }

  lemma MaskEndsTaken(positions: seq<nat>, n: nat)
    requires positions != [] && positions[|positions| - 1] == n - 1
    requires forall j, k :: 0 <= j < k < |positions| ==> positions[j] < positions[k]
    ensures MaskOf(positions, n)[..n - 1] == MaskOf(positions[..|positions| - 1], n - 1) && MaskOf(positions, n)[n - 1]
  {
    assert positions == positions[..|positions| - 1] + [n - 1];
  }

  lemma MaskEndsSkipped(positions: seq<nat>, n: nat)
    requires n > 0 && forall k :: 0 <= k < |positions| ==> positions[k] < n - 1
    ensures MaskOf(positions, n)[..n - 1] == MaskOf(positions, n - 1) && !MaskOf(positions, n)[n - 1]
  {
  }

  ghost predicate Below(positions: seq<nat>, n: nat) {
    forall k :: 0 <= k < |positions| ==> positions[k] < n
  }

  lemma PicksBefore(chunks: seq<RetrievedChunk>, positions: seq<nat>, selected: seq<RetrievedChunk>, n: nat)
    requires Picks(chunks, positions, selected) && positions != [] && positions[|positions| - 1] == n - 1
    ensures Picks(chunks, positions[..|positions| - 1], selected[..|positions| - 1])
    ensures Below(positions[..|positions| - 1], n - 1)
    ensures selected == selected[..|positions| - 1] + [chunks[n - 1]]
  {
  }

  /** Every choice of chunks is that of a mask. */
  lemma {:induction false} PicksAreKept(chunks: seq<RetrievedChunk>, positions: seq<nat>,
                                        selected: seq<RetrievedChunk>, n: nat)
    requires Picks(chunks, positions, selected) && n <= |chunks| && Below(positions, n)
    ensures Kept(chunks, MaskOf(positions, n)) == selected
    decreases n
  {
    var last := |positions| - 1;
    if n > 0 && positions != [] && positions[last] == n - 1 {
      PicksBefore(chunks, positions, selected, n);
      PicksAreKept(chunks, positions[..last], selected[..last], n - 1);
      MaskEndsTaken(positions, n);
    } else if n > 0 {
      PicksAreKept(chunks, positions, selected, n - 1);
      MaskEndsSkipped(positions, n);
    }
  }

  lemma CapsAreFeasible(chunks: seq<RetrievedChunk>, positions: seq<nat>, rival: seq<RetrievedChunk>, maxPerFile: int,
                        finalK: int)
    requires Picks(chunks, positions, rival) && WithinCaps(rival, maxPerFile, finalK)
    ensures var mask := MaskOf(positions, |chunks|);
            Feasible(chunks, mask, maxPerFile, finalK) && Total(chunks, mask) == ScoreSum(rival)
  {
    var mask := MaskOf(positions, |chunks|);
    PicksAreKept(chunks, positions, rival, |chunks|);
    KeptNumbers(chunks, mask, "");
    forall f ensures SizeIn(chunks, mask, {f}) <= maxPerFile {
      KeptNumbers(chunks, mask, f);
    }
  }

  /** The greedy choice, seen as chunks. */
  lemma GreedyChunks(chunks: seq<RetrievedChunk>, maxPerFile: int, finalK: int)
    ensures var mask := Greedy(chunks, maxPerFile, finalK, |chunks|);
            && Picks(chunks, Positions(mask), Kept(chunks, mask))
            && (maxPerFile >= 0 && finalK >= 0 ==> WithinCaps(Kept(chunks, mask), maxPerFile, finalK))
            && (Descending(chunks) && (forall i :: 0 <= i < |chunks| ==> chunks[i].score >= 0.0) ==>
                  Best(chunks, Kept(chunks, mask), maxPerFile, finalK))
  {
    var mask := Greedy(chunks, maxPerFile, finalK, |chunks|);
    KeptPicks(chunks, mask);
    KeptNumbers(chunks, mask, "");
    if maxPerFile >= 0 && finalK >= 0 {
      GreedyIsFeasible(chunks, maxPerFile, finalK);
      forall f ensures CountOf(Kept(chunks, mask), f) <= maxPerFile {
        KeptNumbers(chunks, mask, f);
      }
    }
    if Descending(chunks) && (forall i :: 0 <= i < |chunks| ==> chunks[i].score >= 0.0) {
      forall positions, rival | Picks(chunks, positions, rival) && WithinCaps(rival, maxPerFile, finalK)
        ensures ScoreSum(rival) <= ScoreSum(Kept(chunks, mask))
      {
        CapsAreFeasible(chunks, positions, rival, maxPerFile, finalK);
        GreedyIsOptimal(chunks, maxPerFile, finalK, MaskOf(positions, |chunks|));
      }
    }
  }

  /** Sub-selections that respect both caps. */
  ghost predicate Feasible(chunks: seq<RetrievedChunk>, mask: Mask, maxPerFile: int, finalK: int) {
    && |mask| == |chunks|
    && Size(mask) <= finalK
    && forall f :: SizeIn(chunks, mask, {f}) <= maxPerFile
  }

  /** Greedy choice among the first `n` chunks. */
  function Greedy(chunks: seq<RetrievedChunk>, maxPerFile: int, finalK: int, n: nat): (mask: Mask)
    requires n <= |chunks|
    ensures |mask| == n
  {
    if n == 0 then [] else
      var before := Greedy(chunks, maxPerFile, finalK, n - 1);
      var file := chunks[n - 1].filePath;
      before + [Size(before) < finalK && SizeIn(chunks, before, {file}) < maxPerFile]
  }

  lemma GreedyStep(chunks: seq<RetrievedChunk>, maxPerFile: int, finalK: int, i: nat)
    requires i < |chunks|
    ensures var before, after := Greedy(chunks, maxPerFile, finalK, i), Greedy(chunks, maxPerFile, finalK, i + 1);
            var file := chunks[i].filePath;
            var taken := |Kept(chunks, before)| < finalK && SizeIn(chunks, before, {file}) < maxPerFile;
            && Size(before) == |Kept(chunks, before)|
            && Kept(chunks, after) == Kept(chunks, before) + (if taken then [chunks[i]] else [])
            && forall f :: SizeIn(chunks, after, {f}) ==
                           SizeIn(chunks, before, {f}) + if taken && f == file then 1 else 0
  {
    KeptNumbers(chunks, Greedy(chunks, maxPerFile, finalK, i), "");
    assert Greedy(chunks, maxPerFile, finalK, i + 1)[..i] == Greedy(chunks, maxPerFile, finalK, i);
  }

  class DiversitySelector {
    const maxPerFile: int
    const finalK: int

    constructor (maxPerFile: int, finalK: int)
      ensures this.maxPerFile == maxPerFile && this.finalK == finalK
    {
      this.maxPerFile, this.finalK := maxPerFile, finalK;
    }

    method Select(chunks: seq<RetrievedChunk>) returns (selected: seq<RetrievedChunk>)
      ensures selected == Kept(chunks, Greedy(chunks, maxPerFile, finalK, |chunks|))
      ensures exists positions :: Picks(chunks, positions, selected)
      ensures maxPerFile >= 0 && finalK >= 0 ==> WithinCaps(selected, maxPerFile, finalK)
      ensures Descending(chunks) && (forall i :: 0 <= i < |chunks| ==> chunks[i].score >= 0.0) ==>
                Best(chunks, selected, maxPerFile, finalK)
    {
      var perFile: map<string, int> := map[];
      selected := [];
      for i := 0 to |chunks|
        invariant selected == Kept(chunks, Greedy(chunks, maxPerFile, finalK, i))
        invariant forall f :: (if f in perFile then perFile[f] else 0) ==
                              SizeIn(chunks, Greedy(chunks, maxPerFile, finalK, i), {f})
      {
        GreedyStep(chunks, maxPerFile, finalK, i);
        if |selected| >= finalK {
          FullStaysFull(chunks, maxPerFile, finalK, i);
          break;
        }
        var file := chunks[i].filePath;
        var count := if file in perFile then perFile[file] else 0;
        perFile := perFile[file := count];
        if count < maxPerFile {
          selected := selected + [chunks[i]];
          perFile := perFile[file := count + 1];
        }
      }
      GreedyChunks(chunks, maxPerFile, finalK);
    }
  }

  lemma {:induction false} FullStaysFull(chunks: seq<RetrievedChunk>, maxPerFile: int, finalK: int, n: nat)
    requires n <= |chunks| && Size(Greedy(chunks, maxPerFile, finalK, n)) >= finalK
    ensures Kept(chunks, Greedy(chunks, maxPerFile, finalK, |chunks|)) ==
              Kept(chunks, Greedy(chunks, maxPerFile, finalK, n))
    decreases |chunks| - n
  {
    if n < |chunks| {
      var longer := Greedy(chunks, maxPerFile, finalK, n + 1);
      assert longer[..n] == Greedy(chunks, maxPerFile, finalK, n);
      FullStaysFull(chunks, maxPerFile, finalK, n + 1);
    }
  }

  // ---- The greedy choice is feasible ----

  lemma {:induction false} GreedyCaps(chunks: seq<RetrievedChunk>, maxPerFile: nat, finalK: nat, n: nat, f: string)
    requires n <= |chunks|
    ensures Size(Greedy(chunks, maxPerFile, finalK, n)) <= finalK
    ensures SizeIn(chunks, Greedy(chunks, maxPerFile, finalK, n), {f}) <= maxPerFile
  {
    if n > 0 {
      GreedyCaps(chunks, maxPerFile, finalK, n - 1, f);
      assert Greedy(chunks, maxPerFile, finalK, n)[..n - 1] == Greedy(chunks, maxPerFile, finalK, n - 1);
    }
  }

  lemma GreedyIsFeasible(chunks: seq<RetrievedChunk>, maxPerFile: nat, finalK: nat)
    ensures Feasible(chunks, Greedy(chunks, maxPerFile, finalK, |chunks|), maxPerFile, finalK)
  {
    forall f ensures SizeIn(chunks, Greedy(chunks, maxPerFile, finalK, |chunks|), {f}) <= maxPerFile {
      GreedyCaps(chunks, maxPerFile, finalK, |chunks|, f);
    }
    GreedyCaps(chunks, maxPerFile, finalK, |chunks|, "");
  }

  // ---- The greedy choice is ahead on every prefix ----

  lemma {:induction false} PrefixSizes(chunks: seq<RetrievedChunk>, mask: Mask, n: nat, files: set<string>)
    requires n <= |mask| <= |chunks|
    ensures SizeIn(chunks, mask[..n], files) <= SizeIn(chunks, mask, files)
    ensures Size(mask[..n]) <= Size(mask)
    decreases |mask|
  {
    if n < |mask| {
      var shorter := mask[..|mask| - 1];
      assert shorter[..n] == mask[..n];
      PrefixSizes(chunks, shorter, n, files);
    } else {
      assert mask[..n] == mask;
    }
  }

  /** As long as there is room, the greedy choice has at least as many chunks of each file. */
  lemma {:induction false} AheadPerFile(chunks: seq<RetrievedChunk>, maxPerFile: int, finalK: int, rival: Mask, n: nat,
                                        f: string)
    requires Feasible(chunks, rival, maxPerFile, finalK) && n <= |chunks|
    requires Size(Greedy(chunks, maxPerFile, finalK, n)) < finalK
    ensures SizeIn(chunks, rival[..n], {f}) <= SizeIn(chunks, Greedy(chunks, maxPerFile, finalK, n), {f})
  {
    if n > 0 {
      assert Greedy(chunks, maxPerFile, finalK, n)[..n - 1] == Greedy(chunks, maxPerFile, finalK, n - 1);
      assert rival[..n][..n - 1] == rival[..n - 1];
      AheadPerFile(chunks, maxPerFile, finalK, rival, n - 1, f);
      PrefixSizes(chunks, rival, n, {f});
    }
  }

  lemma {:induction false} SplitFiles(chunks: seq<RetrievedChunk>, mask: Mask, files: set<string>, f: string)
    requires |mask| <= |chunks| && f in files
    ensures SizeIn(chunks, mask, files) == SizeIn(chunks, mask, files - {f}) + SizeIn(chunks, mask, {f})
  {
    if mask != [] {
      SplitFiles(chunks, mask[..|mask| - 1], files, f);
    }
  }

  lemma {:induction false} NoFiles(chunks: seq<RetrievedChunk>, mask: Mask)
    requires |mask| <= |chunks|
    ensures SizeIn(chunks, mask, {}) == 0
  {
    if mask != [] {
      NoFiles(chunks, mask[..|mask| - 1]);
    }
  }

  lemma {:induction false} AheadInFiles(chunks: seq<RetrievedChunk>, maxPerFile: int, finalK: int, rival: Mask, n: nat,
                                        files: set<string>)
    requires Feasible(chunks, rival, maxPerFile, finalK) && n <= |chunks|
    requires Size(Greedy(chunks, maxPerFile, finalK, n)) < finalK
    ensures SizeIn(chunks, rival[..n], files) <= SizeIn(chunks, Greedy(chunks, maxPerFile, finalK, n), files)
    decreases files
  {
    if files == {} {
      NoFiles(chunks, rival[..n]);
    } else {
      var f :| f in files;
      AheadPerFile(chunks, maxPerFile, finalK, rival, n, f);
      AheadInFiles(chunks, maxPerFile, finalK, rival, n, files - {f});
      SplitFiles(chunks, rival[..n], files, f);
      SplitFiles(chunks, Greedy(chunks, maxPerFile, finalK, n), files, f);
    }
  }

  lemma {:induction false} AllFiles(chunks: seq<RetrievedChunk>, mask: Mask, files: set<string>)
    requires |mask| <= |chunks| && forall i :: 0 <= i < |mask| ==> chunks[i].filePath in files
    ensures SizeIn(chunks, mask, files) == Size(mask)
  {
    if mask != [] {
      AllFiles(chunks, mask[..|mask| - 1], files);
    }
  }

  /** On every prefix the greedy choice has taken at least as many chunks as any feasible one. */
  lemma GreedyStaysAhead(chunks: seq<RetrievedChunk>, maxPerFile: int, finalK: int, rival: Mask, n: nat)
    requires Feasible(chunks, rival, maxPerFile, finalK) && n <= |chunks|
    ensures Size(rival[..n]) <= Size(Greedy(chunks, maxPerFile, finalK, n))
  {
    PrefixSizes(chunks, rival, n, {});
    if Size(Greedy(chunks, maxPerFile, finalK, n)) < finalK {
      var files := set i | 0 <= i < |chunks| :: chunks[i].filePath;
      AheadInFiles(chunks, maxPerFile, finalK, rival, n, files);
      AllFiles(chunks, rival[..n], files);
      AllFiles(chunks, Greedy(chunks, maxPerFile, finalK, n), files);
    }
  }

  // ---- The greedy choice has the maximum total score ----

  ghost predicate Descending(chunks: seq<RetrievedChunk>) {
    forall i, j :: 0 <= i < j < |chunks| ==> chunks[i].score >= chunks[j].score
  }

  /** The gap in score covers `lead` chunks of score `score`. */
  ghost predicate Covers(gap: real, score: real, lead: int) {
    gap >= score * (lead as real)
  }

  function Worth(score: real, delta: int): real {
    if delta == 1 then score else if delta == 0 then 0.0 else -score
  }

  lemma LeadStep(a: real, b: real, lead: int, delta: int, gap: real)
    requires a >= b && lead >= 0 && Covers(gap, a, lead) && -1 <= delta <= 1
    ensures Covers(gap + Worth(b, delta), b, lead + delta)
  {
    var l := lead as real;
    assert (a - b) * l >= 0.0;
    assert gap >= b * l;
    if delta == 1 {
      assert b * (l + 1.0) == b * l + b;
    } else if delta == -1 {
      assert b * (l - 1.0) == b * l - b;
    }
  }

  ghost function Lead(chunks: seq<RetrievedChunk>, maxPerFile: int, finalK: int, rival: Mask, n: nat): int
    requires n <= |chunks| == |rival|
  {
    Size(Greedy(chunks, maxPerFile, finalK, n)) - Size(rival[..n])
  }

  ghost function Gap(chunks: seq<RetrievedChunk>, maxPerFile: int, finalK: int, rival: Mask, n: nat): real
    requires n <= |chunks| == |rival|
  {
    Total(chunks, Greedy(chunks, maxPerFile, finalK, n)) - Total(chunks, rival[..n])
  }

  lemma GapStep(chunks: seq<RetrievedChunk>, maxPerFile: int, finalK: int, rival: Mask, n: nat) returns (delta: int)
    requires n < |chunks| == |rival|
    ensures -1 <= delta <= 1
    ensures Lead(chunks, maxPerFile, finalK, rival, n + 1) == Lead(chunks, maxPerFile, finalK, rival, n) + delta
    ensures Gap(chunks, maxPerFile, finalK, rival, n + 1) ==
            Gap(chunks, maxPerFile, finalK, rival, n) + Worth(chunks[n].score, delta)
  {
    var ours := Greedy(chunks, maxPerFile, finalK, n + 1);
    assert ours[..n] == Greedy(chunks, maxPerFile, finalK, n);
    assert rival[..n + 1][..n] == rival[..n];
    delta := (if ours[n] then 1 else 0) - (if rival[n] then 1 else 0);
  }

  /** The lead in total score is at least the lead in chunks, valued at the last score seen. */
  lemma {:induction false} LeadInScore(chunks: seq<RetrievedChunk>, maxPerFile: int, finalK: int, rival: Mask, n: nat)
    requires Feasible(chunks, rival, maxPerFile, finalK) && Descending(chunks) && 0 < n <= |chunks|
    ensures Covers(Gap(chunks, maxPerFile, finalK, rival, n), chunks[n - 1].score,
                   Lead(chunks, maxPerFile, finalK, rival, n))
  {
    var delta := GapStep(chunks, maxPerFile, finalK, rival, n - 1);
    var lead, gap := Lead(chunks, maxPerFile, finalK, rival, n - 1), Gap(chunks, maxPerFile, finalK, rival, n - 1);
    if n > 1 {
      LeadInScore(chunks, maxPerFile, finalK, rival, n - 1);
      GreedyStaysAhead(chunks, maxPerFile, finalK, rival, n - 1);
      LeadStep(chunks[n - 2].score, chunks[n - 1].score, lead, delta, gap);
    } else {
      LeadStep(chunks[0].score, chunks[0].score, lead, delta, gap);
    }
  }

  /** Among all selections within the caps, the greedy one has the maximum total score. */
  lemma GreedyIsOptimal(chunks: seq<RetrievedChunk>, maxPerFile: int, finalK: int, rival: Mask)
    requires Feasible(chunks, rival, maxPerFile, finalK) && Descending(chunks)
    requires forall i :: 0 <= i < |chunks| ==> chunks[i].score >= 0.0
    ensures Total(chunks, rival) <= Total(chunks, Greedy(chunks, maxPerFile, finalK, |chunks|))
  {
    var n := |chunks|;
    assert rival[..n] == rival;
    if n > 0 {
      LeadInScore(chunks, maxPerFile, finalK, rival, n);
      GreedyStaysAhead(chunks, maxPerFile, finalK, rival, n);
      assert chunks[n - 1].score * (Lead(chunks, maxPerFile, finalK, rival, n) as real) >= 0.0;
    }
  }

  // ---- Reranking ----

  function Clamp(x: real): real {
    if x < 0.0 then 0.0 else if x > 1.0 then 1.0 else x
  }

  /** Weighted cosine and keyword score; `tokenise` stands for the word splitter. */
  function Rescored(chunk: RetrievedChunk, question: set<string>, tokenise: string -> set<string>): RetrievedChunk {
    var words := tokenise(chunk.content);
    var keyword := if question != {} && words != {} then |question * words| as real / |question| as real else 0.0;
    chunk.(score := 0.7 * Clamp(chunk.score) + 0.3 * keyword)
  }

  lemma RescoredRange(chunk: RetrievedChunk, question: set<string>, tokenise: string -> set<string>)
    ensures 0.0 <= Rescored(chunk, question, tokenise).score <= 1.0
  {
    var words := tokenise(chunk.content);
    if question != {} && words != {} {
      OverlapSize(question, words);
      Ratio(|question * words|, |question|);
    }
  }

  /** The weights: a score in range counts seven tenths, the share of the question's words three; nothing but
      the score changes. */
  lemma RescoredWeights(chunk: RetrievedChunk, question: set<string>, tokenise: string -> set<string>)
    ensures var rescored := Rescored(chunk, question, tokenise);
            && rescored.(score := chunk.score) == chunk
            && (0.0 <= chunk.score <= 1.0 && question * tokenise(chunk.content) == {} ==>
                  rescored.score == 0.7 * chunk.score)
            && (0.0 <= chunk.score <= 1.0 && question != {} && question <= tokenise(chunk.content) ==>
                  rescored.score == 0.7 * chunk.score + 0.3)
            && (chunk.score < 0.0 ==> rescored.score == Rescored(chunk.(score := 0.0), question, tokenise).score)
            && (chunk.score > 1.0 ==> rescored.score == Rescored(chunk.(score := 1.0), question, tokenise).score)
  {
    var words := tokenise(chunk.content);
    if question != {} && question <= words {
      assert question * words == question && words != {};
      OverlapSize(question, words);
      Whole(|question|);
    }
  }

  lemma Whole(n: nat)
    requires n > 0
    ensures n as real / n as real == 1.0
  {
  }

  lemma OverlapSize(a: set<string>, b: set<string>)
    ensures |a * b| <= |a| && (a != {} ==> |a| > 0)
  {
    assert a == (a * b) + (a - b);
  }

  lemma Scaled(q: real, whole: real)
    requires whole > 0.0
    ensures (q > 1.0 ==> q * whole > whole) && (q < 0.0 ==> q * whole < 0.0)
  {
    if q > 1.0 {
      assert (q - 1.0) * whole > 0.0;
    } else if q < 0.0 {
      assert (0.0 - q) * whole > 0.0;
    }
  }

  lemma Ratio(part: nat, whole: nat)
    requires part <= whole && whole > 0
    ensures 0.0 <= part as real / whole as real <= 1.0
  {
    var q := part as real / whole as real;
    assert q * whole as real == part as real;
    Scaled(q, whole as real);
  }

  /** Stable insertion in descending order of score: the library sort the reranker relies on. */
  function Inserted(chunk: RetrievedChunk, sorted: seq<RetrievedChunk>): seq<RetrievedChunk> {
    if sorted == [] || chunk.score >= sorted[0].score then [chunk] + sorted
    else [sorted[0]] + Inserted(chunk, sorted[1..])
  }

  function SortedDescending(chunks: seq<RetrievedChunk>): seq<RetrievedChunk> {
    if chunks == [] then [] else Inserted(chunks[0], SortedDescending(chunks[1..]))
  }

  lemma {:induction false} InsertedMembers(chunk: RetrievedChunk, sorted: seq<RetrievedChunk>)
    ensures multiset(Inserted(chunk, sorted)) == multiset{chunk} + multiset(sorted)
  {
    if !(sorted == [] || chunk.score >= sorted[0].score) {
      InsertedMembers(chunk, sorted[1..]);
      assert sorted == [sorted[0]] + sorted[1..];
    }
  }

  lemma {:induction false} InsertedSorts(chunk: RetrievedChunk, sorted: seq<RetrievedChunk>)
    requires Descending(sorted)
    ensures Descending(Inserted(chunk, sorted))
  {
    if !(sorted == [] || chunk.score >= sorted[0].score) {
      var rest := Inserted(chunk, sorted[1..]);
      InsertedSorts(chunk, sorted[1..]);
      InsertedMembers(chunk, sorted[1..]);
      forall i | 0 <= i < |rest| ensures sorted[0].score >= rest[i].score {
        assert rest[i] in multiset(rest);
        assert rest[i] == chunk || rest[i] in sorted[1..];
      }
    }
  }

  lemma {:induction false} SortSorts(chunks: seq<RetrievedChunk>)
    ensures Descending(SortedDescending(chunks)) && multiset(SortedDescending(chunks)) == multiset(chunks)
  {
    if chunks != [] {
      SortSorts(chunks[1..]);
      InsertedSorts(chunks[0], SortedDescending(chunks[1..]));
      InsertedMembers(chunks[0], SortedDescending(chunks[1..]));
      assert chunks == [chunks[0]] + chunks[1..];
    }
  }

  /** The chunks of one score, in order. */
  function WithScore(chunks: seq<RetrievedChunk>, score: real): seq<RetrievedChunk> {
    if chunks == [] then []
    else (if chunks[0].score == score then [chunks[0]] else []) + WithScore(chunks[1..], score)
  }

  lemma PrependedWithScore(chunk: RetrievedChunk, rest: seq<RetrievedChunk>, score: real)
    ensures WithScore([chunk] + rest, score) == (if chunk.score == score then [chunk] else []) + WithScore(rest, score)
  {
    assert ([chunk] + rest)[1..] == rest;
  }

  lemma {:induction false} InsertedFirst(chunk: RetrievedChunk, sorted: seq<RetrievedChunk>, score: real)
    ensures WithScore(Inserted(chunk, sorted), score) ==
            (if chunk.score == score then [chunk] else []) + WithScore(sorted, score)
  {
    if sorted == [] || chunk.score >= sorted[0].score {
      PrependedWithScore(chunk, sorted, score);
    } else {
      InsertedFirst(chunk, sorted[1..], score);
      PrependedWithScore(sorted[0], Inserted(chunk, sorted[1..]), score);
    }
  }

  /** Chunks of equal score keep their order. */
  lemma {:induction false} SortIsStable(chunks: seq<RetrievedChunk>, score: real)
    ensures WithScore(SortedDescending(chunks), score) == WithScore(chunks, score)
  {
    if chunks != [] {
      SortIsStable(chunks[1..], score);
      InsertedFirst(chunks[0], SortedDescending(chunks[1..]), score);
    }
  }

  function AllRescored(chunks: seq<RetrievedChunk>, question: set<string>,
                       tokenise: string -> set<string>): seq<RetrievedChunk> {
    seq(|chunks|, i requires 0 <= i < |chunks| => Rescored(chunks[i], question, tokenise))
  }

  lemma AllRescoredAt(chunks: seq<RetrievedChunk>, question: set<string>, tokenise: string -> set<string>, i: nat)
    requires i < |chunks|
    ensures |AllRescored(chunks, question, tokenise)| == |chunks|
    ensures AllRescored(chunks, question, tokenise)[i] == Rescored(chunks[i], question, tokenise)
  {
  }

  method Rerank(chunks: seq<RetrievedChunk>, question: set<string>, tokenise: string -> set<string>)
    returns (ranked: seq<RetrievedChunk>)
    ensures Descending(ranked) && (forall i :: 0 <= i < |ranked| ==> 0.0 <= ranked[i].score <= 1.0)
    ensures multiset(ranked) == multiset(AllRescored(chunks, question, tokenise))
    ensures forall score :: WithScore(ranked, score) == WithScore(AllRescored(chunks, question, tokenise), score)
  {
    var scored: seq<RetrievedChunk> := [];
    for i := 0 to |chunks|
      invariant scored == seq(i, k requires 0 <= k < i => Rescored(chunks[k], question, tokenise))
    {
      scored := scored + [Rescored(chunks[i], question, tokenise)];
    }
    assert scored == AllRescored(chunks, question, tokenise);
    SortSorts(scored);
    ranked := SortedDescending(scored);
    forall i | 0 <= i < |ranked| ensures 0.0 <= ranked[i].score <= 1.0 {
      assert ranked[i] in multiset(ranked);
      var k :| 0 <= k < |chunks| && scored[k] == ranked[i];
      RescoredRange(chunks[k], question, tokenise);
    }
    forall score ensures WithScore(ranked, score) == WithScore(scored, score) {
      SortIsStable(scored, score);
    }
  }

  /** Reranking, trimming and selection: the chunks kept maximise the total score within the caps
      among those still in play, whatever candidates and question come in. */
  method SelectBest(selector: DiversitySelector, candidates: seq<RetrievedChunk>, rerankK: nat, question: set<string>,
                    tokenise: string -> set<string>)
    returns (ghost ranked: seq<RetrievedChunk>, shortlist: seq<RetrievedChunk>, selected: seq<RetrievedChunk>)
    ensures Descending(ranked) && multiset(ranked) == multiset(AllRescored(candidates, question, tokenise))
    ensures shortlist == if rerankK < |ranked| then ranked[..rerankK] else ranked
    ensures exists positions :: Picks(shortlist, positions, selected)
    ensures selector.maxPerFile >= 0 && selector.finalK >= 0 ==>
              WithinCaps(selected, selector.maxPerFile, selector.finalK)
    ensures Best(shortlist, selected, selector.maxPerFile, selector.finalK)
  {
    shortlist := Rerank(candidates, question, tokenise);
    ranked := shortlist;
    if rerankK < |shortlist| {
      shortlist := shortlist[..rerankK];
    }
    selected := selector.Select(shortlist);
  }
}
