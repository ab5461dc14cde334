/** Splitting of oversized chunks at line boundaries under a token limit. */
module Chunking {
  import opened Json

  datatype ParsedChunk = ParsedChunk(filePath: string, language: string, chunkType: string, name: Option<string>,
                                     startLine: int, endLine: int, content: string,
                                     parserName: string, parserVersion: string, tokenCount: Option<nat>)

  /** The tokenizer and the string library, whatever they compute. */
  datatype Text = Text(tokens: string -> nat, truncate: (string, int) -> string,
                       splitLines: string -> seq<string>, isBlank: string -> bool)

  function Joined(lines: seq<string>): string {
    if lines == [] then ""
    else if |lines| == 1 then lines[0]
    else Joined(lines[..|lines| - 1]) + "\n" + lines[|lines| - 1]
  }

  function Oversized(text: Text, limit: int, line: string): bool {
    text.tokens(line) > limit
  }

  /** The lines from `a` up to but excluding `b`, joined, stay within the limit. */
  function Fits(text: Text, limit: int, lines: seq<string>, a: nat, b: nat): bool
    requires a <= b <= |lines|
  {
    text.tokens(Joined(lines[a..b])) <= limit
  }

  /** The sub-chunk for the lines from `a` up to but excluding `b`. Only the first one keeps the name. */
  function Piece(chunk: ParsedChunk, text: Text, limit: int, lines: seq<string>, a: nat, b: nat): ParsedChunk
    requires a < b <= |lines|
  {
    var content := if b == a + 1 && Oversized(text, limit, lines[a]) then text.truncate(lines[a], limit)
                   else Joined(lines[a..b]);
    ParsedChunk(chunk.filePath, chunk.language, "block", if a == 0 then chunk.name else None,
                chunk.startLine + a, chunk.startLine + b - 1, content,
                chunk.parserName, chunk.parserVersion, Some(text.tokens(content)))
  }

  // ---- Splits as cut positions: 0 = c0 < c1 < ... < cm ----

  /** A piece the embedder accepts: within the limit, or a single line, which truncation handles. */
  ghost predicate AcceptablePiece(text: Text, limit: int, lines: seq<string>, a: nat, b: nat) {
    a < b <= |lines| && (Fits(text, limit, lines, a, b) || b == a + 1)
  }

  ghost predicate AcceptableCuts(text: Text, limit: int, lines: seq<string>, cuts: seq<nat>) {
    if |cuts| <= 1 then cuts == [0] else
      var m := |cuts| - 1;
      AcceptableCuts(text, limit, lines, cuts[..m]) && AcceptablePiece(text, limit, lines, cuts[m - 1], cuts[m])
  }

  /** The piece could not have taken the next line as well. */
  ghost predicate Saturated(text: Text, limit: int, lines: seq<string>, a: nat, b: nat)
    requires a < b <= |lines|
  {
    b < |lines| ==>
      Oversized(text, limit, lines[a]) || Oversized(text, limit, lines[b]) || !Fits(text, limit, lines, a, b + 1)
  }

  /** However far the piece is cut short, it stays within the limit. */
  ghost predicate AllFit(text: Text, limit: int, lines: seq<string>, a: nat, b: nat)
    requires b <= |lines|
  {
    forall e :: a + 1 < e <= b ==> Fits(text, limit, lines, a, e)
  }

  /** A piece as the greedy walk makes it: saturated, never over the limit on the way, and free of
      oversized lines unless it is one. */
  ghost predicate GreedyPiece(text: Text, limit: int, lines: seq<string>, a: nat, b: nat) {
    && a < b <= |lines| && Saturated(text, limit, lines, a, b)
    && AllFit(text, limit, lines, a, b)
    && (b > a + 1 ==> forall i :: a <= i < b ==> !Oversized(text, limit, lines[i]))
  }

  ghost predicate GreedyCuts(text: Text, limit: int, lines: seq<string>, cuts: seq<nat>) {
    if |cuts| <= 1 then cuts == [0] else
      var m := |cuts| - 1;
      GreedyCuts(text, limit, lines, cuts[..m]) && GreedyPiece(text, limit, lines, cuts[m - 1], cuts[m])
  }

  ghost function PiecesOf(chunk: ParsedChunk, text: Text, limit: int, lines: seq<string>,
                          cuts: seq<nat>): seq<ParsedChunk>
    requires GreedyCuts(text, limit, lines, cuts)
  {
    if |cuts| <= 1 then [] else
      var m := |cuts| - 1;
      PiecesOf(chunk, text, limit, lines, cuts[..m]) + [Piece(chunk, text, limit, lines, cuts[m - 1], cuts[m])]
  }

  function Last(cuts: seq<nat>): nat
    requires cuts != []
  {
    cuts[|cuts| - 1]
  }

  /** What the splitter produces. */
  ghost predicate GreedySplit(chunk: ParsedChunk, text: Text, limit: int, lines: seq<string>, cuts: seq<nat>,
                              pieces: seq<ParsedChunk>)
  {
    && GreedyCuts(text, limit, lines, cuts) && Last(cuts) == |lines|
    && pieces == PiecesOf(chunk, text, limit, lines, cuts)
  }

  // ---- The splitter ----

  /** The walk has reached line `i`; the lines since the last boundary are buffered. */
  ghost predicate Walked(chunk: ParsedChunk, text: Text, limit: int, lines: seq<string>, i: nat,
                         cuts: seq<nat>, pieces: seq<ParsedChunk>)
  {
    && GreedyCuts(text, limit, lines, cuts)
    && pieces == PiecesOf(chunk, text, limit, lines, cuts)
    && Bufferable(text, limit, lines, Last(cuts), i)
  }

  ghost predicate Bufferable(text: Text, limit: int, lines: seq<string>, a: nat, i: nat) {
    && a <= i <= |lines|
    && (forall m :: a <= m < i ==> !Oversized(text, limit, lines[m]))
    && AllFit(text, limit, lines, a, i)
  }

  lemma PieceEnds(chunk: ParsedChunk, text: Text, limit: int, lines: seq<string>, i: nat, j: nat,
                  cuts: seq<nat>, pieces: seq<ParsedChunk>)
    requires Walked(chunk, text, limit, lines, i, cuts, pieces) && GreedyPiece(text, limit, lines, Last(cuts), j)
    ensures Walked(chunk, text, limit, lines, j, cuts + [j], pieces + [Piece(chunk, text, limit, lines, Last(cuts), j)])
    ensures pieces == [] <==> Last(cuts) == 0
  {
    assert (cuts + [j])[..|cuts|] == cuts;
  }

  lemma BufferIsGreedy(text: Text, limit: int, lines: seq<string>, a: nat, i: nat)
    requires Bufferable(text, limit, lines, a, i) && a < i && Saturated(text, limit, lines, a, i)
    ensures GreedyPiece(text, limit, lines, a, i)
  {
  }

  lemma BufferContent(chunk: ParsedChunk, text: Text, limit: int, lines: seq<string>, a: nat, i: nat)
    requires Bufferable(text, limit, lines, a, i) && a < i
    ensures Piece(chunk, text, limit, lines, a, i).content == Joined(lines[a..i])
  {
  }

  lemma OversizedIsGreedy(text: Text, limit: int, lines: seq<string>, i: nat)
    requires i < |lines| && Oversized(text, limit, lines[i])
    ensures GreedyPiece(text, limit, lines, i, i + 1)
  {
  }

  method Block(chunk: ParsedChunk, text: Text, first: bool, start: int, end: int, content: string)
      returns (p: ParsedChunk)
    ensures p == ParsedChunk(chunk.filePath, chunk.language, "block", if first then chunk.name else None, start, end,
                             content, chunk.parserName, chunk.parserVersion, Some(text.tokens(content)))
  {
    p := ParsedChunk(chunk.filePath, chunk.language, "block", if first then chunk.name else None, start, end,
                     content, chunk.parserName, chunk.parserVersion, Some(text.tokens(content)));
  }

  /** The buffered lines as one sub-chunk. */
  method Flush(chunk: ParsedChunk, text: Text, limit: int, lines: seq<string>, i: nat, buffer: seq<string>,
               start: int, before: seq<ParsedChunk>, ghost cuts: seq<nat>)
    returns (pieces: seq<ParsedChunk>)
    requires Walked(chunk, text, limit, lines, i, cuts, before)
    requires buffer != [] && buffer == lines[Last(cuts)..i] && start == chunk.startLine + Last(cuts)
    requires Saturated(text, limit, lines, Last(cuts), i)
    ensures Walked(chunk, text, limit, lines, i, cuts + [i], pieces)
  {
    BufferIsGreedy(text, limit, lines, Last(cuts), i);
    PieceEnds(chunk, text, limit, lines, i, i, cuts, before);
    BufferContent(chunk, text, limit, lines, Last(cuts), i);
    var piece := Block(chunk, text, |before| == 0, start, start + |buffer| - 1, Joined(buffer));
    assert piece == Piece(chunk, text, limit, lines, Last(cuts), i);
    pieces := before + [piece];
  }

  /** An oversized line becomes a sub-chunk of its own, cut down to the limit. */
  method Truncate(chunk: ParsedChunk, text: Text, limit: int, lines: seq<string>, i: nat,
                  before: seq<ParsedChunk>, ghost cuts: seq<nat>)
    returns (pieces: seq<ParsedChunk>)
    requires Walked(chunk, text, limit, lines, i, cuts, before) && Last(cuts) == i < |lines|
    requires Oversized(text, limit, lines[i])
    ensures Walked(chunk, text, limit, lines, i + 1, cuts + [i + 1], pieces)
  {
    OversizedIsGreedy(text, limit, lines, i);
    PieceEnds(chunk, text, limit, lines, i, i + 1, cuts, before);
    var line := chunk.startLine + i;
    var piece := Block(chunk, text, |before| == 0, line, line, text.truncate(lines[i], limit));
    assert piece == Piece(chunk, text, limit, lines, i, i + 1);
    pieces := before + [piece];
  }

  lemma MoreIsBufferable(text: Text, limit: int, lines: seq<string>, a: nat, i: nat)
    requires Bufferable(text, limit, lines, a, i) && i < |lines| && !Oversized(text, limit, lines[i])
    requires a == i || Fits(text, limit, lines, a, i + 1)
    ensures Bufferable(text, limit, lines, a, i + 1)
  {
  }

  lemma BufferGrows(chunk: ParsedChunk, text: Text, limit: int, lines: seq<string>, i: nat,
                    cuts: seq<nat>, pieces: seq<ParsedChunk>)
    requires Walked(chunk, text, limit, lines, i, cuts, pieces) && i < |lines|
    requires !Oversized(text, limit, lines[i])
    requires Last(cuts) == i || Fits(text, limit, lines, Last(cuts), i + 1)
    ensures Walked(chunk, text, limit, lines, i + 1, cuts, pieces)
  {
    MoreIsBufferable(text, limit, lines, Last(cuts), i);
  }

  /** The walk together with its buffer. */
  ghost predicate Walking(chunk: ParsedChunk, text: Text, limit: int, lines: seq<string>, i: nat, cuts: seq<nat>,
                          pieces: seq<ParsedChunk>, buffer: seq<string>, start: int)
  {
    && Walked(chunk, text, limit, lines, i, cuts, pieces)
    && buffer == lines[Last(cuts)..i] && start == chunk.startLine + Last(cuts)
  }

  /** Lines that exceed the limit on their own. */
  method VisitOversized(chunk: ParsedChunk, text: Text, limit: int, lines: seq<string>, i: nat, buffer: seq<string>,
                        start: int, before: seq<ParsedChunk>, ghost earlier: seq<nat>)
    returns (pieces: seq<ParsedChunk>, ghost cuts: seq<nat>)
    requires Walking(chunk, text, limit, lines, i, earlier, before, buffer, start)
    requires i < |lines| && Oversized(text, limit, lines[i])
    ensures Walking(chunk, text, limit, lines, i + 1, cuts, pieces, [], chunk.startLine + i + 1)
  {
    pieces, cuts := before, earlier;
    if buffer != [] {
      pieces := Flush(chunk, text, limit, lines, i, buffer, start, pieces, cuts);
      cuts := cuts + [i];
    }
    pieces := Truncate(chunk, text, limit, lines, i, pieces, cuts);
    cuts := cuts + [i + 1];
  }

  /** Lines that may share a sub-chunk with their neighbours. */
  method VisitLine(chunk: ParsedChunk, text: Text, limit: int, lines: seq<string>, i: nat, buffer: seq<string>,
                   start: int, before: seq<ParsedChunk>, ghost earlier: seq<nat>)
    returns (pieces: seq<ParsedChunk>, ghost cuts: seq<nat>, newBuffer: seq<string>, newStart: int)
    requires Walking(chunk, text, limit, lines, i, earlier, before, buffer, start)
    requires i < |lines| && !Oversized(text, limit, lines[i])
    ensures Walking(chunk, text, limit, lines, i + 1, cuts, pieces, newBuffer, newStart)
  {
    var candidate := buffer + [lines[i]];
    assert candidate == lines[Last(earlier)..i + 1];
    if text.tokens(Joined(candidate)) > limit && buffer != [] {
      pieces := Flush(chunk, text, limit, lines, i, buffer, start, before, earlier);
      cuts := earlier + [i];
      newBuffer, newStart := [lines[i]], chunk.startLine + i;
    } else {
      pieces, cuts, newBuffer, newStart := before, earlier, candidate, start;
    }
    BufferGrows(chunk, text, limit, lines, i, cuts, pieces);
  }

  method Visit(chunk: ParsedChunk, text: Text, limit: int, lines: seq<string>, i: nat, buffer: seq<string>,
               start: int, before: seq<ParsedChunk>, ghost earlier: seq<nat>)
    returns (pieces: seq<ParsedChunk>, ghost cuts: seq<nat>, newBuffer: seq<string>, newStart: int)
    requires Walking(chunk, text, limit, lines, i, earlier, before, buffer, start) && i < |lines|
    ensures Walking(chunk, text, limit, lines, i + 1, cuts, pieces, newBuffer, newStart)
  {
    if text.tokens(lines[i]) > limit {
      pieces, cuts := VisitOversized(chunk, text, limit, lines, i, buffer, start, before, earlier);
      newBuffer, newStart := [], chunk.startLine + i + 1;
    } else {
      pieces, cuts, newBuffer, newStart := VisitLine(chunk, text, limit, lines, i, buffer, start, before, earlier);
    }
  }

  lemma WalkBegins(chunk: ParsedChunk, text: Text, limit: int, lines: seq<string>)
    ensures Walking(chunk, text, limit, lines, 0, [0], [], [], chunk.startLine)
  {
  }

  method SplitChunk(chunk: ParsedChunk, text: Text, limit: int) returns (pieces: seq<ParsedChunk>)
    ensures exists cuts :: GreedySplit(chunk, text, limit, text.splitLines(chunk.content), cuts, pieces)
  {
    ghost var cuts;
    pieces, cuts := SplitAt(chunk, text, limit, text.splitLines(chunk.content));
  }

  method SplitAt(chunk: ParsedChunk, text: Text, limit: int, lines: seq<string>)
    returns (pieces: seq<ParsedChunk>, ghost cuts: seq<nat>)
    ensures GreedySplit(chunk, text, limit, lines, cuts, pieces)
  {
    var buffer: seq<string>, start := [], chunk.startLine;
    pieces, cuts := [], [0];
    WalkBegins(chunk, text, limit, lines);
    for i := 0 to |lines|
      invariant Walking(chunk, text, limit, lines, i, cuts, pieces, buffer, start)
    {
      pieces, cuts, buffer, start := Visit(chunk, text, limit, lines, i, buffer, start, pieces, cuts);
    }
    pieces, cuts := FlushRest(chunk, text, limit, lines, buffer, start, pieces, cuts);
  }

  method FlushRest(chunk: ParsedChunk, text: Text, limit: int, lines: seq<string>, buffer: seq<string>,
                   start: int, before: seq<ParsedChunk>, ghost earlier: seq<nat>)
    returns (pieces: seq<ParsedChunk>, ghost cuts: seq<nat>)
    requires Walking(chunk, text, limit, lines, |lines|, earlier, before, buffer, start)
    ensures GreedySplit(chunk, text, limit, lines, cuts, pieces)
  {
    pieces, cuts := before, earlier;
    if buffer != [] {
      pieces := Flush(chunk, text, limit, lines, |lines|, buffer, start, before, earlier);
      cuts := earlier + [|lines|];
    }
  }

  // ---- All chunks of a file ----

  /** What one parsed chunk turns into. */
  ghost predicate Handled(chunk: ParsedChunk, text: Text, limit: int, group: seq<ParsedChunk>) {
    if text.isBlank(chunk.content) then group == []
    else if text.tokens(chunk.content) <= limit then group == [chunk.(tokenCount := Some(text.tokens(chunk.content)))]
    else exists cuts :: GreedySplit(chunk, text, limit, text.splitLines(chunk.content), cuts, group)
  }

  /** Chunk `i` turned into the stretch of the result from `ends[i]` up to `ends[i + 1]`. */
  ghost predicate HandledAt(chunks: seq<ParsedChunk>, text: Text, limit: int, ends: seq<nat>, result: seq<ParsedChunk>,
                            i: nat)
    requires i < |chunks| && i + 1 < |ends|
  {
    ends[i] <= ends[i + 1] <= |result| && Handled(chunks[i], text, limit, result[ends[i]..ends[i + 1]])
  }

  /** The result, chunk by chunk and without gaps. */
  ghost predicate HandledInOrder(chunks: seq<ParsedChunk>, text: Text, limit: int, ends: seq<nat>,
                                 result: seq<ParsedChunk>) {
    && |ends| == |chunks| + 1 && ends[0] == 0 && ends[|chunks|] == |result|
    && forall i :: 0 <= i < |chunks| ==> HandledAt(chunks, text, limit, ends, result, i)
  }

  lemma OneMoreHandled(chunks: seq<ParsedChunk>, text: Text, limit: int, ends: seq<nat>, result: seq<ParsedChunk>,
                       chunk: ParsedChunk, group: seq<ParsedChunk>)
    requires HandledInOrder(chunks, text, limit, ends, result) && Handled(chunk, text, limit, group)
    ensures HandledInOrder(chunks + [chunk], text, limit, ends + [|result + group|], result + group)
  {
    var n, longer, all := |chunks|, ends + [|result + group|], result + group;
    forall i | 0 <= i < n + 1 ensures HandledAt(chunks + [chunk], text, limit, longer, all, i) {
      if i < n {
        assert HandledAt(chunks, text, limit, ends, result, i);
        assert all[longer[i]..longer[i + 1]] == result[ends[i]..ends[i + 1]];
      } else {
        assert all[longer[i]..longer[i + 1]] == group;
      }
    }
  }

  method ProcessChunks(chunks: seq<ParsedChunk>, text: Text, limit: int) returns (result: seq<ParsedChunk>)
    ensures exists ends :: HandledInOrder(chunks, text, limit, ends, result)
  {
    ghost var ends: seq<nat> := [0];
    result := [];
    for i := 0 to |chunks|
      invariant HandledInOrder(chunks[..i], text, limit, ends, result)
    {
      var chunk, group := chunks[i], [];
      if !text.isBlank(chunk.content) {
        var tokenCount := text.tokens(chunk.content);
        if tokenCount <= limit {
          group := [chunk.(tokenCount := Some(tokenCount))];
        } else {
          group := SplitChunk(chunk, text, limit);
        }
      }
      OneMoreHandled(chunks[..i], text, limit, ends, result, chunk, group);
      assert chunks[..i + 1] == chunks[..i] + [chunk];
      result := result + group;
      ends := ends + [|result|];
    }
    assert chunks[..|chunks|] == chunks;
  }

  /** Where the stretch of a chunk lies: those of earlier chunks come before it. */
  lemma {:induction false} StretchesInOrder(chunks: seq<ParsedChunk>, text: Text, limit: int, ends: seq<nat>,
                                            result: seq<ParsedChunk>, i: nat, j: nat)
    requires HandledInOrder(chunks, text, limit, ends, result) && i <= j <= |chunks|
    ensures ends[i] <= ends[j] <= |result|
    decreases |chunks| - i
  {
    if i < j {
      assert HandledAt(chunks, text, limit, ends, result, i);
      StretchesInOrder(chunks, text, limit, ends, result, i + 1, j);
    } else if i < |chunks| {
      assert HandledAt(chunks, text, limit, ends, result, i);
    }
  }

  /** Chunks within the limit that are not blank are all in the result, with their counts and in order. */
  lemma SmallChunksStay(chunks: seq<ParsedChunk>, text: Text, limit: int, ends: seq<nat>, result: seq<ParsedChunk>,
                        i: nat, j: nat)
    requires HandledInOrder(chunks, text, limit, ends, result) && i < j < |chunks|
    requires !text.isBlank(chunks[i].content) && text.tokens(chunks[i].content) <= limit
    requires !text.isBlank(chunks[j].content) && text.tokens(chunks[j].content) <= limit
    ensures exists a, b :: 0 <= a < b < |result|
                           && result[a] == chunks[i].(tokenCount := Some(text.tokens(chunks[i].content)))
                           && result[b] == chunks[j].(tokenCount := Some(text.tokens(chunks[j].content)))
  {
    assert HandledAt(chunks, text, limit, ends, result, i) && HandledAt(chunks, text, limit, ends, result, j);
    StretchesInOrder(chunks, text, limit, ends, result, i + 1, j);
    assert result[ends[i]] == result[ends[i]..ends[i + 1]][0];
    assert result[ends[j]] == result[ends[j]..ends[j + 1]][0];
  }

  ghost predicate IsPiece(p: ParsedChunk, chunk: ParsedChunk, text: Text, limit: int, lines: seq<string>, a: nat,
                          b: nat) {
    a < b <= |lines| && p == Piece(chunk, text, limit, lines, a, b)
  }

  lemma LastPiece(chunk: ParsedChunk, text: Text, limit: int, lines: seq<string>, cuts: seq<nat>)
    requires GreedyCuts(text, limit, lines, cuts) && |cuts| > 1
    ensures var m, pieces := |cuts| - 1, PiecesOf(chunk, text, limit, lines, cuts);
            && |pieces| == m && pieces[..m - 1] == PiecesOf(chunk, text, limit, lines, cuts[..m])
            && IsPiece(pieces[m - 1], chunk, text, limit, lines, cuts[m - 1], cuts[m])
  {
    PiecesMatchCuts(chunk, text, limit, lines, cuts);
  }

  lemma {:induction false} PiecesPrefix(chunk: ParsedChunk, text: Text, limit: int, lines: seq<string>, cuts: seq<nat>,
                                        n: nat)
    requires GreedyCuts(text, limit, lines, cuts) && 0 < n <= |cuts|
    ensures GreedyCuts(text, limit, lines, cuts[..n])
    ensures PiecesOf(chunk, text, limit, lines, cuts[..n]) <= PiecesOf(chunk, text, limit, lines, cuts)
    decreases |cuts|
  {
    if n < |cuts| {
      var shorter := cuts[..|cuts| - 1];
      assert shorter[..n] == cuts[..n];
      PiecesPrefix(chunk, text, limit, lines, shorter, n);
      LastPiece(chunk, text, limit, lines, cuts);
    } else {
      assert cuts[..n] == cuts;
    }
  }

  lemma PieceAt(chunk: ParsedChunk, text: Text, limit: int, lines: seq<string>, cuts: seq<nat>, k: nat)
    requires GreedyCuts(text, limit, lines, cuts) && k + 1 < |cuts|
    ensures k < |PiecesOf(chunk, text, limit, lines, cuts)|
    ensures IsPiece(PiecesOf(chunk, text, limit, lines, cuts)[k], chunk, text, limit, lines, cuts[k], cuts[k + 1])
  {
    var upTo := cuts[..k + 2];
    PiecesPrefix(chunk, text, limit, lines, cuts, k + 2);
    LastPiece(chunk, text, limit, lines, upTo);
    assert upTo[k] == cuts[k] && upTo[k + 1] == cuts[k + 1];
  }

  lemma {:induction false} OnlyFirstStartsAtZero(text: Text, limit: int, lines: seq<string>, cuts: seq<nat>, k: nat)
    requires GreedyCuts(text, limit, lines, cuts) && k < |cuts|
    ensures cuts[k] == 0 <==> k == 0
  {
    if k == 0 {
      StartAtZero(text, limit, lines, cuts);
    } else {
      GreedyPieceAt(text, limit, lines, cuts, k);
    }
  }

  /** Every piece is a block of its chunk's file, the first alone keeps the name, and it holds its lines
      joined, or the one oversized line cut down. */
  lemma PieceContent(chunk: ParsedChunk, text: Text, limit: int, lines: seq<string>, cuts: seq<nat>, k: nat)
    requires GreedyCuts(text, limit, lines, cuts) && k + 1 < |cuts|
    ensures k < |PiecesOf(chunk, text, limit, lines, cuts)| && cuts[k] < cuts[k + 1] <= |lines|
    ensures var piece := PiecesOf(chunk, text, limit, lines, cuts)[k];
            && piece.filePath == chunk.filePath && piece.language == chunk.language && piece.chunkType == "block"
            && piece.parserName == chunk.parserName && piece.parserVersion == chunk.parserVersion
            && piece.name == (if k == 0 then chunk.name else None)
            && if cuts[k + 1] == cuts[k] + 1 && text.tokens(lines[cuts[k]]) > limit
               then piece.content == text.truncate(lines[cuts[k]], limit)
               else piece.content == Joined(lines[cuts[k]..cuts[k + 1]])
  {
    GreedyPieceAt(text, limit, lines, cuts, k + 1);
    OnlyFirstStartsAtZero(text, limit, lines, cuts, k);
    PieceAt(chunk, text, limit, lines, cuts, k);
  }

  lemma {:induction false} PiecesMatchCuts(chunk: ParsedChunk, text: Text, limit: int, lines: seq<string>,
                                           cuts: seq<nat>)
    requires GreedyCuts(text, limit, lines, cuts)
    ensures |PiecesOf(chunk, text, limit, lines, cuts)| == |cuts| - 1
    ensures Last(cuts) == 0 <==> |cuts| == 1
  {
    if |cuts| > 1 {
      PiecesMatchCuts(chunk, text, limit, lines, cuts[..|cuts| - 1]);
    }
  }

  // ---- The split is determined ----

  lemma GreedyPieceUnique(text: Text, limit: int, lines: seq<string>, a: nat, b: nat, c: nat)
    requires GreedyPiece(text, limit, lines, a, b) && GreedyPiece(text, limit, lines, a, c)
    ensures b == c
  {
    LaterEndIsNotGreedy(text, limit, lines, a, b, c);
    LaterEndIsNotGreedy(text, limit, lines, a, c, b);
  }

  lemma LaterEndIsNotGreedy(text: Text, limit: int, lines: seq<string>, a: nat, b: nat, c: nat)
    requires GreedyPiece(text, limit, lines, a, b) && GreedyPiece(text, limit, lines, a, c)
    ensures c <= b
  {
    var e := if b < |lines| then b + 1 else b;
    assert Fits(text, limit, lines, a, e) || c <= b;
  }

  lemma {:induction false} GreedyCutsAgree(text: Text, limit: int, lines: seq<string>, cuts: seq<nat>, others: seq<nat>,
                                           k: nat)
    requires GreedyCuts(text, limit, lines, cuts) && GreedyCuts(text, limit, lines, others)
    requires k < |cuts| && k < |others|
    ensures cuts[k] == others[k]
  {
    if k == 0 {
      StartAtZero(text, limit, lines, cuts);
      StartAtZero(text, limit, lines, others);
    } else {
      GreedyCutsAgree(text, limit, lines, cuts, others, k - 1);
      GreedyPieceAt(text, limit, lines, cuts, k);
      GreedyPieceAt(text, limit, lines, others, k);
      GreedyPieceUnique(text, limit, lines, cuts[k - 1], cuts[k], others[k]);
    }
  }

  lemma CutsEndTogether(text: Text, limit: int, lines: seq<string>, cuts: seq<nat>, others: seq<nat>)
    requires GreedyCuts(text, limit, lines, cuts) && GreedyCuts(text, limit, lines, others)
    requires Last(cuts) == |lines|
    ensures |others| <= |cuts|
  {
    var k := |cuts| - 1;
    if k < |others| {
      GreedyCutsAgree(text, limit, lines, cuts, others, k);
      BeforeEnd(text, limit, lines, others, k);
    }
  }

  /** A chunk has one greedy split: the pieces are determined by its lines and the limit. */
  lemma GreedySplitUnique(chunk: ParsedChunk, text: Text, limit: int, lines: seq<string>, cuts: seq<nat>,
                          others: seq<nat>)
    requires GreedyCuts(text, limit, lines, cuts) && GreedyCuts(text, limit, lines, others)
    requires Last(cuts) == |lines| == Last(others)
    ensures cuts == others
  {
    CutsEndTogether(text, limit, lines, cuts, others);
    CutsEndTogether(text, limit, lines, others, cuts);
    forall k | 0 <= k < |cuts| ensures cuts[k] == others[k] {
      GreedyCutsAgree(text, limit, lines, cuts, others, k);
    }
  }

  // ---- Line ranges ----

  /** Consecutive non-empty line ranges from `first` to `last`. */
  ghost predicate Partitions(pieces: seq<ParsedChunk>, first: int, last: int) {
    if pieces == [] then first == last + 1 else
      var m := |pieces| - 1;
      pieces[m].startLine <= pieces[m].endLine == last && Partitions(pieces[..m], first, pieces[m].startLine - 1)
  }

  lemma {:induction false} CutsPartition(chunk: ParsedChunk, text: Text, limit: int, lines: seq<string>, cuts: seq<nat>)
    requires GreedyCuts(text, limit, lines, cuts)
    ensures Partitions(PiecesOf(chunk, text, limit, lines, cuts), chunk.startLine, chunk.startLine + Last(cuts) - 1)
  {
    if |cuts| > 1 {
      var m := |cuts| - 1;
      CutsPartition(chunk, text, limit, lines, cuts[..m]);
      var shorter := PiecesOf(chunk, text, limit, lines, cuts[..m]);
      assert PiecesOf(chunk, text, limit, lines, cuts)[..|shorter|] == shorter;
    }
  }

  /** The sub-chunks cover the lines of the chunk without gap or overlap. */
  lemma PiecesPartitionLines(chunk: ParsedChunk, text: Text, limit: int, lines: seq<string>, cuts: seq<nat>,
                             pieces: seq<ParsedChunk>)
    requires GreedySplit(chunk, text, limit, lines, cuts, pieces)
    ensures Partitions(pieces, chunk.startLine, chunk.startLine + |lines| - 1)
  {
    CutsPartition(chunk, text, limit, lines, cuts);
  }

  /** In such a list every line number of the range belongs to exactly one piece. */
  lemma {:induction false} EachLineOnce(pieces: seq<ParsedChunk>, first: int, last: int, line: int) returns (k: nat)
    requires Partitions(pieces, first, last) && first <= line <= last
    ensures k < |pieces| && pieces[k].startLine <= line <= pieces[k].endLine
    ensures forall j :: 0 <= j < |pieces| && j != k ==> !(pieces[j].startLine <= line <= pieces[j].endLine)
  {
    var m := |pieces| - 1;
    BelowEnd(pieces[..m], first, pieces[m].startLine - 1);
    if line >= pieces[m].startLine {
      k := m;
    } else {
      k := EachLineOnce(pieces[..m], first, pieces[m].startLine - 1, line);
    }
    forall j | 0 <= j < |pieces| && j != k ensures !(pieces[j].startLine <= line <= pieces[j].endLine) {
      if j < m {
        assert pieces[..m][j] == pieces[j];
      }
    }
  }

  lemma {:induction false} BelowEnd(pieces: seq<ParsedChunk>, first: int, last: int)
    requires Partitions(pieces, first, last)
    ensures first <= last + 1
    ensures forall j :: 0 <= j < |pieces| ==> first <= pieces[j].startLine <= pieces[j].endLine <= last
  {
    if pieces != [] {
      var m := |pieces| - 1;
      BelowEnd(pieces[..m], first, pieces[m].startLine - 1);
      assert forall j :: 0 <= j < m ==> pieces[..m][j] == pieces[j];
    }
  }

  // ---- Limit ----

  ghost predicate TruncationFits(text: Text, limit: int) {
    forall line :: text.tokens(text.truncate(line, limit)) <= limit
  }

  lemma {:induction false} PiecesWithinLimit(chunk: ParsedChunk, text: Text, limit: int, lines: seq<string>,
                                             cuts: seq<nat>, k: nat)
    requires GreedyCuts(text, limit, lines, cuts) && TruncationFits(text, limit)
    requires k < |PiecesOf(chunk, text, limit, lines, cuts)|
    ensures var p := PiecesOf(chunk, text, limit, lines, cuts)[k];
            p.tokenCount == Some(text.tokens(p.content)) && text.tokens(p.content) <= limit
  {
    var m := |cuts| - 1;
    if k < |PiecesOf(chunk, text, limit, lines, cuts[..m])| {
      PiecesWithinLimit(chunk, text, limit, lines, cuts[..m], k);
    } else {
      var a, b := cuts[m - 1], cuts[m];
      assert lines[a..a + 1] == [lines[a]];
      assert Fits(text, limit, lines, a, b) || b <= a + 1;
    }
  }

  // ---- Rejoining ----

  lemma {:induction false} JoinedAppend(a: seq<string>, b: seq<string>)
    requires a != [] && b != []
    ensures Joined(a + b) == Joined(a) + "\n" + Joined(b)
  {
    if |b| == 1 {
      assert (a + b)[..|a|] == a;
    } else {
      var shorter := b[..|b| - 1];
      assert (a + b)[..|a + b| - 1] == a + shorter;
      JoinedAppend(a, shorter);
    }
  }

  function Contents(pieces: seq<ParsedChunk>): seq<string> {
    seq(|pieces|, i requires 0 <= i < |pieces| => pieces[i].content)
  }

  /** Without oversized lines the joined sub-chunks are the joined lines. */
  lemma {:induction false} PiecesRejoin(chunk: ParsedChunk, text: Text, limit: int, lines: seq<string>, cuts: seq<nat>)
    requires GreedyCuts(text, limit, lines, cuts)
    requires forall i :: 0 <= i < Last(cuts) <= |lines| ==> !Oversized(text, limit, lines[i])
    ensures Last(cuts) <= |lines|
    ensures Joined(Contents(PiecesOf(chunk, text, limit, lines, cuts))) == Joined(lines[..Last(cuts)])
    ensures PiecesOf(chunk, text, limit, lines, cuts) == [] <==> Last(cuts) == 0
  {
    if |cuts| > 1 {
      var m := |cuts| - 1;
      PiecesRejoin(chunk, text, limit, lines, cuts[..m]);
      OneMorePiece(PiecesOf(chunk, text, limit, lines, cuts[..m]),
                   Piece(chunk, text, limit, lines, cuts[m - 1], cuts[m]),
                   lines, cuts[m - 1], cuts[m]);
    }
  }

  lemma OneMorePiece(before: seq<ParsedChunk>, piece: ParsedChunk, lines: seq<string>, a: nat, b: nat)
    requires a < b <= |lines| && piece.content == Joined(lines[a..b])
    requires Joined(Contents(before)) == Joined(lines[..a]) && (before == [] <==> a == 0)
    ensures Joined(Contents(before + [piece])) == Joined(lines[..b])
  {
    assert Contents(before + [piece]) == Contents(before) + [piece.content];
    assert lines[..b] == lines[..a] + lines[a..b];
    if before != [] {
      JoinedAppend(Contents(before), [piece.content]);
      JoinedAppend(lines[..a], lines[a..b]);
    } else {
      assert Contents(before) + [piece.content] == [piece.content] && lines[..a] == [];
    }
  }

  // ---- Fewest pieces ----

  /** More lines never count fewer tokens. */
  ghost predicate Monotone(text: Text, lines: seq<string>) {
    forall a, b, c, d :: 0 <= a <= c <= d <= b <= |lines| ==>
        text.tokens(Joined(lines[c..d])) <= text.tokens(Joined(lines[a..b]))
  }

  lemma {:induction false} GreedyPieceAt(text: Text, limit: int, lines: seq<string>, cuts: seq<nat>, k: nat)
    requires GreedyCuts(text, limit, lines, cuts) && 0 < k < |cuts|
    ensures GreedyPiece(text, limit, lines, cuts[k - 1], cuts[k])
  {
    var m := |cuts| - 1;
    if k < m {
      GreedyPieceAt(text, limit, lines, cuts[..m], k);
    }
  }

  lemma {:induction false} AcceptablePieceAt(text: Text, limit: int, lines: seq<string>, cuts: seq<nat>, k: nat)
    requires AcceptableCuts(text, limit, lines, cuts) && 0 < k < |cuts|
    ensures AcceptablePiece(text, limit, lines, cuts[k - 1], cuts[k])
  {
    var m := |cuts| - 1;
    if k < m {
      AcceptablePieceAt(text, limit, lines, cuts[..m], k);
    }
  }

  lemma StartAtZero(text: Text, limit: int, lines: seq<string>, cuts: seq<nat>)
    requires GreedyCuts(text, limit, lines, cuts) || AcceptableCuts(text, limit, lines, cuts)
    ensures cuts[0] == 0
    decreases |cuts|
  {
    if |cuts| > 1 {
      StartAtZero(text, limit, lines, cuts[..|cuts| - 1]);
    }
  }

  lemma PartsFit(text: Text, limit: int, lines: seq<string>, c: nat, d: nat)
    requires Monotone(text, lines) && AcceptablePiece(text, limit, lines, c, d) && d > c + 1
    ensures forall i :: c <= i < d ==> !Oversized(text, limit, lines[i])
    ensures forall e, f :: c <= e < f <= d ==> Fits(text, limit, lines, e, f)
  {
    forall i | c <= i < d ensures !Oversized(text, limit, lines[i]) {
      assert lines[i..i + 1] == [lines[i]];
    }
  }

  /** An acceptable piece that starts no later than a greedy one ends no later. */
  lemma PieceReaches(text: Text, limit: int, lines: seq<string>, a: nat, b: nat, c: nat, d: nat)
    requires Monotone(text, lines) && GreedyPiece(text, limit, lines, a, b) && AcceptablePiece(text, limit, lines, c, d)
    requires c <= a
    ensures d <= b
  {
    if d > c + 1 {
      PartsFit(text, limit, lines, c, d);
    }
  }

  lemma {:induction false} GreedyReachesFurther(text: Text, limit: int, lines: seq<string>, cuts: seq<nat>,
                                                rival: seq<nat>, k: nat)
    requires Monotone(text, lines) && GreedyCuts(text, limit, lines, cuts) && AcceptableCuts(text, limit, lines, rival)
    requires k < |cuts| && k < |rival|
    ensures rival[k] <= cuts[k]
  {
    if k == 0 {
      StartAtZero(text, limit, lines, cuts);
      StartAtZero(text, limit, lines, rival);
    } else {
      GreedyReachesFurther(text, limit, lines, cuts, rival, k - 1);
      GreedyPieceAt(text, limit, lines, cuts, k);
      AcceptablePieceAt(text, limit, lines, rival, k);
      PieceReaches(text, limit, lines, cuts[k - 1], cuts[k], rival[k - 1], rival[k]);
    }
  }

  /** No acceptable split has fewer pieces. */
  lemma GreedyUsesFewestPieces(chunk: ParsedChunk, text: Text, limit: int, lines: seq<string>, cuts: seq<nat>,
                               pieces: seq<ParsedChunk>, rival: seq<nat>)
    requires GreedySplit(chunk, text, limit, lines, cuts, pieces) && Monotone(text, lines)
    requires AcceptableCuts(text, limit, lines, rival) && Last(rival) == |lines|
    ensures |pieces| <= |rival| - 1
  {
    PieceCount(chunk, text, limit, lines, cuts);
    RivalCutsAsOften(text, limit, lines, cuts, rival);
  }

  lemma RivalCutsAsOften(text: Text, limit: int, lines: seq<string>, cuts: seq<nat>, rival: seq<nat>)
    requires GreedyCuts(text, limit, lines, cuts) && Monotone(text, lines)
    requires AcceptableCuts(text, limit, lines, rival) && Last(rival) == |lines|
    ensures |cuts| <= |rival|
  {
    if |rival| <= |cuts| {
      GreedyReachesFurther(text, limit, lines, cuts, rival, |rival| - 1);
      BeforeEnd(text, limit, lines, cuts, |rival| - 1);
    }
  }

  lemma BeforeEnd(text: Text, limit: int, lines: seq<string>, cuts: seq<nat>, k: nat)
    requires GreedyCuts(text, limit, lines, cuts) && k < |cuts|
    ensures k < |cuts| - 1 ==> cuts[k] < |lines|
  {
    if k < |cuts| - 1 {
      GreedyPieceAt(text, limit, lines, cuts, k + 1);
    }
  }

  lemma {:induction false} PieceCount(chunk: ParsedChunk, text: Text, limit: int, lines: seq<string>, cuts: seq<nat>)
    requires GreedyCuts(text, limit, lines, cuts)
    ensures |PiecesOf(chunk, text, limit, lines, cuts)| == |cuts| - 1
  {
    if |cuts| > 1 {
      PieceCount(chunk, text, limit, lines, cuts[..|cuts| - 1]);
    }
  }
}
