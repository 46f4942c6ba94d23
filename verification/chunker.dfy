/** The text chunker (localknow/ingestion/chunker.py): fixed-size chunks
    whose ends are moved to a nearby paragraph break or sentence end, with
    an overlap between consecutive chunks, plus per-chunk metadata and a
    chunk size chosen from the density of formula characters. The two
    regular expressions are modelled by the scans that finditer performs. */
module Chunker {
  import opened Common

  /** How far _find_better_boundary looks on either side of the target. */
  const Window: int := 50

  /** The two constructor parameters (2000 and 100 by default). */
  datatype TextChunker = TextChunker(baseChunkSize: int, chunkOverlap: int)

  /** The settings under which the chunk loop makes progress: every next
      start lies after the previous one and no later than its end. */
  predicate Progresses(c: TextChunker)
  {
    0 <= c.chunkOverlap && c.baseChunkSize > Window + c.chunkOverlap
  }

  function IntAbs(x: int): int { if x < 0 then -x else x }

  /** The first index at or after `k` that is not whitespace, or |r|. */
  function RunEnd(r: string, k: int): (e: int)
    requires 0 <= k <= |r|
    ensures k <= e <= |r|
    decreases |r| - k
  {
    if k == |r| || !IsSpace(r[k]) then k else RunEnd(r, k + 1)
  }

  /** RunEnd ends the whitespace run: everything it skips is whitespace and
      it stops at the end or at a non-whitespace character. */
  lemma {:induction false} RunEndSkipsWhitespace(r: string, k: int)
    requires 0 <= k <= |r|
    ensures forall j :: k <= j < RunEnd(r, k) ==> IsSpace(r[j])
    ensures RunEnd(r, k) == |r| || !IsSpace(r[RunEnd(r, k)])
    decreases |r| - k
  {
    if k < |r| && IsSpace(r[k]) {
      RunEndSkipsWhitespace(r, k + 1);
    }
  }

  /** A regex match, as its start and end offsets. */
  datatype Match = Match(start: int, end: int)

  predicate MatchesWithin(ms: seq<Match>, lo: int, hi: int)
  {
    forall k :: 0 <= k < |ms| ==> lo <= ms[k].start < ms[k].end <= hi
  }

  /** finditer of \n\s*\n from offset i: at a newline, the greedy \s*
      extends over the whole whitespace run and gives back characters up to
      the run's last newline; the scan resumes after the match. */
  function ParagraphBreaks(r: string, i: int): (ms: seq<Match>)
    requires 0 <= i <= |r|
    ensures |ms| <= (|r| - i) / 2
    decreases |r| - i
  {
    if i == |r| then []
    else if r[i] == '\n' then
      var e := RunEnd(r, i + 1);
      var j := RFind(r[i + 1..e], '\n');
      if j >= 0 then [Match(i, i + 1 + j + 1)] + ParagraphBreaks(r, i + 1 + j + 1)
      else ParagraphBreaks(r, i + 1)
    else ParagraphBreaks(r, i + 1)
  }

  /** Every paragraph break found from `i` on lies inside the text after
      `i`. */
  lemma {:induction false} ParagraphBreaksWithin(r: string, i: int)
    requires 0 <= i <= |r|
    ensures MatchesWithin(ParagraphBreaks(r, i), i, |r|)
    decreases |r| - i
  {
    if i < |r| {
      var e := RunEnd(r, i + 1);
      var j := RFind(r[i + 1..e], '\n');
      if r[i] == '\n' && j >= 0 {
        ParagraphBreaksWithin(r, i + 1 + j + 1);
        MatchesWithinCons(Match(i, i + 1 + j + 1), ParagraphBreaks(r, i + 1 + j + 1), i, |r|);
      } else {
        ParagraphBreaksWithin(r, i + 1);
      }
    }
  }

  lemma MatchesWithinCons(m: Match, rest: seq<Match>, lo: int, hi: int)
    requires lo <= m.start < m.end <= hi && MatchesWithin(rest, m.end, hi)
    ensures MatchesWithin([m] + rest, lo, hi)
  {
    assert forall k :: 1 <= k < |[m] + rest| ==> ([m] + rest)[k] == rest[k - 1];
  }

  /** Every paragraph break starts and ends with a newline. */
  lemma {:induction false} ParagraphBreaksAreNewlines(r: string, i: int)
    requires 0 <= i <= |r|
    ensures NewlineBounded(r, ParagraphBreaks(r, i))
    decreases |r| - i
  {
    if i < |r| {
      var e := RunEnd(r, i + 1);
      var j := RFind(r[i + 1..e], '\n');
      if r[i] == '\n' && j >= 0 {
        ParagraphBreaksAreNewlines(r, i + 1 + j + 1);
        assert r[i + 1 + j] == r[i + 1..e][j];
        NewlineBoundedCons(r, Match(i, i + 1 + j + 1), ParagraphBreaks(r, i + 1 + j + 1));
      } else {
        ParagraphBreaksAreNewlines(r, i + 1);
      }
    }
  }

  lemma NewlineBoundedCons(r: string, m: Match, rest: seq<Match>)
    requires 0 <= m.start < m.end <= |r| && r[m.start] == '\n' && r[m.end - 1] == '\n'
    requires NewlineBounded(r, rest)
    ensures NewlineBounded(r, [m] + rest)
  {
    assert forall k :: 1 <= k < |[m] + rest| ==> ([m] + rest)[k] == rest[k - 1];
  }

  /** Each match starts and ends with a newline character. */
  predicate NewlineBounded(r: string, ms: seq<Match>)
  {
    forall k :: 0 <= k < |ms| && 0 <= ms[k].start < ms[k].end <= |r| ==>
      r[ms[k].start] == '\n' && r[ms[k].end - 1] == '\n'
  }

  /** finditer of [.!?]\s+ from offset i: a sentence mark followed by at
      least one whitespace character; the match ends after the run. */
  function SentenceEnds(r: string, i: int): (ms: seq<Match>)
    requires 0 <= i <= |r|
    ensures |ms| <= (|r| - i) / 2
    decreases |r| - i
  {
    if i == |r| then []
    else if r[i] in ".!?" && i + 1 < |r| && IsSpace(r[i + 1]) then
      var e := RunEnd(r, i + 1);
      [Match(i, e)] + SentenceEnds(r, e)
    else SentenceEnds(r, i + 1)
  }

  /** Every sentence end found from `i` on lies inside the text after `i`. */
  lemma {:induction false} SentenceEndsWithin(r: string, i: int)
    requires 0 <= i <= |r|
    ensures MatchesWithin(SentenceEnds(r, i), i, |r|)
    decreases |r| - i
  {
    if i < |r| {
      if r[i] in ".!?" && i + 1 < |r| && IsSpace(r[i + 1]) {
        SentenceEndsWithin(r, RunEnd(r, i + 1));
        MatchesWithinCons(Match(i, RunEnd(r, i + 1)), SentenceEnds(r, RunEnd(r, i + 1)), i, |r|);
      } else {
        SentenceEndsWithin(r, i + 1);
      }
    }
  }

  /** The position min(..., key=...) picks among the matches. */
  function Closest(ms: seq<Match>, target: int): (k: int)
    requires ms != []
    ensures 0 <= k < |ms|
  {
    if |ms| == 1 then 0
    else
      var k := Closest(ms[..|ms| - 1], target);
      if IntAbs(ms[|ms| - 1].start - target) < IntAbs(ms[k].start - target) then |ms| - 1 else k
  }

  /** Closest picks a match whose start is nearest to `target`, and the
      first such one, as min() does on ties. */
  lemma {:induction false} ClosestIsFirstNearest(ms: seq<Match>, target: int)
    requires ms != []
    ensures forall j :: 0 <= j < |ms| ==> IntAbs(ms[Closest(ms, target)].start - target) <= IntAbs(ms[j].start - target)
    ensures forall j :: 0 <= j < Closest(ms, target) ==> IntAbs(ms[j].start - target) > IntAbs(ms[Closest(ms, target)].start - target)
  {
    if |ms| > 1 {
      ClosestIsFirstNearest(ms[..|ms| - 1], target);
      assert forall j :: 0 <= j < |ms| - 1 ==> ms[..|ms| - 1][j] == ms[j];
    }
  }

  /** The chosen match, shifted back to text positions by `lo`, is still
      no farther from `position` than any other. */
  lemma ClosestShifted(ms: seq<Match>, lo: int, position: int)
    requires ms != []
    ensures forall j :: 0 <= j < |ms| ==>
      IntAbs(lo + ms[Closest(ms, position - lo)].start - position) <= IntAbs(lo + ms[j].start - position)
  {
    ClosestIsFirstNearest(ms, position - lo);
    forall j | 0 <= j < |ms|
      ensures IntAbs(lo + ms[j].start - position) == IntAbs(ms[j].start - (position - lo))
    {
    }
  }

  /** _find_better_boundary(text, position) with the default window. */
  function FindBetterBoundary(text: string, position: int): (b: int)
    requires 0 <= position
    ensures position - Window <= b <= position + Window
    ensures b <= |text| || b == position
  {
    var lo := Max(0, position - Window);
    var hi := Min(|text|, position + Window);
    var region := if lo <= hi then text[lo..hi] else "";
    var paragraphs := ParagraphBreaks(region, 0);
    if paragraphs != [] then
      ParagraphBreaksWithin(region, 0);
      lo + paragraphs[Closest(paragraphs, position - lo)].start
    else
      var sentences := SentenceEnds(region, 0);
      if sentences != [] then
        SentenceEndsWithin(region, 0);
        lo + sentences[Closest(sentences, position - lo)].end
      else position
  }

  /** The boundary prefers paragraph breaks: when the window holds one, the
      result is a paragraph break no farther from the target than any other
      in the window; only without one is a sentence end used (the end of the
      sentence-end match whose start is nearest the target), and only
      without either does the target itself come back. */
  lemma BoundaryPreference(text: string, position: int)
    requires 0 <= position
    ensures var lo := Max(0, position - Window);
      var region := if lo <= Min(|text|, position + Window) then text[lo..Min(|text|, position + Window)] else "";
      var paragraphs := ParagraphBreaks(region, 0);
      var sentences := SentenceEnds(region, 0);
      var b := FindBetterBoundary(text, position);
      && (paragraphs != [] ==>
            exists k :: 0 <= k < |paragraphs| && b == lo + paragraphs[k].start
              && forall j :: 0 <= j < |paragraphs| ==> IntAbs(b - position) <= IntAbs(lo + paragraphs[j].start - position))
      && (paragraphs == [] && sentences != [] ==>
            exists k :: 0 <= k < |sentences| && b == lo + sentences[k].end
              && forall j :: 0 <= j < |sentences| ==> IntAbs(lo + sentences[k].start - position) <= IntAbs(lo + sentences[j].start - position))
      && (paragraphs == [] && sentences == [] ==> b == position)
  {
    var lo := Max(0, position - Window);
    var region := if lo <= Min(|text|, position + Window) then text[lo..Min(|text|, position + Window)] else "";
    var paragraphs := ParagraphBreaks(region, 0);
    var sentences := SentenceEnds(region, 0);
    if paragraphs != [] {
      var k := Closest(paragraphs, position - lo);
      ClosestShifted(paragraphs, lo, position);
      assert FindBetterBoundary(text, position) == lo + paragraphs[k].start;
    } else if sentences != [] {
      var k := Closest(sentences, position - lo);
      ClosestShifted(sentences, lo, position);
      assert FindBetterBoundary(text, position) == lo + sentences[k].end;
    }
  }

  /** What the chunk loop relies on from its boundary function: a target
      end moves by at most 50, and past the end of the text only when it
      stays where it was. */
  ghost predicate Fits(text: string, boundary: nat -> int)
  {
    forall p: nat :: p - Window <= boundary(p) <= p + Window && (boundary(p) <= |text| || boundary(p) == p)
  }

  /** The boundary function chunk() uses on `text`. */
  function Boundaries(text: string): (f: nat -> int)
    ensures Fits(text, f)
  {
    (p: nat) => FindBetterBoundary(text, p)
  }

  /** Where the next chunk starts once the chunk [start, actualEnd) is the
      (count+1)-th: `actualEnd` minus the overlap, or `actualEnd` itself
      when that would not pass the length of the chunk just added. The
      guard compares an offset with a length, as the source does. */
  function NextStart(c: TextChunker, start: int, actualEnd: int, count: nat): int
  {
    var next := actualEnd - c.chunkOverlap;
    if count + 1 > 1 && next <= actualEnd - start then actualEnd else next
  }

  /** The next chunk starts either at the end of the one just added or the
      overlap before it; with a non-negative overlap shorter than that chunk
      it starts after the current start and no later than its end. */
  lemma NextStartAdvances(c: TextChunker, start: int, actualEnd: int, count: nat)
    ensures var r := NextStart(c, start, actualEnd, count);
      && (r == actualEnd || r == actualEnd - c.chunkOverlap)
      && (0 <= c.chunkOverlap && start + c.chunkOverlap < actualEnd ==> start < r <= actualEnd)
  {
  }

  /** The chunks from offset `start` on, when `count` chunks exist already. */
  function ChunksFrom(text: string, c: TextChunker, boundary: nat -> int, start: nat, count: nat): seq<string>
    requires Progresses(c) && Fits(text, boundary)
    decreases |text| - start
  {
    if start >= |text| then []
    else if start + c.baseChunkSize >= |text| then [text[start..]]
    else
      var actualEnd := boundary(start + c.baseChunkSize);
      [text[start..actualEnd]] + ChunksFrom(text, c, boundary, NextStart(c, start, actualEnd, count), count + 1)
  }

  /** The start offsets of the chunks ChunksFrom produces. */
  ghost function StartsFrom(text: string, c: TextChunker, boundary: nat -> int, start: nat, count: nat): seq<int>
    requires Progresses(c) && Fits(text, boundary)
    decreases |text| - start
  {
    if start >= |text| then []
    else if start + c.baseChunkSize >= |text| then [start]
    else
      var actualEnd := boundary(start + c.baseChunkSize);
      [start] + StartsFrom(text, c, boundary, NextStart(c, start, actualEnd, count), count + 1)
  }

  /** chunk(text): the whole text when it fits in one chunk. */
  function Chunks(text: string, c: TextChunker): (r: seq<string>)
    requires Progresses(c)
    ensures r != [] && r[0] <= text
  {
    if |text| <= c.baseChunkSize then [text] else ChunksFrom(text, c, Boundaries(text), 0, 0)
  }

  ghost function ChunkStarts(text: string, c: TextChunker): seq<int>
    requires Progresses(c)
  {
    if |text| <= c.baseChunkSize then [0] else StartsFrom(text, c, Boundaries(text), 0, 0)
  }

  /** How chunks lie on the text: the first starts at `first`, each chunk
      is the text at its start offset, starts strictly increase with each
      next chunk starting no later than the previous one ends (no gaps),
      every chunk but the last is within 50 of the base size, and the last
      ends at the end of the text. */
  ghost predicate Layout(text: string, chunks: seq<string>, starts: seq<int>, first: int, c: TextChunker)
  {
    && |starts| == |chunks| && chunks != []
    && starts[0] == first
    && Slices(text, chunks, starts)
    && Advancing(chunks, starts)
    && RegularSizes(chunks, c)
    && starts[|chunks| - 1] + |chunks[|chunks| - 1]| == |text|
  }

  /** Each chunk is the text from its start offset. */
  ghost predicate Slices(text: string, chunks: seq<string>, starts: seq<int>)
    requires |starts| == |chunks|
  {
    forall k :: 0 <= k < |chunks| ==>
      0 <= starts[k] <= starts[k] + |chunks[k]| <= |text| && chunks[k] == text[starts[k]..starts[k] + |chunks[k]|]
  }

  /** Each next chunk starts after the previous one and no later than its end. */
  ghost predicate Advancing(chunks: seq<string>, starts: seq<int>)
    requires |starts| == |chunks|
  {
    forall k :: 0 <= k < |chunks| - 1 ==> starts[k] < starts[k + 1] <= starts[k] + |chunks[k]|
  }

  /** Every chunk but the last is within 50 of the base size. */
  ghost predicate RegularSizes(chunks: seq<string>, c: TextChunker)
  {
    forall k :: 0 <= k < |chunks| - 1 ==> c.baseChunkSize - Window <= |chunks[k]| <= c.baseChunkSize + Window
  }

  lemma {:induction false} ChunksFromLayout(text: string, c: TextChunker, boundary: nat -> int, start: nat, count: nat)
    requires Progresses(c) && Fits(text, boundary) && start < |text|
    ensures Layout(text, ChunksFrom(text, c, boundary, start, count), StartsFrom(text, c, boundary, start, count), start, c)
    decreases |text| - start
  {
    if start + c.baseChunkSize < |text| {
      var end := boundary(start + c.baseChunkSize);
      var next := NextStart(c, start, end, count);
      var chunk := text[start..end];
      var rest := ChunksFrom(text, c, boundary, next, count + 1);
      var restStarts := StartsFrom(text, c, boundary, next, count + 1);
      assert ChunksFrom(text, c, boundary, start, count) == [chunk] + rest;
      assert StartsFrom(text, c, boundary, start, count) == [start] + restStarts;
      if next < |text| {
        ChunksFromLayout(text, c, boundary, next, count + 1);
        LayoutCons(text, chunk, start, rest, restStarts, next, c);
      } else {
        assert rest == [] && restStarts == [];
        LayoutSingle(text, chunk, start, c);
      }
    } else {
      assert ChunksFrom(text, c, boundary, start, count) == [text[start..]];
      assert StartsFrom(text, c, boundary, start, count) == [start];
      LayoutSingle(text, text[start..], start, c);
    }
  }

  /** A chunk that runs to the end of the text is a layout on its own. */
  lemma LayoutSingle(text: string, chunk: string, start: int, c: TextChunker)
    requires 0 <= start <= |text| && chunk == text[start..]
    ensures Layout(text, [chunk], [start], start, c)
  {
  }

  /** A layout stays one when a chunk is put in front of it that starts
      earlier, reaches at least the next start, and has a regular length. */
  lemma LayoutCons(text: string, chunk: string, start: int, rest: seq<string>, restStarts: seq<int>, next: int, c: TextChunker)
    requires Layout(text, rest, restStarts, next, c)
    requires 0 <= start < next <= start + |chunk| <= |text|
    requires chunk == text[start..start + |chunk|]
    requires c.baseChunkSize - Window <= |chunk| <= c.baseChunkSize + Window
    ensures Layout(text, [chunk] + rest, [start] + restStarts, start, c)
  {
    SlicesCons(text, chunk, start, rest, restStarts);
    AdvancingCons(chunk, start, rest, restStarts);
    RegularSizesCons(chunk, rest, c);
  }

  lemma SlicesCons(text: string, chunk: string, start: int, rest: seq<string>, restStarts: seq<int>)
    requires |restStarts| == |rest| && Slices(text, rest, restStarts)
    requires 0 <= start <= start + |chunk| <= |text| && chunk == text[start..start + |chunk|]
    ensures Slices(text, [chunk] + rest, [start] + restStarts)
  {
    var cs, st := [chunk] + rest, [start] + restStarts;
    assert forall k :: 1 <= k < |cs| ==> cs[k] == rest[k - 1] && st[k] == restStarts[k - 1];
  }

  lemma AdvancingCons(chunk: string, start: int, rest: seq<string>, restStarts: seq<int>)
    requires |restStarts| == |rest| && rest != [] && Advancing(rest, restStarts)
    requires start < restStarts[0] <= start + |chunk|
    ensures Advancing([chunk] + rest, [start] + restStarts)
  {
    var cs, st := [chunk] + rest, [start] + restStarts;
    assert forall k :: 1 <= k < |cs| ==> cs[k] == rest[k - 1] && st[k] == restStarts[k - 1];
  }

  lemma RegularSizesCons(chunk: string, rest: seq<string>, c: TextChunker)
    requires RegularSizes(rest, c)
    requires c.baseChunkSize - Window <= |chunk| <= c.baseChunkSize + Window
    ensures RegularSizes([chunk] + rest, c)
  {
    var cs := [chunk] + rest;
    assert forall k :: 1 <= k < |cs| ==> cs[k] == rest[k - 1];
  }

  /** The chunk list of any text lies on it as Layout says, starting at 0;
      a text that fits in one chunk is returned whole. */
  lemma ChunkLayout(text: string, c: TextChunker)
    requires Progresses(c)
    ensures Layout(text, Chunks(text, c), ChunkStarts(text, c), 0, c)
    ensures |text| <= c.baseChunkSize ==> Chunks(text, c) == [text]
  {
    if |text| > c.baseChunkSize {
      ChunksFromLayout(text, c, Boundaries(text), 0, 0);
    } else {
      assert text[0..|text|] == text;
    }
  }

  /** The last iteration of the loop: the rest of the text is one chunk. */
  lemma ChunkLoopLast(text: string, c: TextChunker, boundary: nat -> int, start: nat, done: seq<string>)
    requires Progresses(c) && Fits(text, boundary) && start < |text| <= start + c.baseChunkSize
    ensures done + [text[start..]] == done + ChunksFrom(text, c, boundary, start, |done|)
  {
  }

  /** Any other iteration: appending the chunk up to the boundary and moving
      to the next start keeps the chunks found so far plus the chunks still
      to come unchanged, and the start moves forward. */
  lemma ChunkLoopStep(text: string, c: TextChunker, boundary: nat -> int, start: nat, done: seq<string>)
    requires Progresses(c) && Fits(text, boundary) && start + c.baseChunkSize < |text|
    ensures var actualEnd := boundary(start + c.baseChunkSize);
      && start < actualEnd <= |text|
      && start < NextStart(c, start, actualEnd, |done|)
      && (done + [text[start..actualEnd]]) + ChunksFrom(text, c, boundary, NextStart(c, start, actualEnd, |done|), |done| + 1)
         == done + ChunksFrom(text, c, boundary, start, |done|)
  {
    var actualEnd := boundary(start + c.baseChunkSize);
    var rest := ChunksFrom(text, c, boundary, NextStart(c, start, actualEnd, |done|), |done| + 1);
    assert ChunksFrom(text, c, boundary, start, |done|) == [text[start..actualEnd]] + rest;
    assert (done + [text[start..actualEnd]]) + rest == done + ([text[start..actualEnd]] + rest);
  }

  /** chunk(): the whole text when it fits, else the loop with the
      chunker's own boundary finder. */
  method Chunk(c: TextChunker, text: string) returns (chunks: seq<string>)
    requires Progresses(c)
    ensures chunks == Chunks(text, c)
  {
    if |text| <= c.baseChunkSize {
      return [text];
    }
    chunks := ChunkLoop(c, text, Boundaries(text));
  }

  /** The while loop of chunk(), appending one chunk per iteration; the
      boundary finder is a parameter (Chunk passes FindBetterBoundary). */
  method ChunkLoop(c: TextChunker, text: string, boundary: nat -> int) returns (chunks: seq<string>)
    requires Progresses(c) && Fits(text, boundary)
    ensures chunks == ChunksFrom(text, c, boundary, 0, 0)
  {
    chunks := [];
    var start := 0;
    while start < |text|
      invariant 0 <= start
      invariant chunks + ChunksFrom(text, c, boundary, start, |chunks|) == ChunksFrom(text, c, boundary, 0, 0)
      decreases |text| - start
    {
      var end := start + c.baseChunkSize;
      if end >= |text| {
        ChunkLoopLast(text, c, boundary, start, chunks);
        chunks := chunks + [text[start..]];
        return;
      }
      chunks, start := AppendChunk(c, text, boundary, chunks, start);
    }
  }

  /** One pass of the loop body past the last-chunk test: append the chunk
      up to the boundary and compute the next start. */
  method AppendChunk(c: TextChunker, text: string, boundary: nat -> int, chunks: seq<string>, start: nat)
    returns (chunks': seq<string>, start': nat)
    requires Progresses(c) && Fits(text, boundary) && start + c.baseChunkSize < |text|
    ensures start < start'
    ensures chunks' + ChunksFrom(text, c, boundary, start', |chunks'|) == chunks + ChunksFrom(text, c, boundary, start, |chunks|)
  {
    ChunkLoopStep(text, c, boundary, start, chunks);
    var actualEnd := boundary(start + c.baseChunkSize);
    chunks' := chunks + [text[start..actualEnd]];
    start' := actualEnd - c.chunkOverlap;
    if |chunks'| > 1 && start' <= |chunks'[|chunks'| - 1]| {
      start' := actualEnd;
    }
  }

  /** The metadata dict of one chunk. */
  datatype ChunkMetadata = ChunkMetadata(documentId: string, chunkIndex: int, totalChunks: int, chunkSize: int)

  /** chunk_with_metadata: the same chunks as chunk(), each paired with its
      index, the total count and its own length. */
  method ChunkWithMetadata(c: TextChunker, text: string, documentId: string) returns (result: seq<(string, ChunkMetadata)>)
    requires Progresses(c)
    ensures |result| == |Chunks(text, c)|
    ensures forall i :: 0 <= i < |result| ==> result[i].0 == Chunks(text, c)[i]
    ensures forall i :: 0 <= i < |result| ==>
      result[i].1 == ChunkMetadata(documentId, i, |Chunks(text, c)|, |Chunks(text, c)[i]|)
  {
    var chunks := Chunk(c, text);
    result := [];
    var i := 0;
    while i < |chunks|
      invariant 0 <= i <= |chunks| && |result| == i
      invariant forall j :: 0 <= j < i ==> result[j] == (chunks[j], ChunkMetadata(documentId, j, |chunks|, |chunks[j]|))
    {
      result := result + [(chunks[i], ChunkMetadata(documentId, i, |chunks|, |chunks[i]|))];
      i := i + 1;
    }
  }

  /** Characters counted as formula markup: $ \ [ ]. The pattern's second
      alternative (a backslash and a word) never matches, because the first
      alternative already consumes the backslash; each match is one
      character. */
  predicate IsFormulaChar(ch: char)
  {
    ch == '$' || ch == '\\' || ch == '[' || ch == ']'
  }

  function FormulaCount(s: string): (n: nat)
    ensures n <= |s|
  {
    if s == [] then 0 else FormulaCount(s[..|s| - 1]) + (if IsFormulaChar(s[|s| - 1]) then 1 else 0)
  }

  /** Formula characters per character of a non-empty sample. */
  function FormulaDensity(sample: string): (d: real)
    requires sample != []
    ensures 0.0 <= d <= 1.0
  {
    (FormulaCount(sample) as real) / (|sample| as real)
  }

  /** get_optimal_chunk_size; None when the sample is empty (the density
      division raises ZeroDivisionError). A density above 0.1 gives a third
      of the base size but at least 1000, one above 0.05 half of it but at
      least 1500, and anything sparser the base size itself. */
  function OptimalChunkSize(c: TextChunker, sample: string): (r: Option<int>)
    ensures r.None? <==> sample == []
    ensures r.Some? ==> r.value == c.baseChunkSize || r.value == Max(1000, c.baseChunkSize / 3) || r.value == Max(1500, c.baseChunkSize / 2)
    ensures sample != [] && FormulaDensity(sample) > 0.1 ==> r == Some(Max(1000, c.baseChunkSize / 3))
    ensures sample != [] && 0.05 < FormulaDensity(sample) <= 0.1 ==> r == Some(Max(1500, c.baseChunkSize / 2))
    ensures sample != [] && FormulaDensity(sample) <= 0.05 ==> r == Some(c.baseChunkSize)
  {
    if sample == [] then None
    else
      var density := FormulaDensity(sample);
      if density > 0.1 then Some(Max(1000, c.baseChunkSize / 3))
      else if density > 0.05 then Some(Max(1500, c.baseChunkSize / 2))
      else Some(c.baseChunkSize)
  }

  /** A sample with no formula characters keeps the base size, and for a
      base of at least 1500 a denser sample never gets a larger chunk size. */
  lemma DenserSamplesGetSmallerChunks(c: TextChunker, s1: string, s2: string)
    requires s1 != [] && s2 != [] && c.baseChunkSize >= 1500
    requires FormulaDensity(s1) <= FormulaDensity(s2)
    ensures OptimalChunkSize(c, s2).value <= OptimalChunkSize(c, s1).value
    ensures FormulaCount(s1) == 0 ==> OptimalChunkSize(c, s1) == Some(c.baseChunkSize)
  {
  }
}
