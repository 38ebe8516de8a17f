/**
  Cutting a document into chunks: whole lines are packed greedily, an over-long line is cut by
  itself. `lines` is any division of the text into non-empty lines.
 */
module DocumentChunker {
  import opened Common
  import opened DocumentContracts

  predicate LinesOf(lines: seq<string>, text: string) {
    && (forall i :: 0 <= i < |lines| ==> lines[i] != [])
    && Flatten(lines) == text
  }

  function Flatten(parts: seq<string>): string {
    if parts == [] then [] else Flatten(parts[..|parts| - 1]) + Last(parts)
  }

  /** Where line `k` starts, counting lines from 0. */
  function Offset(lines: seq<string>, k: nat): nat
    requires k <= |lines|
  {
    if k == 0 then 0 else Offset(lines, k - 1) + |lines[k - 1]|
  }

  lemma {:induction false} OffsetsRise(lines: seq<string>, i: nat, k: nat)
    requires i <= k <= |lines| && forall j :: 0 <= j < |lines| ==> lines[j] != []
    ensures Offset(lines, i) <= Offset(lines, k) && (i < k ==> Offset(lines, i) < Offset(lines, k))
    decreases k
  {
    if i < k { OffsetsRise(lines, i, k - 1); }
  }

  lemma {:induction false} LastOffsetIsLength(lines: seq<string>, k: nat)
    requires k <= |lines|
    ensures Offset(lines, k) == |Flatten(lines[..k])|
  {
    if k > 0 {
      LastOffsetIsLength(lines, k - 1);
      assert lines[..k][..k - 1] == lines[..k - 1];
    }
  }

  // ---- the pieces a text may be cut into ----

  /** `[a, b)` is a run of whole lines, none longer than `max`. */
  ghost predicate Run(lines: seq<string>, max: nat, a: nat, b: nat) {
    exists i, k :: RunFrom(lines, max, a, b, i, k)
  }

  predicate RunFrom(lines: seq<string>, max: nat, a: nat, b: nat, i: int, k: int) {
    && 0 <= i < k <= |lines|
    && a == Offset(lines, i) && b == Offset(lines, k)
    && forall j :: i <= j < k ==> |lines[j]| <= max
  }

  /** `[a, b)` lies within one line that is longer than `max`. */
  ghost predicate Part(lines: seq<string>, max: nat, a: nat, b: nat) {
    exists k :: PartOf(lines, max, a, b, k)
  }

  predicate PartOf(lines: seq<string>, max: nat, a: nat, b: nat, k: int) {
    && 0 <= k < |lines| && |lines[k]| > max
    && Offset(lines, k) <= a < b <= Offset(lines, k + 1)
  }

  ghost predicate Admissible(lines: seq<string>, max: nat, a: nat, b: nat) {
    a < b <= a + max && (Run(lines, max, a, b) || Part(lines, max, a, b))
  }

  /** No admissible piece that covers position `a` ends later than `b`. */
  ghost predicate Furthest(lines: seq<string>, max: nat, a: nat, b: nat) {
    forall a': nat, b': nat :: Admissible(lines, max, a', b') && a' <= a < b' ==> b' <= b
  }

  /** The places a text is cut at, its ends included, every piece admissible. */
  ghost predicate Cutting(lines: seq<string>, max: nat, cuts: seq<nat>) {
    && cuts != [] && cuts[0] == 0 && Last(cuts) == Offset(lines, |lines|)
    && forall i :: 0 <= i < |cuts| - 1 ==> Admissible(lines, max, cuts[i], cuts[i + 1])
  }

  /** A run of short lines that cannot take the next line reaches as far as any piece. */
  lemma ClosedRunIsFurthest(lines: seq<string>, max: nat, i: nat, k: nat)
    requires i < k <= |lines| && forall j :: 0 <= j < |lines| ==> lines[j] != []
    requires forall j :: i <= j < k ==> |lines[j]| <= max
    requires k == |lines| || |lines[k]| > max || Offset(lines, k + 1) - Offset(lines, i) > max
    ensures Furthest(lines, max, Offset(lines, i), Offset(lines, k))
  {
    var a, b := Offset(lines, i), Offset(lines, k);
    forall a': nat, b': nat | Admissible(lines, max, a', b') && a' <= a < b'
      ensures b' <= b
    {
      if Run(lines, max, a', b') {
        var i', k' :| RunFrom(lines, max, a', b', i', k');
        if k' <= i { OffsetsRise(lines, k', i); }
        if k' > k {
          OffsetsRise(lines, k + 1, k');
          if i < i' { OffsetsRise(lines, i, i'); }
        } else {
          OffsetsRise(lines, k', k);
        }
      } else {
        var k' :| PartOf(lines, max, a', b', k');
        if k' < i { OffsetsRise(lines, k' + 1, i); } else { OffsetsRise(lines, i, k'); }
      }
    }
  }

  /** Inside an over-long line, a piece of full length or to the line's end is the furthest. */
  lemma SegmentIsFurthest(lines: seq<string>, max: nat, k: nat, a: nat, b: nat)
    requires k < |lines| && |lines[k]| > max >= 1 && forall j :: 0 <= j < |lines| ==> lines[j] != []
    requires Offset(lines, k) <= a < Offset(lines, k + 1)
    requires b == a + max || (b == Offset(lines, k + 1) <= a + max)
    ensures Furthest(lines, max, a, b)
  {
    forall a': nat, b': nat | Admissible(lines, max, a', b') && a' <= a < b'
      ensures b' <= b
    {
      if Run(lines, max, a', b') {
        var i', k' :| RunFrom(lines, max, a', b', i', k');
        if k' <= k { OffsetsRise(lines, k', k); }
        if k < i' { OffsetsRise(lines, k + 1, i'); }
      } else {
        var k' :| PartOf(lines, max, a', b', k');
        if k' < k { OffsetsRise(lines, k' + 1, k); }
        if k < k' { OffsetsRise(lines, k + 1, k'); }
        assert k' == k;
      }
    }
  }

  // ---- page ranges and block positions ----

  function OverlappingPages(pages: seq<Page>, start: nat, end: nat): seq<nat> {
    if pages == [] then []
    else
      OverlappingPages(pages[..|pages| - 1], start, end)
      + (if Overlaps(Last(pages).start, Last(pages).end, start, end) then [Last(pages).number] else [])
  }

  function FirstEndingAfter(pages: seq<Page>, start: nat): Option<nat> {
    if pages == [] then None
    else if pages[0].end > start then Some(pages[0].number)
    else FirstEndingAfter(pages[1..], start)
  }

  function LastStartingBefore(pages: seq<Page>, end: nat): Option<nat> {
    if pages == [] then None
    else if Last(pages).start < end then Some(Last(pages).number)
    else LastStartingBefore(pages[..|pages| - 1], end)
  }

  function Min(a: nat, b: nat): nat { if a <= b then a else b }
  function Max(a: nat, b: nat): nat { if a <= b then b else a }

  function PageRange(d: Document, start: nat, end: nat): (Option<nat>, Option<nat>) {
    if d.format != Pdf then (None, None)
    else
      var overlapping := OverlappingPages(d.pages, start, end);
      if overlapping != [] then (Some(overlapping[0]), Some(Last(overlapping)))
      else
        var first, last := FirstEndingAfter(d.pages, start), LastStartingBefore(d.pages, end);
        if first.None? || last.None? then (None, None)
        else (Some(Min(first.value, last.value)), Some(Max(first.value, last.value)))
  }

  function PositionsWithin(positions: seq<Position>, start: nat, end: nat): seq<Position> {
    if positions == [] then []
    else
      PositionsWithin(positions[..|positions| - 1], start, end)
      + (if Overlaps(Last(positions).start, Last(positions).end, start, end) then [Last(positions)] else [])
  }

  // ---- what the chunks of a document are ----

  /** Chunk `c` is piece `index` of the text, with the lines its first and last character are on. */
  predicate Describes(d: Document, lines: seq<string>, c: Chunk, index: nat) {
    && c.index == index
    && c.start < c.end <= |d.text| && c.text == d.text[c.start..c.end]
    && 1 <= c.startLine <= c.endLine <= |lines|
    && Offset(lines, c.startLine - 1) <= c.start < Offset(lines, c.startLine)
    && Offset(lines, c.endLine - 1) < c.end <= Offset(lines, c.endLine)
    && (c.pageStart, c.pageEnd) == PageRange(d, c.start, c.end)
    && c.positions == PositionsWithin(d.positions, c.start, c.end)
  }

  /** The chunks follow each other from the start of the text up to `end`. */
  predicate Tiles(chunks: seq<Chunk>, end: nat) {
    && (chunks == [] ==> end == 0)
    && (chunks != [] ==> chunks[0].start == 0 && Last(chunks).end == end)
    && forall i :: 0 < i < |chunks| ==> chunks[i].start == chunks[i - 1].end
  }

  /** Every chunk is an admissible piece that reaches as far as any piece could. */
  ghost predicate Greedy(lines: seq<string>, max: nat, chunks: seq<Chunk>) {
    forall i :: 0 <= i < |chunks| ==>
      && Admissible(lines, max, chunks[i].start, chunks[i].end)
      && Furthest(lines, max, chunks[i].start, chunks[i].end)
  }

  /** The chunks cut from the text up to `end`. */
  ghost predicate Built(d: Document, lines: seq<string>, max: nat, chunks: seq<Chunk>, end: nat) {
    && Tiles(chunks, end)
    && Greedy(lines, max, chunks)
    && forall i :: 0 <= i < |chunks| ==> Describes(d, lines, chunks[i], i)
  }

  ghost predicate ChunksOf(d: Document, lines: seq<string>, max: nat, chunks: seq<Chunk>) {
    Built(d, lines, max, chunks, |d.text|)
  }

  function ChunkAt(d: Document, index: nat, a: nat, b: nat, startLine: nat, endLine: nat): Chunk
    requires a <= b <= |d.text|
  {
    Chunk(index, d.text[a..b], a, b, startLine, endLine, PositionsWithin(d.positions, a, b),
          PageRange(d, a, b).0, PageRange(d, a, b).1)
  }

  method AppendChunk(chunks: seq<Chunk>, d: Document, chunkIndex: nat, startOffset: nat, endOffset: nat,
                     startLine: nat, endLine: nat)
    returns (chunks': seq<Chunk>, next: nat)
    requires startOffset <= endOffset <= |d.text|
    ensures next == chunkIndex + 1
    ensures chunks' == chunks + [ChunkAt(d, chunkIndex, startOffset, endOffset, startLine, endLine)]
  {
    var (pageStart, pageEnd) := PageRange(d, startOffset, endOffset);
    chunks' := chunks + [
      Chunk(chunkIndex, d.text[startOffset..endOffset], startOffset, endOffset, startLine, endLine,
            PositionsWithin(d.positions, startOffset, endOffset), pageStart, pageEnd)];
    next := chunkIndex + 1;
  }

  lemma BuiltGrows(d: Document, lines: seq<string>, max: nat, chunks: seq<Chunk>, c: Chunk)
    requires Built(d, lines, max, chunks, c.start)
    requires Admissible(lines, max, c.start, c.end) && Furthest(lines, max, c.start, c.end)
    requires Describes(d, lines, c, |chunks|)
    ensures Built(d, lines, max, chunks + [c], c.end)
  {
    hide Admissible, Furthest, Describes;
  }

  /** A run of lines `i..k` under way. */
  predicate OpenRun(lines: seq<string>, max: nat, i: int, k: int) {
    && 0 <= i < k <= |lines|
    && Offset(lines, k) - Offset(lines, i) <= max
    && forall j :: i <= j < k ==> |lines[j]| <= max
  }

  /** The segments of one over-long line. */
  method AppendSegments(chunks: seq<Chunk>, d: Document, ghost lines: seq<string>, maxChars: nat,
                        chunkIndex: nat, line: nat, lineStart: nat, lineEnd: nat)
    returns (chunks': seq<Chunk>, next: nat)
    requires LinesOf(lines, d.text) && line < |lines| && |lines[line]| > maxChars >= 1
    requires lineStart == Offset(lines, line) && lineEnd == Offset(lines, line + 1)
    requires chunkIndex == |chunks| && Built(d, lines, maxChars, chunks, lineStart)
    ensures next == |chunks'| && Built(d, lines, maxChars, chunks', lineEnd)
  {
    hide Built, LinesOf, PageRange, PositionsWithin;
    chunks', next := chunks, chunkIndex;
    var segmentStart := lineStart;
    while segmentStart < lineEnd
      invariant lineStart <= segmentStart <= lineEnd
      invariant next == |chunks'| && Built(d, lines, maxChars, chunks', segmentStart)
    {
      var segmentEnd := Min(segmentStart + maxChars, lineEnd);
      SegmentCloses(d, lines, maxChars, chunks', line, segmentStart, segmentEnd);
      chunks', next := AppendChunk(chunks', d, next, segmentStart, segmentEnd, line + 1, line + 1);
      segmentStart := segmentEnd;
    }
  }

  datatype ChunkError = MaxCharsNotPositive

  method ChunkDocument(d: Document, lines: seq<string>, maxChars: int)
    returns (r: Result<seq<Chunk>, ChunkError>)
    requires LinesOf(lines, d.text)
    ensures r.Err? <==> maxChars < 1
    ensures r.Ok? ==> ChunksOf(d, lines, maxChars, r.value)
  {
    hide Built, Greedy, Describes, Tiles, PageRange, PositionsWithin, Flatten, Furthest, Admissible, Run, Part;
    if maxChars < 1 { return Err(MaxCharsNotPositive); }
    var chunks: seq<Chunk> := [];
    var current: Option<nat> := None;
    var currentEnd, currentStartLine, currentEndLine := 0, 0, 0;
    var nextIndex, offset := 0, 0;
    TextLength(d.text, lines);
    NothingBuilt(d, lines, maxChars);
    for i := 0 to |lines|
      invariant offset == Offset(lines, i) <= |d.text|
      invariant nextIndex == |chunks|
      invariant current.None? ==> Built(d, lines, maxChars, chunks, offset)
      invariant current.Some? ==>
                  && 1 <= currentStartLine && currentEndLine == i
                  && OpenRun(lines, maxChars, currentStartLine - 1, i)
                  && current.value == Offset(lines, currentStartLine - 1)
                  && currentEnd == offset
                  && Built(d, lines, maxChars, chunks, current.value)
    {
      var lineNumber := i + 1;
      var lineStart := offset;
      var lineEnd := lineStart + |lines[i]|;
      OffsetsRise(lines, i + 1, |lines|);
      offset := lineEnd;

      if |lines[i]| > maxChars {
        if current.Some? {
          RunCloses(d, lines, maxChars, chunks, currentStartLine - 1, i);
          chunks, nextIndex := AppendChunk(
            chunks, d, nextIndex, current.value, currentEnd, currentStartLine, currentEndLine);
          current := None;
        }
        chunks, nextIndex := AppendSegments(chunks, d, lines, maxChars, nextIndex, i, lineStart, lineEnd);
      } else if current.None? {
        current, currentEnd := Some(lineStart), lineEnd;
        currentStartLine, currentEndLine := lineNumber, lineNumber;
      } else if lineEnd - current.value <= maxChars {
        currentEnd := lineEnd;
        currentEndLine := lineNumber;
      } else {
        RunCloses(d, lines, maxChars, chunks, currentStartLine - 1, i);
        chunks, nextIndex := AppendChunk(
          chunks, d, nextIndex, current.value, currentEnd, currentStartLine, currentEndLine);
        current, currentEnd := Some(lineStart), lineEnd;
        currentStartLine, currentEndLine := lineNumber, lineNumber;
      }
    }
    if current.Some? {
      RunCloses(d, lines, maxChars, chunks, currentStartLine - 1, |lines|);
      chunks, nextIndex := AppendChunk(
        chunks, d, nextIndex, current.value, currentEnd, currentStartLine, currentEndLine);
    }
    r := Ok(chunks);
  }

  lemma NothingBuilt(d: Document, lines: seq<string>, max: nat)
    ensures Built(d, lines, max, [], 0)
  {
  }

  lemma TextLength(text: string, lines: seq<string>)
    requires LinesOf(lines, text)
    ensures Offset(lines, |lines|) == |text|
  {
    LastOffsetIsLength(lines, |lines|);
    assert lines[..|lines|] == lines;
  }

  lemma RunCloses(d: Document, lines: seq<string>, max: nat, chunks: seq<Chunk>, i: nat, k: nat)
    requires LinesOf(lines, d.text) && OpenRun(lines, max, i, k)
    requires k == |lines| || |lines[k]| > max || Offset(lines, k + 1) - Offset(lines, i) > max
    requires Built(d, lines, max, chunks, Offset(lines, i))
    ensures Offset(lines, i) <= Offset(lines, k) <= |d.text|
    ensures Built(d, lines, max,
                  chunks + [ChunkAt(d, |chunks|, Offset(lines, i), Offset(lines, k), i + 1, k)],
                  Offset(lines, k))
  {
    hide Built, Greedy, Tiles, PageRange, PositionsWithin, Furthest;
    TextLength(d.text, lines);
    OffsetsRise(lines, i, k);
    OffsetsRise(lines, k, |lines|);
    OffsetsRise(lines, k - 1, k);
    OffsetsRise(lines, i, i + 1);
    ClosedRunIsFurthest(lines, max, i, k);
    assert RunFrom(lines, max, Offset(lines, i), Offset(lines, k), i, k);
    BuiltGrows(d, lines, max, chunks, ChunkAt(d, |chunks|, Offset(lines, i), Offset(lines, k), i + 1, k));
  }

  lemma SegmentCloses(d: Document, lines: seq<string>, max: nat, chunks: seq<Chunk>, k: nat, a: nat, b: nat)
    requires LinesOf(lines, d.text) && k < |lines| && |lines[k]| > max >= 1
    requires Offset(lines, k) <= a < Offset(lines, k + 1) && b == Min(a + max, Offset(lines, k + 1))
    requires Built(d, lines, max, chunks, a)
    ensures b <= |d.text|
    ensures Built(d, lines, max, chunks + [ChunkAt(d, |chunks|, a, b, k + 1, k + 1)], b)
  {
    hide Built, Greedy, Tiles, PageRange, PositionsWithin, Furthest;
    TextLength(d.text, lines);
    OffsetsRise(lines, k + 1, |lines|);
    SegmentIsFurthest(lines, max, k, a, b);
    assert PartOf(lines, max, a, b, k);
    BuiltGrows(d, lines, max, chunks, ChunkAt(d, |chunks|, a, b, k + 1, k + 1));
  }

  // ---- what greedy cutting achieves ----

  /** After as many pieces, the chunks have come at least as far as any other cutting. */
  lemma {:induction false} GreedyStaysAhead(d: Document, lines: seq<string>, max: nat, chunks: seq<Chunk>,
                                            cuts: seq<nat>, i: nat)
    requires LinesOf(lines, d.text) && ChunksOf(d, lines, max, chunks) && Cutting(lines, max, cuts)
    requires i < |cuts|
    ensures cuts[i] <= if i == 0 then 0 else if i <= |chunks| then chunks[i - 1].end else |d.text|
    decreases i
  {
    TextLength(d.text, lines);
    CutsRise(lines, max, cuts, i);
    if 0 < i <= |chunks| {
      GreedyStaysAhead(d, lines, max, chunks, cuts, i - 1);
      var c := chunks[i - 1];
      assert Describes(d, lines, c, i - 1);
      assert Admissible(lines, max, cuts[i - 1], cuts[i]);
      assert c.start == if i == 1 then 0 else chunks[i - 2].end;
      assert Furthest(lines, max, c.start, c.end);
      if c.start < cuts[i] {
        assert cuts[i] <= c.end;
      }
    }
  }

  lemma {:induction false} CutsRise(lines: seq<string>, max: nat, cuts: seq<nat>, i: nat)
    requires Cutting(lines, max, cuts) && i < |cuts|
    ensures cuts[i] <= Last(cuts)
    decreases |cuts| - i
  {
    if i < |cuts| - 1 {
      assert Admissible(lines, max, cuts[i], cuts[i + 1]);
      CutsRise(lines, max, cuts, i + 1);
    }
  }

  /**
    No cutting that keeps short lines whole and over-long lines to themselves has fewer pieces, and
    the chunks are themselves such a cutting.
   */
  lemma FewestChunks(d: Document, lines: seq<string>, max: nat, chunks: seq<Chunk>, cuts: seq<nat>)
    requires LinesOf(lines, d.text) && ChunksOf(d, lines, max, chunks)
    ensures Cutting(lines, max, Cuts(chunks))
    ensures Cutting(lines, max, cuts) ==> |chunks| <= |cuts| - 1
  {
    TextLength(d.text, lines);
    ChunksAreCutting(d, lines, max, chunks);
    if Cutting(lines, max, cuts) && |cuts| - 1 < |chunks| {
      ChunkStartsInside(d, lines, max, chunks, |cuts| - 1);
      GreedyStaysAhead(d, lines, max, chunks, cuts, |cuts| - 1);
    }
  }

  lemma ChunkStartsInside(d: Document, lines: seq<string>, max: nat, chunks: seq<Chunk>, n: nat)
    requires ChunksOf(d, lines, max, chunks) && n < |chunks|
    ensures (if n == 0 then 0 else chunks[n - 1].end) < |d.text|
  {
    assert Describes(d, lines, chunks[n], n);
  }

  /** The places the chunks are cut at. */
  function Cuts(chunks: seq<Chunk>): seq<nat> {
    [0] + seq(|chunks|, i requires 0 <= i < |chunks| => chunks[i].end)
  }

  lemma ChunksAreCutting(d: Document, lines: seq<string>, max: nat, chunks: seq<Chunk>)
    requires ChunksOf(d, lines, max, chunks) && Offset(lines, |lines|) == |d.text|
    ensures Cutting(lines, max, Cuts(chunks))
  {
    hide Admissible, Furthest, Describes;
    var cuts := Cuts(chunks);
    forall i | 0 <= i < |cuts| - 1 ensures Admissible(lines, max, cuts[i], cuts[i + 1]) {
      assert Admissible(lines, max, chunks[i].start, chunks[i].end);
    }
  }

  /** When no line is over-long, any cut at line ends into small enough pieces counts. */
  lemma ShortLinesCutAtEnds(lines: seq<string>, max: nat, ends: seq<nat>, cuts: seq<nat>)
    requires forall j :: 0 <= j < |lines| ==> 0 < |lines[j]| <= max
    requires |ends| == |cuts| > 0 && ends[0] == 0 && Last(ends) == |lines|
    requires forall i :: 0 <= i < |ends| ==> ends[i] <= |lines| && cuts[i] == Offset(lines, ends[i])
    requires forall i :: 0 <= i < |ends| - 1 ==> ends[i] < ends[i + 1] && cuts[i + 1] - cuts[i] <= max
    ensures Cutting(lines, max, cuts)
  {
    forall i | 0 <= i < |cuts| - 1 ensures Admissible(lines, max, cuts[i], cuts[i + 1]) {
      OffsetsRise(lines, ends[i], ends[i + 1]);
      assert RunFrom(lines, max, cuts[i], cuts[i + 1], ends[i], ends[i + 1]);
    }
  }

  /** The chunks' texts, one after another, are the text; none is longer than allowed. */
  lemma ChunksConcatenate(d: Document, lines: seq<string>, max: nat, chunks: seq<Chunk>)
    requires ChunksOf(d, lines, max, chunks)
    ensures Flatten(TextsOf(chunks)) == d.text
    ensures forall i :: 0 <= i < |chunks| ==> 0 < |chunks[i].text| <= max
  {
    PrefixConcatenates(d, lines, max, chunks, |chunks|);
    assert TextsOf(chunks)[..|chunks|] == TextsOf(chunks);
    assert d.text[..|d.text|] == d.text;
    forall i | 0 <= i < |chunks| ensures 0 < |chunks[i].text| <= max {
      assert Admissible(lines, max, chunks[i].start, chunks[i].end);
      assert Describes(d, lines, chunks[i], i);
    }
  }

  function TextsOf(chunks: seq<Chunk>): seq<string> {
    seq(|chunks|, i requires 0 <= i < |chunks| => chunks[i].text)
  }

  lemma {:induction false} PrefixConcatenates(d: Document, lines: seq<string>, max: nat,
                                              chunks: seq<Chunk>, n: nat)
    requires ChunksOf(d, lines, max, chunks) && n <= |chunks|
    ensures var end := if n == 0 then 0 else chunks[n - 1].end;
            end <= |d.text| && Flatten(TextsOf(chunks)[..n]) == d.text[..end]
  {
    if n > 0 {
      PrefixConcatenates(d, lines, max, chunks, n - 1);
      ChunkContinues(d, lines, max, chunks, n - 1);
      var c := chunks[n - 1];
      FlattenNext(TextsOf(chunks), n - 1);
      SliceNext(d.text, c.start, c.end);
    }
  }

  lemma ChunkContinues(d: Document, lines: seq<string>, max: nat, chunks: seq<Chunk>, k: nat)
    requires ChunksOf(d, lines, max, chunks) && k < |chunks|
    ensures chunks[k].start == if k == 0 then 0 else chunks[k - 1].end
    ensures chunks[k].start < chunks[k].end <= |d.text|
    ensures TextsOf(chunks)[k] == d.text[chunks[k].start..chunks[k].end]
  {
    hide Greedy, PageRange, PositionsWithin;
    assert Describes(d, lines, chunks[k], k);
  }

  lemma FlattenNext(parts: seq<string>, k: nat)
    requires k < |parts|
    ensures Flatten(parts[..k + 1]) == Flatten(parts[..k]) + parts[k]
  {
    assert parts[..k + 1][..k] == parts[..k];
  }

  lemma SliceNext(text: string, a: nat, b: nat)
    requires a <= b <= |text|
    ensures text[..b] == text[..a] + text[a..b]
  {
  }

  /** A document has one list of chunks: everything about it is settled by its text and lines. */
  lemma {:induction false} ChunksAreDetermined(d: Document, lines: seq<string>, max: nat,
                                               one: seq<Chunk>, other: seq<Chunk>)
    requires LinesOf(lines, d.text)
    requires ChunksOf(d, lines, max, one) && ChunksOf(d, lines, max, other)
    ensures one == other
  {
    TextLength(d.text, lines);
    FewestChunks(d, lines, max, one, Cuts(other));
    FewestChunks(d, lines, max, other, Cuts(one));
    forall i | 0 <= i < |one| ensures one[i] == other[i] {
      SameEnds(d, lines, max, one, other, i);
      SameLines(d, lines, one[i], other[i], i);
    }
  }

  lemma {:induction false} SameEnds(d: Document, lines: seq<string>, max: nat,
                                    one: seq<Chunk>, other: seq<Chunk>, i: nat)
    requires ChunksOf(d, lines, max, one) && ChunksOf(d, lines, max, other)
    requires i < |one| && i < |other|
    ensures one[i].start == other[i].start && one[i].end == other[i].end
  {
    hide Describes;
    if i > 0 { SameEnds(d, lines, max, one, other, i - 1); }
    assert Admissible(lines, max, one[i].start, one[i].end);
    assert Admissible(lines, max, other[i].start, other[i].end);
  }

  lemma SameLines(d: Document, lines: seq<string>, c: Chunk, c': Chunk, index: nat)
    requires LinesOf(lines, d.text) && c.start == c'.start && c.end == c'.end
    requires Describes(d, lines, c, index) && Describes(d, lines, c', index)
    ensures c == c'
  {
    hide Flatten;
    OneLineHolds(lines, c.start, c.startLine, c'.startLine);
    OneLineHolds(lines, c.end - 1, c.endLine, c'.endLine);
  }

  lemma OneLineHolds(lines: seq<string>, position: nat, k: nat, k': nat)
    requires forall j :: 0 <= j < |lines| ==> lines[j] != []
    requires 1 <= k <= |lines| && Offset(lines, k - 1) <= position < Offset(lines, k)
    requires 1 <= k' <= |lines| && Offset(lines, k' - 1) <= position < Offset(lines, k')
    ensures k == k'
  {
    if k < k' { OffsetsRise(lines, k, k' - 1); }
    if k' < k { OffsetsRise(lines, k', k - 1); }
  }
}
