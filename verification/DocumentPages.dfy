/** What a chunk says about the pages and blocks it came from. */
module DocumentPages {
  import opened Common
  import opened DocumentContracts
  import opened DocumentParser
  import opened DocumentChunker

  predicate Numbered(pages: seq<Page>) {
    forall i :: 0 <= i < |pages| ==> pages[i].number == i + 1
  }

  predicate Touches(pages: seq<Page>, i: int, start: nat, end: nat)
    requires 0 <= i < |pages|
  {
    Overlaps(pages[i].start, pages[i].end, start, end)
  }

  /** The overlapping pages, in order: `f` and `l` are the first and the last of them. */
  ghost predicate OverlapEnds(pages: seq<Page>, start: nat, end: nat, f: nat, l: nat) {
    && f <= l < |pages|
    && Touches(pages, f, start, end) && Touches(pages, l, start, end)
    && forall i :: 0 <= i < |pages| && Touches(pages, i, start, end) ==> f <= i <= l
  }

  lemma {:induction false} OverlappingEnds(pages: seq<Page>, start: nat, end: nat)
    requires Numbered(pages)
    ensures var found := OverlappingPages(pages, start, end);
            && (found == [] ==> forall i :: 0 <= i < |pages| ==> !Touches(pages, i, start, end))
            && (found != [] ==> 1 <= found[0] <= Last(found) <= |pages|
                                && OverlapEnds(pages, start, end, found[0] - 1, Last(found) - 1))
  {
    if pages != [] {
      var n := |pages| - 1;
      OverlappingEnds(pages[..n], start, end);
      assert forall i :: 0 <= i < n ==> Touches(pages[..n], i, start, end) == Touches(pages, i, start, end);
    }
  }

  lemma {:induction false} FirstEnding(pages: seq<Page>, start: nat)
    ensures var r := FirstEndingAfter(pages, start);
            && (r.None? <==> forall i :: 0 <= i < |pages| ==> pages[i].end <= start)
            && (r.Some? ==> exists i :: 0 <= i < |pages| && pages[i].number == r.value && pages[i].end > start
                                        && forall k :: 0 <= k < i ==> pages[k].end <= start)
  {
    if pages != [] && pages[0].end <= start {
      FirstEnding(pages[1..], start);
      var r := FirstEndingAfter(pages, start);
      if r.Some? {
        var i :| 0 <= i < |pages[1..]| && pages[1..][i].number == r.value && pages[1..][i].end > start
                 && forall k :: 0 <= k < i ==> pages[1..][k].end <= start;
        assert pages[i + 1] == pages[1..][i];
        forall k | 0 <= k < i + 1 ensures pages[k].end <= start {
          if k > 0 { assert pages[k] == pages[1..][k - 1]; }
        }
      } else {
        forall i | 0 <= i < |pages| ensures pages[i].end <= start {
          if i > 0 { assert pages[i] == pages[1..][i - 1]; }
        }
      }
    }
  }

  lemma {:induction false} LastStarting(pages: seq<Page>, end: nat)
    ensures var r := LastStartingBefore(pages, end);
            && (r.None? <==> forall i :: 0 <= i < |pages| ==> end <= pages[i].start)
            && (r.Some? ==> exists i :: 0 <= i < |pages| && pages[i].number == r.value && pages[i].start < end
                                        && forall k :: i < k < |pages| ==> end <= pages[k].start)
  {
    if pages != [] && end <= Last(pages).start {
      var n := |pages| - 1;
      LastStarting(pages[..n], end);
      var r := LastStartingBefore(pages, end);
      if r.Some? {
        var i :| 0 <= i < n && pages[..n][i].number == r.value && pages[..n][i].start < end
                 && forall k :: i < k < n ==> end <= pages[..n][k].start;
        assert pages[i] == pages[..n][i];
        forall k | i < k < |pages| ensures end <= pages[k].start {
          if k < n { assert pages[k] == pages[..n][k]; }
        }
      } else {
        forall i | 0 <= i < |pages| ensures end <= pages[i].start {
          if i < n { assert pages[i] == pages[..n][i]; }
        }
      }
    }
  }

  /** In any valid PDF, a page range comes in order. */
  lemma PageRangeIsOrdered(d: Document, start: nat, end: nat)
    requires ValidDocument(d)
    ensures var (first, last) := PageRange(d, start, end);
            && (first.None? <==> last.None?)
            && (first.Some? ==> 1 <= first.value <= last.value <= |d.pages|)
  {
    hide OverlappingPages, FirstEndingAfter, LastStartingBefore, OverlapEnds, ValidDocument, Numbered;
    if d.format.Pdf? {
      ValidPdfIsNumbered(d);
      OverlappingEnds(d.pages, start, end);
      NumbersInRange(d.pages, start, end);
    }
  }

  lemma ValidPdfIsNumbered(d: Document)
    requires ValidDocument(d) && d.format.Pdf?
    ensures Numbered(d.pages)
  {
  }

  lemma NumbersInRange(pages: seq<Page>, start: nat, end: nat)
    requires Numbered(pages)
    ensures FirstEndingAfter(pages, start).Some? ==> 1 <= FirstEndingAfter(pages, start).value <= |pages|
    ensures LastStartingBefore(pages, end).Some? ==> 1 <= LastStartingBefore(pages, end).value <= |pages|
  {
    hide FirstEndingAfter, LastStartingBefore;
    FirstEnding(pages, start);
    LastStarting(pages, end);
  }

  /** `kept` are positions of the list, in order, and exactly those that overlap the piece. */
  predicate KeepsOverlapping(positions: seq<Position>, start: nat, end: nat, kept: seq<nat>) {
    && (forall i :: 0 <= i < |kept| ==> kept[i] < |positions|)
    && (forall i :: 0 < i < |kept| ==> kept[i - 1] < kept[i])
    && (forall k :: 0 <= k < |positions| ==>
          (k in kept <==> Overlaps(positions[k].start, positions[k].end, start, end)))
  }

  predicate Picks(positions: seq<Position>, kept: seq<nat>, picked: seq<Position>) {
    && |picked| == |kept|
    && forall i :: 0 <= i < |kept| ==> kept[i] < |positions| && picked[i] == positions[kept[i]]
  }

  /** A chunk's positions are the overlapping ones, each as often as it stands there, in their order. */
  lemma {:induction false} PositionsAreFiltered(positions: seq<Position>, start: nat, end: nat)
    returns (kept: seq<nat>)
    ensures KeepsOverlapping(positions, start, end, kept)
    ensures Picks(positions, kept, PositionsWithin(positions, start, end))
  {
    hide KeepsOverlapping, Picks, PositionsWithin;
    if positions == [] {
      kept := [];
      NothingKept(start, end);
    } else {
      kept := PositionsAreFiltered(positions[..|positions| - 1], start, end);
      WithinNext(positions, start, end);
      KeptExtends(positions, start, end, kept);
      PicksExtend(positions, kept, PositionsWithin(positions[..|positions| - 1], start, end));
      if Overlaps(Last(positions).start, Last(positions).end, start, end) {
        kept := kept + [|positions| - 1];
      }
    }
  }

  lemma NothingKept(start: nat, end: nat)
    ensures KeepsOverlapping([], start, end, []) && Picks([], [], PositionsWithin([], start, end))
  {
  }

  lemma WithinNext(positions: seq<Position>, start: nat, end: nat)
    requires positions != []
    ensures var rest := PositionsWithin(positions[..|positions| - 1], start, end);
            PositionsWithin(positions, start, end)
            == if Overlaps(Last(positions).start, Last(positions).end, start, end)
               then rest + [Last(positions)] else rest
  {
  }

  lemma PicksExtend(positions: seq<Position>, kept: seq<nat>, picked: seq<Position>)
    requires positions != [] && Picks(positions[..|positions| - 1], kept, picked)
    ensures Picks(positions, kept, picked)
    ensures Picks(positions, kept + [|positions| - 1], picked + [Last(positions)])
  {
  }

  lemma KeptExtends(positions: seq<Position>, start: nat, end: nat, before: seq<nat>)
    requires positions != [] && KeepsOverlapping(positions[..|positions| - 1], start, end, before)
    ensures var n := |positions| - 1;
            KeepsOverlapping(positions, start, end,
                             if Overlaps(positions[n].start, positions[n].end, start, end)
                             then before + [n] else before)
  {
    var rest, n := positions[..|positions| - 1], |positions| - 1;
    forall k | 0 <= k < n
      ensures k in before <==> Overlaps(positions[k].start, positions[k].end, start, end)
    {
      assert rest[k] == positions[k];
    }
  }

  /** In particular it has exactly the positions that overlap it. */
  lemma PositionsOverlap(positions: seq<Position>, start: nat, end: nat)
    ensures forall p :: p in PositionsWithin(positions, start, end)
                        <==> p in positions && Overlaps(p.start, p.end, start, end)
  {
    hide PositionsWithin;
    var kept := PositionsAreFiltered(positions, start, end);
    var picked := PositionsWithin(positions, start, end);
    forall p | p in picked ensures p in positions && Overlaps(p.start, p.end, start, end) {
      var i :| 0 <= i < |picked| && picked[i] == p;
      assert kept[i] in kept && p == positions[kept[i]];
    }
    forall p | p in positions && Overlaps(p.start, p.end, start, end) ensures p in picked {
      var k :| 0 <= k < |positions| && positions[k] == p;
      assert k in kept;
      var i :| 0 <= i < |kept| && kept[i] == k;
      assert picked[i] == p;
    }
  }

  /** So the chunk contract never refuses a chunk of a valid document. */
  lemma ChunksAreValid(d: Document, lines: seq<string>, max: nat, chunks: seq<Chunk>)
    requires ValidDocument(d) && LinesOf(lines, d.text) && ChunksOf(d, lines, max, chunks)
    ensures forall i :: 0 <= i < |chunks| ==> ValidChunk(chunks[i])
  {
    hide PageRange, PositionsWithin, Greedy, ValidDocument, LinesOf;
    forall i | 0 <= i < |chunks| ensures ValidChunk(chunks[i]) {
      var c := chunks[i];
      assert Describes(d, lines, c, i);
      PageRangeIsOrdered(d, c.start, c.end);
      PositionsOverlap(d.positions, c.start, c.end);
    }
  }

  /** The chunk lies between two neighbouring pages, touching neither's text. */
  predicate Between(pages: seq<Page>, start: nat, end: nat, q: int) {
    && 0 <= q < |pages| - 1
    && pages[q].end <= start && end <= pages[q + 1].start
  }

  /**
    A piece of a PDF as the loader builds it always has a page range: its first and last page, or,
    when it touches none, the two neighbouring pages whose separator it lies in.
   */
  lemma LoadedPdfAlwaysHasPages(d: Document, texts: seq<string>, start: nat, end: nat)
    requires d.format == Pdf && Numbered(d.pages)
    requires texts != [] && LaidOut(texts, d.text, PageRanges(d.pages))
    requires start < end <= |d.text|
    ensures var (first, last) := PageRange(d, start, end);
            && first.Some? && last.Some? && 1 <= first.value <= last.value <= |d.pages|
            && (OverlapEnds(d.pages, start, end, first.value - 1, last.value - 1)
                || (&& last.value == first.value + 1
                    && Between(d.pages, start, end, first.value - 1)
                    && forall i :: 0 <= i < |d.pages| ==> !Touches(d.pages, i, start, end)))
  {
    hide OverlappingPages, FirstEndingAfter, LastStartingBefore, OverlapEnds, LaidOut, Numbered, Packed;
    PageLayout(d, texts);
    OverlappingEnds(d.pages, start, end);
    if OverlappingPages(d.pages, start, end) == [] {
      var q := GapOf(d, start, end);
      FirstIsNeighbour(d.pages, start, end, q);
    }
  }

  /** The layout, said of the pages themselves. */
  lemma PageLayout(d: Document, texts: seq<string>)
    requires texts != [] && LaidOut(texts, d.text, PageRanges(d.pages))
    ensures Packed(d.pages, |d.text|)
  {
    hide LaidOut;
    LaidOutSpans(texts, d.text, PageRanges(d.pages));
    forall i | 0 <= i < |d.pages|
      ensures d.pages[i].start <= d.pages[i].end
      ensures i > 0 ==> d.pages[i].start == d.pages[i - 1].end + 2
    {
      LaidOutBounds(texts, d.text, PageRanges(d.pages), i);
      assert PageRanges(d.pages)[i] == Range(d.pages[i].start, d.pages[i].end);
    }
  }

  predicate Packed(pages: seq<Page>, length: nat) {
    && pages != [] && pages[0].start == 0 && Last(pages).end == length
    && (forall i :: 0 <= i < |pages| ==> pages[i].start <= pages[i].end)
    && (forall i :: 0 < i < |pages| ==> pages[i].start == pages[i - 1].end + 2)
  }

  /** Walks to the last page that starts before the piece ends; the piece lies behind it. */
  lemma GapOf(d: Document, start: nat, end: nat) returns (q: nat)
    requires Packed(d.pages, |d.text|) && start < end <= |d.text|
    requires forall i :: 0 <= i < |d.pages| ==> !Touches(d.pages, i, start, end)
    ensures Between(d.pages, start, end, q)
  {
    q := 0;
    assert !Touches(d.pages, 0, start, end);
    while q + 1 < |d.pages| && d.pages[q + 1].start < end
      invariant q < |d.pages| && d.pages[q].start < end
    {
      q := q + 1;
    }
    assert !Touches(d.pages, q, start, end);
  }

  lemma {:induction false} PackedRises(pages: seq<Page>, length: nat, i: nat, k: nat)
    requires Packed(pages, length) && i < k < |pages|
    ensures pages[i].end < pages[k].start
    decreases k
  {
    if i < k - 1 { PackedRises(pages, length, i, k - 1); }
  }

  lemma FirstIsNeighbour(pages: seq<Page>, start: nat, end: nat, q: nat)
    requires exists length :: Packed(pages, length)
    requires Numbered(pages) && Between(pages, start, end, q) && start < end
    requires forall i :: 0 <= i < |pages| ==> !Touches(pages, i, start, end)
    ensures FirstEndingAfter(pages, start) == Some(q + 2)
    ensures LastStartingBefore(pages, end) == Some(q + 1)
  {
    hide FirstEndingAfter, LastStartingBefore;
    var length :| Packed(pages, length);
    FirstEnding(pages, start);
    LastStarting(pages, end);
    forall i | 0 <= i < q ensures pages[i].end <= start { PackedRises(pages, length, i, q); }
    forall k | q + 1 < k < |pages| ensures end <= pages[k].start { PackedRises(pages, length, q + 1, k); }
    assert pages[q + 1].end > start;
    assert pages[q].start < end;
  }
}
