/** How the PDF and DOCX loaders lay out their pages and blocks in one text. */
module DocumentParser {
  import opened Common
  import opened DocumentContracts

  const SEPARATOR := "\n\n"

  datatype ParseError = NoPagesFound

  /** A DOCX block as it was read, its text already normalized. */
  datatype Block =
    | ParagraphBlock(text: string, section: Option<nat>, heading: Option<nat>, paragraph: nat)
    | CellBlock(text: string, section: Option<nat>, heading: Option<nat>, table: nat, row: nat, cell: nat)

  function PositionOf(b: Block, start: nat, end: nat): Position {
    match b
    case ParagraphBlock(_, section, heading, paragraph) =>
      Paragraph(start, end, section, heading, paragraph)
    case CellBlock(_, section, heading, table, row, cell) =>
      TableCell(start, end, section, heading, table, row, cell)
  }

  /** The position names the block's own place in the file. */
  predicate Places(b: Block, p: Position) {
    match b
    case ParagraphBlock(_, section, heading, paragraph) =>
      p.Paragraph? && p.section == section && p.heading == heading && p.paragraph == paragraph
    case CellBlock(_, section, heading, table, row, cell) =>
      && p.TableCell? && p.section == section && p.heading == heading
      && p.table == table && p.row == row && p.cell == cell
  }

  /** The texts one after another, a blank line between each two. */
  function Joined(texts: seq<string>): (r: string)
    ensures texts == [] ==> r == ""
  {
    if texts == [] then ""
    else if |texts| == 1 then texts[0]
    else Joined(texts[..|texts| - 1]) + SEPARATOR + Last(texts)
  }

  /** Where text `k` stands in the joined text. */
  function StartOf(texts: seq<string>, k: nat): nat
    requires k < |texts|
  {
    if k == 0 then 0 else |Joined(texts[..k])| + 2
  }

  lemma {:induction false} JoinedGrows(texts: seq<string>, k: nat)
    requires k < |texts|
    ensures |Joined(texts[..k + 1])| == StartOf(texts, k) + |texts[k]|
    ensures Joined(texts[..k + 1])[StartOf(texts, k)..] == texts[k]
    ensures k > 0 ==> Joined(texts[..k + 1])[..|Joined(texts[..k])|] == Joined(texts[..k])
    ensures k > 0 ==> Joined(texts[..k + 1])[|Joined(texts[..k])|..StartOf(texts, k)] == SEPARATOR
  {
    assert texts[..k + 1][..k] == texts[..k];
  }

  /** Slicing the joined text at a text's range gives the text back. */
  lemma {:induction false} SlicesAreTexts(texts: seq<string>, k: nat, n: nat)
    requires k < n <= |texts|
    ensures StartOf(texts, k) + |texts[k]| <= |Joined(texts[..n])|
    ensures Joined(texts[..n])[StartOf(texts, k)..StartOf(texts, k) + |texts[k]|] == texts[k]
    decreases n
  {
    JoinedGrows(texts, n - 1);
    if k < n - 1 {
      SlicesAreTexts(texts, k, n - 1);
      var before, all := Joined(texts[..n - 1]), Joined(texts[..n]);
      assert all[StartOf(texts, k)..StartOf(texts, k) + |texts[k]|]
          == all[..|before|][StartOf(texts, k)..StartOf(texts, k) + |texts[k]|];
    }
  }

  /** Where a text stands: from `start` up to and without `end`. */
  datatype Range = Range(start: nat, end: nat)

  /** The ranges run from the text's first character to its last. */
  predicate SpansText(texts: seq<string>, text: string, ranges: seq<Range>) {
    && |ranges| == |texts|
    && (texts == [] ==> text == "")
    && (texts != [] ==> ranges[0].start == 0 && Last(ranges).end == |text|)
  }

  /** Slicing the text at range `i` gives text `i`. */
  predicate Holds(texts: seq<string>, text: string, ranges: seq<Range>, i: int) {
    && 0 <= i < |ranges| && i < |texts|
    && ranges[i].start <= ranges[i].end <= |text|
    && text[ranges[i].start..ranges[i].end] == texts[i]
  }

  /** Range `i` starts behind one separator after the range before it. */
  predicate Follows(text: string, ranges: seq<Range>, i: int) {
    && 0 < i < |ranges|
    && ranges[i].start == ranges[i - 1].end + 2 <= |text|
    && text[ranges[i - 1].end..ranges[i].start] == SEPARATOR
  }

  /** The texts one after another, two characters apart, filling the text. */
  ghost predicate LaidOut(texts: seq<string>, text: string, ranges: seq<Range>) {
    && SpansText(texts, text, ranges)
    && (forall i :: 0 <= i < |texts| ==> Holds(texts, text, ranges, i))
    && (forall i :: 0 < i < |texts| ==> Follows(text, ranges, i))
  }

  function PageRanges(pages: seq<Page>): seq<Range> {
    seq(|pages|, i requires 0 <= i < |pages| => Range(pages[i].start, pages[i].end))
  }

  function BlockRanges(ps: seq<Position>): seq<Range> {
    seq(|ps|, i requires 0 <= i < |ps| => Range(ps[i].start, ps[i].end))
  }

  function Texts(blocks: seq<Block>): seq<string> { seq(|blocks|, i requires 0 <= i < |blocks| => blocks[i].text) }

  /** Between two texts there is the separator. */
  lemma GapIsSeparator(texts: seq<string>, i: nat)
    requires 0 < i < |texts|
    ensures var end := StartOf(texts, i - 1) + |texts[i - 1]|;
            && StartOf(texts, i) == end + 2 <= |Joined(texts)|
            && Joined(texts)[end..end + 2] == SEPARATOR
  {
    hide Joined;
    var before, end := Joined(texts[..i + 1]), StartOf(texts, i - 1) + |texts[i - 1]|;
    JoinedGrows(texts, i - 1);
    assert end == |Joined(texts[..i])|;
    JoinedGrows(texts, i);
    assert before[end..end + 2] == SEPARATOR;
    JoinedExtends(texts, i + 1, |texts|);
    assert texts[..|texts|] == texts;
    SliceOfPrefix(Joined(texts), before, end, end + 2);
  }

  lemma SliceOfPrefix(text: string, before: string, a: nat, b: nat)
    requires a <= b <= |before| <= |text| && text[..|before|] == before
    ensures text[a..b] == before[a..b]
  {
    assert text[..|before|][a..b] == text[a..b];
  }

  /** Text `k` has its range by the running offsets. */
  predicate RunsFrom(texts: seq<string>, ranges: seq<Range>, k: int) {
    && 0 <= k < |texts| && k < |ranges|
    && ranges[k] == Range(StartOf(texts, k), StartOf(texts, k) + |texts[k]|)
  }

  lemma OffsetsHold(texts: seq<string>, ranges: seq<Range>, i: nat)
    requires RunsFrom(texts, ranges, i)
    ensures Holds(texts, Joined(texts), ranges, i)
  {
    hide Joined;
    assert texts[..|texts|] == texts;
    SlicesAreTexts(texts, i, |texts|);
  }

  lemma OffsetsFollow(texts: seq<string>, ranges: seq<Range>, i: nat)
    requires i > 0 && RunsFrom(texts, ranges, i) && RunsFrom(texts, ranges, i - 1)
    ensures Follows(Joined(texts), ranges, i)
  {
    hide Joined, StartOf;
    GapIsSeparator(texts, i);
  }

  lemma OffsetsSpan(texts: seq<string>, ranges: seq<Range>)
    requires |ranges| == |texts| && forall i :: 0 <= i < |texts| ==> RunsFrom(texts, ranges, i)
    ensures SpansText(texts, Joined(texts), ranges)
  {
    if texts == [] {
      assert Joined(texts) == "";
    } else {
      var n := |texts| - 1;
      assert RunsFrom(texts, ranges, 0) && RunsFrom(texts, ranges, n);
      JoinedGrows(texts, n);
      assert texts[..n + 1] == texts;
      assert Last(ranges) == ranges[n];
    }
  }

  /** Ranges that follow the running offsets lay the texts out. */
  lemma RunningOffsetsLayOut(texts: seq<string>, ranges: seq<Range>)
    requires |ranges| == |texts| && forall i :: 0 <= i < |texts| ==> RunsFrom(texts, ranges, i)
    ensures LaidOut(texts, Joined(texts), ranges)
  {
    hide Joined, RunsFrom, Holds, Follows, SpansText;
    OffsetsSpan(texts, ranges);
    forall i | 0 <= i < |texts| ensures Holds(texts, Joined(texts), ranges, i) {
      OffsetsHold(texts, ranges, i);
    }
    forall i | 0 < i < |texts| ensures Follows(Joined(texts), ranges, i) {
      OffsetsFollow(texts, ranges, i);
    }
  }

  lemma {:induction false} JoinedExtends(texts: seq<string>, k: nat, n: nat)
    requires 1 <= k <= n <= |texts|
    ensures |Joined(texts[..k])| <= |Joined(texts[..n])|
    ensures Joined(texts[..n])[..|Joined(texts[..k])|] == Joined(texts[..k])
    decreases n
  {
    if k < n {
      JoinedGrows(texts, n - 1);
      JoinedExtends(texts, k, n - 1);
      var before := Joined(texts[..n - 1]);
      assert Joined(texts[..n])[..|Joined(texts[..k])|]
          == Joined(texts[..n])[..|before|][..|Joined(texts[..k])|];
    }
  }

  lemma JoinedNext(texts: seq<string>, k: nat)
    requires k < |texts|
    ensures Joined(texts[..k + 1])
            == (if k == 0 then "" else Joined(texts[..k]) + SEPARATOR) + texts[k]
  {
    assert texts[..k + 1][..k] == texts[..k];
  }

  /** The offset loop of the PDF loader: a separator after every page but the last. */
  method LoadPdf(pageTexts: seq<string>) returns (r: Result<Document, ParseError>)
    ensures r.Err? <==> pageTexts == []
    ensures r.Ok? ==>
              && r.value.format == Pdf && r.value.positions == []
              && r.value.text == Joined(pageTexts)
              && LaidOut(pageTexts, r.value.text, PageRanges(r.value.pages))
              && forall i :: 0 <= i < |r.value.pages| ==> r.value.pages[i].number == i + 1
  {
    hide LaidOut, Joined;
    if pageTexts == [] { return Err(NoPagesFound); }
    var text: string := "";
    var pages: seq<Page> := [];
    var currentOffset := 0;
    for i := 0 to |pageTexts|
      invariant |pages| == i
      invariant currentOffset == |text|
      invariant i < |pageTexts| ==> currentOffset == StartOf(pageTexts, i)
      invariant text == if i == 0 then "" else if i < |pageTexts| then Joined(pageTexts[..i]) + SEPARATOR
                        else Joined(pageTexts[..i])
      invariant forall k :: 0 <= k < i ==>
                  pages[k] == Page(k + 1, StartOf(pageTexts, k), StartOf(pageTexts, k) + |pageTexts[k]|)
    {
      var startOffset := currentOffset;
      text := text + pageTexts[i];
      currentOffset := currentOffset + |pageTexts[i]|;
      pages := pages + [Page(i + 1, startOffset, currentOffset)];
      JoinedNext(pageTexts, i);
      if i + 1 < |pageTexts| {
        text := text + SEPARATOR;
        currentOffset := currentOffset + 2;
      }
    }
    assert pageTexts[..|pageTexts|] == pageTexts;
    forall i | 0 <= i < |pageTexts| ensures RunsFrom(pageTexts, PageRanges(pages), i) {
      assert pages[i] == Page(i + 1, StartOf(pageTexts, i), StartOf(pageTexts, i) + |pageTexts[i]|);
    }
    RunningOffsetsLayOut(pageTexts, PageRanges(pages));
    r := Ok(Document(Pdf, text, pages, []));
  }

  /** The offset loop of the DOCX loader: a separator before every block but the first. */
  method LoadDocx(blocks: seq<Block>) returns (d: Document)
    ensures d.format == Docx && d.pages == []
    ensures d.text == Joined(Texts(blocks)) && |d.positions| == |blocks|
    ensures LaidOut(Texts(blocks), d.text, BlockRanges(d.positions))
    ensures forall i :: 0 <= i < |blocks| ==> Places(blocks[i], d.positions[i])
  {
    hide LaidOut, Joined;
    ghost var texts := Texts(blocks);
    var text: string := "";
    var positions: seq<Position> := [];
    var currentOffset := 0;
    for i := 0 to |blocks|
      invariant |positions| == i
      invariant currentOffset == |text|
      invariant text == if i == 0 then "" else Joined(texts[..i])
      invariant forall k :: 0 <= k < i ==>
                  positions[k] == PositionOf(blocks[k], StartOf(texts, k), StartOf(texts, k) + |texts[k]|)
    {
      if i > 0 {
        text := text + SEPARATOR;
        currentOffset := currentOffset + 2;
      }
      var startOffset := currentOffset;
      text := text + blocks[i].text;
      currentOffset := currentOffset + |blocks[i].text|;
      positions := positions + [PositionOf(blocks[i], startOffset, currentOffset)];
      JoinedNext(texts, i);
    }
    assert texts[..|texts|] == texts;
    forall i | 0 <= i < |texts| ensures RunsFrom(texts, BlockRanges(positions), i) {
      assert positions[i] == PositionOf(blocks[i], StartOf(texts, i), StartOf(texts, i) + |texts[i]|);
    }
    RunningOffsetsLayOut(texts, BlockRanges(positions));
    d := Document(Docx, text, positions := positions, pages := []);
  }

  /** What a layout says of one range: its bounds, and that it starts behind the one before. */
  lemma LaidOutBounds(texts: seq<string>, text: string, ranges: seq<Range>, i: nat)
    requires LaidOut(texts, text, ranges) && i < |ranges|
    ensures ranges[i].start <= ranges[i].end <= |text|
    ensures i > 0 ==> ranges[i].start == ranges[i - 1].end + 2
  {
    hide SpansText;
    assert |ranges| == |texts| by { LaidOutSpans(texts, text, ranges); }
    assert Holds(texts, text, ranges, i);
    if i > 0 { assert Follows(text, ranges, i); }
  }

  lemma LaidOutSpans(texts: seq<string>, text: string, ranges: seq<Range>)
    requires LaidOut(texts, text, ranges)
    ensures |ranges| == |texts|
    ensures texts != [] ==> ranges[0].start == 0 && Last(ranges).end == |text|
  {
    hide Holds, Follows;
  }

  /** What the PDF loader builds meets the document contract. */
  lemma LoadedPdfIsValid(d: Document, pageTexts: seq<string>)
    requires d.format == Pdf && d.positions == [] && pageTexts != []
    requires LaidOut(pageTexts, d.text, PageRanges(d.pages))
    requires forall i :: 0 <= i < |d.pages| ==> d.pages[i].number == i + 1
    ensures ValidDocument(d)
  {
    hide LaidOut;
    LaidOutSpans(pageTexts, d.text, PageRanges(d.pages));
    forall i | 0 <= i < |d.pages|
      ensures ValidPage(d.pages[i]) && d.pages[i].end <= |d.text|
      ensures i > 0 ==> d.pages[i - 1].end <= d.pages[i].start
    {
      LaidOutBounds(pageTexts, d.text, PageRanges(d.pages), i);
      assert PageRanges(d.pages)[i] == Range(d.pages[i].start, d.pages[i].end);
    }
  }

  /** What the DOCX loader builds meets it too, heading levels starting at one. */
  lemma LoadedDocxIsValid(d: Document, blocks: seq<Block>)
    requires d.format == Docx && d.pages == [] && |d.positions| == |blocks|
    requires LaidOut(Texts(blocks), d.text, BlockRanges(d.positions))
    requires forall i :: 0 <= i < |blocks| ==>
               Places(blocks[i], d.positions[i])
    requires forall i :: 0 <= i < |blocks| && blocks[i].heading.Some? ==> blocks[i].heading.value >= 1
    ensures ValidDocument(d)
  {
    hide LaidOut;
    forall i | 0 <= i < |d.positions|
      ensures ValidPosition(d.positions[i]) && d.positions[i].end <= |d.text|
      ensures i > 0 ==> d.positions[i - 1].end <= d.positions[i].start
    {
      LaidOutBounds(Texts(blocks), d.text, BlockRanges(d.positions), i);
      assert BlockRanges(d.positions)[i] == Range(d.positions[i].start, d.positions[i].end);
    }
  }
}
