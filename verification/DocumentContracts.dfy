/** Documents, their page and block ranges, and the chunks cut from them. */
module DocumentContracts {
  import opened Common

  datatype Format = Markdown | PlainText | Pdf | Docx

  datatype Page = Page(number: nat, start: nat, end: nat)

  /** Where a DOCX block stands in the text, and in the file. */
  datatype Position =
    | Paragraph(start: nat, end: nat, section: Option<nat>, heading: Option<nat>, paragraph: nat)
    | TableCell(start: nat, end: nat, section: Option<nat>, heading: Option<nat>,
                table: nat, row: nat, cell: nat)

  datatype Document = Document(
    format: Format, text: string, pages: seq<Page>, positions: seq<Position>)

  datatype Chunk = Chunk(
    index: nat, text: string, start: nat, end: nat, startLine: nat, endLine: nat,
    positions: seq<Position>, pageStart: Option<nat>, pageEnd: Option<nat>)

  datatype ContractError =
    | PositionsOnPdf | PagesOnDocx | MetadataOnPlainText | NoPages
    | PageNumbersBroken | RangesOverlap | RangeOutsideText

  predicate ValidPage(p: Page) { p.number >= 1 && p.start <= p.end }

  predicate ValidPosition(p: Position) {
    p.start <= p.end && (p.heading.Some? ==> p.heading.value >= 1)
  }

  predicate ValidChunk(c: Chunk) {
    && c.text != [] && c.start < c.end && 1 <= c.startLine <= c.endLine
    && (c.pageStart.None? <==> c.pageEnd.None?)
    && (c.pageStart.Some? ==> 1 <= c.pageStart.value <= c.pageEnd.value)
    && (forall i :: 0 <= i < |c.positions| ==> Overlaps(c.positions[i].start, c.positions[i].end, c.start, c.end))
  }

  /** Two half-open ranges share a point, or an empty one lies strictly inside the other. */
  predicate Overlaps(start: nat, end: nat, from: nat, to: nat) {
    from < end && start < to
  }

  predicate PageMetadataFits(d: Document) {
    match d.format
    case Pdf =>
      && d.positions == [] && d.pages != []
      && (forall i :: 0 <= i < |d.pages| ==> d.pages[i].number == i + 1 && d.pages[i].end <= |d.text|)
      && (forall i :: 0 < i < |d.pages| ==> d.pages[i - 1].end <= d.pages[i].start)
    case Docx => d.pages == []
    case _ => d.pages == [] && d.positions == []
  }

  predicate PositionsFit(d: Document) {
    && (forall i :: 0 <= i < |d.positions| ==> d.positions[i].end <= |d.text|)
    && (forall i :: 0 < i < |d.positions| ==> d.positions[i - 1].end <= d.positions[i].start)
  }

  predicate ValidDocument(d: Document) {
    && (forall i :: 0 <= i < |d.pages| ==> ValidPage(d.pages[i]))
    && (forall i :: 0 <= i < |d.positions| ==> ValidPosition(d.positions[i]))
    && PageMetadataFits(d) && PositionsFit(d)
  }

  /** The first `i` pages are numbered from one, inside the text and one behind the other. */
  predicate PagesFit(d: Document, i: int) {
    && 0 <= i <= |d.pages|
    && (forall k :: 0 <= k < i ==> d.pages[k].number == k + 1 && d.pages[k].end <= |d.text|)
    && (forall k :: 0 < k < i ==> d.pages[k - 1].end <= d.pages[k].start)
  }

  predicate PositionsFitUpTo(d: Document, i: int) {
    && 0 <= i <= |d.positions|
    && (forall k :: 0 <= k < i ==> d.positions[k].end <= |d.text|)
    && (forall k :: 0 < k < i ==> d.positions[k - 1].end <= d.positions[k].start)
  }

  /** Page `i` is the first that is wrong, and this is what is wrong with it. */
  predicate PageIsWrong(d: Document, i: int, error: Option<ContractError>) {
    && PagesFit(d, i) && i < |d.pages|
    && var previousEnd := if i == 0 then 0 else d.pages[i - 1].end;
       error == Some(if d.pages[i].number != i + 1 then PageNumbersBroken
                     else if d.pages[i].start < previousEnd then RangesOverlap
                     else RangeOutsideText)
  }

  predicate PositionIsWrong(d: Document, i: int, error: Option<ContractError>) {
    && PositionsFitUpTo(d, i) && i < |d.positions|
    && var previousEnd := if i == 0 then 0 else d.positions[i - 1].end;
       error == Some(if d.positions[i].start < previousEnd then RangesOverlap else RangeOutsideText)
  }

  /** Passes exactly what fits; the error says what is wrong, with the first page that is. */
  method ValidatePageMetadata(d: Document) returns (error: Option<ContractError>)
    ensures error.None? <==> PageMetadataFits(d)
    ensures error == Some(PositionsOnPdf) <==> d.format.Pdf? && d.positions != []
    ensures error == Some(PagesOnDocx) <==> d.format.Docx? && d.pages != []
    ensures error == Some(MetadataOnPlainText) <==>
              !d.format.Pdf? && !d.format.Docx? && (d.pages != [] || d.positions != [])
    ensures error == Some(NoPages) <==> d.format.Pdf? && d.positions == [] && d.pages == []
    ensures d.format.Pdf? && d.positions == [] && error.Some? && d.pages != [] ==>
              exists i :: PageIsWrong(d, i, error)
  {
    if d.format.Pdf? {
      if d.positions != [] { return Some(PositionsOnPdf); }
    } else if d.format.Docx? {
      if d.pages != [] { return Some(PagesOnDocx); }
    } else if d.pages != [] || d.positions != [] {
      return Some(MetadataOnPlainText);
    }
    if !d.format.Pdf? { return None; }
    if d.pages == [] { return Some(NoPages); }

    var previousNumber, previousEnd := 0, 0;
    for i := 0 to |d.pages|
      invariant previousNumber == i
      invariant previousEnd == if i == 0 then 0 else d.pages[i - 1].end
      invariant PagesFit(d, i)
    {
      var page := d.pages[i];
      if page.number != previousNumber + 1 {
        assert PageIsWrong(d, i, Some(PageNumbersBroken));
        return Some(PageNumbersBroken);
      }
      if page.start < previousEnd {
        assert PageIsWrong(d, i, Some(RangesOverlap));
        return Some(RangesOverlap);
      }
      if page.end > |d.text| {
        assert PageIsWrong(d, i, Some(RangeOutsideText));
        return Some(RangeOutsideText);
      }
      previousNumber, previousEnd := page.number, page.end;
    }
    return None;
  }

  method ValidateSourcePositions(d: Document) returns (error: Option<ContractError>)
    ensures error.None? <==> PositionsFit(d)
    ensures error.Some? ==>
              exists i :: PositionIsWrong(d, i, error)
  {
    var previousEnd := 0;
    for i := 0 to |d.positions|
      invariant previousEnd == if i == 0 then 0 else d.positions[i - 1].end
      invariant PositionsFitUpTo(d, i)
    {
      if d.positions[i].start < previousEnd {
        assert PositionIsWrong(d, i, Some(RangesOverlap));
        return Some(RangesOverlap);
      }
      if d.positions[i].end > |d.text| {
        assert PositionIsWrong(d, i, Some(RangeOutsideText));
        return Some(RangeOutsideText);
      }
      previousEnd := d.positions[i].end;
    }
    return None;
  }
}
