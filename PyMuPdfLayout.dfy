/**
 * The PyMuPDF heuristic of `Converter.pymupdf_conversion`: the page / block /
 * line / span dictionary that `page.get_text("dict")` returns is aggregated
 * into one text block per non-blank line (largest font size, bold flag,
 * heading flag, 1-based page number); each text block becomes one Markdown
 * line chosen by font size and boldness; a page separator follows the first
 * block of every new page; the lines are joined by blank lines and runs of
 * three or more line feeds are collapsed to two.
 */
module PyMuPdfLayout {
  import opened Wrappers
  import opened Text

  /** One span of the layout dictionary: its text, font size, font name and flag bits. */
  datatype Span = Span(text: string, size: real, font: string, flags: int)

  /** A line of a block; the dictionary may lack its "spans" key. */
  datatype Line = Line(spans: Option<seq<Span>>)

  /** A block of a page: text blocks carry "lines", image blocks do not. */
  datatype LayoutBlock = WithLines(lines: seq<Line>) | WithoutLines

  type Page = seq<LayoutBlock>

  /** One entry of `text_blocks`: stripped text, bold flag, heading flag, largest font size, 1-based page. */
  datatype TextBlock = TextBlock(text: string, isBold: bool, isHeading: bool, fontSize: real, page: int)

  /** Font sizes above this mark a line as a heading. */
  const HeadingThreshold: real := 12.0

  /** A span takes part in its line only when its text is not blank. */
  predicate Counts(sp: Span)
  {
    !IsBlank(sp.text)
  }

  /**
   * `flags & 2` is non-zero. Dividing by a positive constant floors in Dafny,
   * so this is the two's-complement bit test for negative flags too.
   */
  predicate FlagBit2(flags: int)
  {
    (flags / 2) % 2 == 1
  }

  /** The font name, lower-cased, contains "bold", or flag bit 2 is set. */
  predicate IsBoldSpan(sp: Span)
  {
    Contains(Lower(sp.font), "bold") || FlagBit2(sp.flags)
  }

  // ----- Span aggregation (one line of the layout) -----

  /**
   * The in-order concatenation of the texts of the counted spans. It is blank
   * exactly when no span counts.
   */
  function LineText(spans: seq<Span>): (t: string)
    ensures IsBlank(t) <==> forall i | 0 <= i < |spans| :: !Counts(spans[i])
  {
    if |spans| == 0 then ""
    else
      var init := spans[..|spans| - 1];
      var last := spans[|spans| - 1];
      var piece := if Counts(last) then last.text else "";
      BlankConcat(LineText(init), piece);
      assert forall i | 0 <= i < |init| :: init[i] == spans[i];
      LineText(init) + piece
  }

  /**
   * The largest font size among the counted spans, starting from 0: at least 0,
   * at least every counted span's size, and either 0 or the size of some
   * counted span.
   */
  function LineSize(spans: seq<Span>): (m: real)
    ensures m >= 0.0
    ensures forall i | 0 <= i < |spans| && Counts(spans[i]) :: spans[i].size <= m
    ensures m == 0.0 || exists i | 0 <= i < |spans| :: Counts(spans[i]) && spans[i].size == m
  {
    if |spans| == 0 then 0.0
    else
      var init := spans[..|spans| - 1];
      var last := spans[|spans| - 1];
      var m := LineSize(init);
      assert forall i | 0 <= i < |init| :: init[i] == spans[i];
      if Counts(last) && last.size > m then last.size else m
  }

  /** The line is bold exactly when some counted span is bold. */
  function LineBold(spans: seq<Span>): (b: bool)
    ensures b <==> exists i | 0 <= i < |spans| :: Counts(spans[i]) && IsBoldSpan(spans[i])
  {
    if |spans| == 0 then false
    else
      var init := spans[..|spans| - 1];
      var last := spans[|spans| - 1];
      assert forall i | 0 <= i < |init| :: init[i] == spans[i];
      LineBold(init) || (Counts(last) && IsBoldSpan(last))
  }

  /** The span loop of `pymupdf_conversion`, run over the spans of one line. */
  method AggregateSpans(spans: seq<Span>) returns (lineText: string, fontSize: real, isBold: bool)
    ensures lineText == LineText(spans)
    ensures fontSize == LineSize(spans)
    ensures isBold == LineBold(spans)
  {
    lineText, fontSize, isBold := "", 0.0, false;
    for i := 0 to |spans|
      invariant lineText == LineText(spans[..i])
      invariant fontSize == LineSize(spans[..i])
      invariant isBold == LineBold(spans[..i])
    {
      assert spans[..i + 1][..i] == spans[..i];
      var span := spans[i];
      if !IsBlank(span.text) {
        if span.size > fontSize {
          fontSize := span.size;
        }
        if Contains(Lower(span.font), "bold") || FlagBit2(span.flags) {
          isBold := true;
        }
        lineText := lineText + span.text;
      }
    }
    assert spans[..|spans|] == spans;
  }

  /** What every aggregated block satisfies. */
  predicate WellFormed(b: TextBlock)
  {
    && b.text != []
    && IsStripped(b.text)
    && (b.isHeading <==> b.fontSize > HeadingThreshold)
    && b.fontSize >= 0.0
  }

  /**
   * The block a line yields on page `page`: one exactly when some span counts,
   * holding the stripped line text, heading exactly when the size exceeds 12.
   */
  function AggregateLine(spans: seq<Span>, page: int): (r: Option<TextBlock>)
    ensures r.Some? <==> exists i | 0 <= i < |spans| :: Counts(spans[i])
    ensures r.Some? ==> WellFormed(r.value) && r.value.page == page
    ensures r.Some? ==> r.value.text == Strip(LineText(spans))
    ensures r.Some? ==> r.value.fontSize == LineSize(spans) && r.value.isBold == LineBold(spans)
  {
    var text := LineText(spans);
    if IsBlank(text) then None
    else
      var size := LineSize(spans);
      Some(TextBlock(Strip(text), LineBold(spans), size > HeadingThreshold, size, page))
  }

  /** All blocks of `bs` are well formed and lie on page `page`. */
  predicate OnPage(bs: seq<TextBlock>, page: int)
  {
    forall i | 0 <= i < |bs| :: WellFormed(bs[i]) && bs[i].page == page
  }

  /** The blocks the lines of one layout block yield, in order. */
  function LinesBlocks(lines: seq<Line>, page: int): (bs: seq<TextBlock>)
    ensures OnPage(bs, page)
  {
    if |lines| == 0 then []
    else
      var rest := LinesBlocks(lines[..|lines| - 1], page);
      var last := lines[|lines| - 1];
      if last.spans.None? then rest
      else
        match AggregateLine(last.spans.value, page)
        case None => rest
        case Some(b) => rest + [b]
  }

  function LayoutBlockBlocks(block: LayoutBlock, page: int): (bs: seq<TextBlock>)
    ensures OnPage(bs, page)
  {
    match block
    case WithLines(lines) => LinesBlocks(lines, page)
    case WithoutLines => []
  }

  /** The blocks one page yields, in order. */
  function PageBlocks(blocks: seq<LayoutBlock>, page: int): (bs: seq<TextBlock>)
    ensures OnPage(bs, page)
  {
    if |blocks| == 0 then []
    else PageBlocks(blocks[..|blocks| - 1], page) + LayoutBlockBlocks(blocks[|blocks| - 1], page)
  }

  /**
   * `text_blocks` for a whole document: every block is well formed, carries a
   * page number between 1 and the page count, and page numbers never decrease.
   */
  function DocBlocks(doc: seq<Page>): (bs: seq<TextBlock>)
    ensures forall i | 0 <= i < |bs| :: WellFormed(bs[i]) && 1 <= bs[i].page <= |doc|
    ensures forall i, j | 0 <= i <= j < |bs| :: bs[i].page <= bs[j].page
  {
    if |doc| == 0 then []
    else
      var init := DocBlocks(doc[..|doc| - 1]);
      var last := PageBlocks(doc[|doc| - 1], |doc|);
      AppendPage(init, last, |doc|);
      init + last
  }

  /** The blocks of page `n` appended to those of the pages before it keep the page order. */
  lemma AppendPage(init: seq<TextBlock>, last: seq<TextBlock>, n: int)
    requires forall i | 0 <= i < |init| :: WellFormed(init[i]) && 1 <= init[i].page <= n - 1
    requires forall i, j | 0 <= i <= j < |init| :: init[i].page <= init[j].page
    requires OnPage(last, n) && 1 <= n
    ensures forall i | 0 <= i < |init + last| :: WellFormed((init + last)[i]) && 1 <= (init + last)[i].page <= n
    ensures forall i, j | 0 <= i <= j < |init + last| :: (init + last)[i].page <= (init + last)[j].page
  {
    var bs := init + last;
    assert forall i | 0 <= i < |bs| :: bs[i] == if i < |init| then init[i] else last[i - |init|];
  }

  // ----- Rendering -----

  /** The text ends with one of `. , ; : ? !`. */
  predicate EndsWithPunctuation(text: string)
  {
    |text| > 0 && text[|text| - 1] in {'.', ',', ';', ':', '?', '!'}
  }

  /** Bold text is wrapped in `**`. */
  function Emphasis(text: string, bold: bool): string
  {
    if bold then "**" + text + "**" else text
  }

  /**
   * The number of `#` marks a heading of this font size gets: one from 18,
   * two from 16, three from 14, and none below 14.
   */
  function HeadingLevel(size: real): (n: nat)
    ensures n <= 3
    ensures n == 0 <==> size < 14.0
    ensures n == 1 <==> size >= 18.0
    ensures n == 3 <==> 14.0 <= size < 16.0
  {
    if size >= 18.0 then 1 else if size >= 16.0 then 2 else if size >= 14.0 then 3 else 0
  }

  /** A larger font never gives a lower-ranked heading. */
  lemma LargerFontRanksHigher(small: real, large: real)
    requires 14.0 <= small <= large
    ensures 1 <= HeadingLevel(large) <= HeadingLevel(small)
  {
  }

  /** `n` heading marks. */
  function Hashes(n: nat): (r: string)
    ensures |r| == n && forall i | 0 <= i < n :: r[i] == '#'
  {
    seq(n, _ => '#')
  }

  /**
   * The rendering of a heading-like block: as many `#` marks as its size's
   * heading level, or, below size 14, the text in bold or plain.
   */
  function HeadingStyle(text: string, size: real, bold: bool): (r: string)
    ensures HeadingLevel(size) > 0 ==> r == Hashes(HeadingLevel(size)) + " " + text
    ensures HeadingLevel(size) == 0 ==> r == Emphasis(text, bold)
  {
    assert Hashes(1) == "#" && Hashes(2) == "##" && Hashes(3) == "###";
    if size >= 18.0 then "# " + text
    else if size >= 16.0 then "## " + text
    else if size >= 14.0 then "### " + text
    else Emphasis(text, bold)
  }

  /** A block is rendered like a heading when flagged so, or when short and without closing punctuation. */
  predicate HeadingLike(b: TextBlock)
  {
    var text := Strip(b.text);
    b.isHeading || (|text| < 80 && !EndsWithPunctuation(text))
  }

  /**
   * The Markdown line of one block: heading marks exactly when the block is
   * heading-like and its size is at least 14; otherwise the stripped text, in
   * bold when the block is bold.
   */
  function RenderBlock(b: TextBlock): (r: string)
    ensures HeadingLike(b) && b.fontSize >= 14.0 ==> r == Hashes(HeadingLevel(b.fontSize)) + " " + Strip(b.text)
    ensures !(HeadingLike(b) && b.fontSize >= 14.0) ==> r == Emphasis(Strip(b.text), b.isBold)
  {
    var text := Strip(b.text);
    if b.isHeading || (|text| < 80 && !EndsWithPunctuation(text)) then
      HeadingStyle(text, b.fontSize, b.isBold)
    else Emphasis(text, b.isBold)
  }

  /**
   * For a block whose heading flag means "size above 12", the length and
   * punctuation test never changes the output: every such block renders as a
   * heading-like block does.
   */
  lemma ShapeTestIrrelevant(b: TextBlock)
    requires b.isHeading <==> b.fontSize > HeadingThreshold
    ensures RenderBlock(b) == HeadingStyle(Strip(b.text), b.fontSize, b.isBold)
    ensures b.fontSize < 14.0 ==> RenderBlock(b) == Emphasis(Strip(b.text), b.isBold)
  {
  }

  /** A rendered non-empty block is never blank at its head, so it is never a separator. */
  lemma RenderBlockHead(b: TextBlock)
    requires Strip(b.text) != []
    ensures |RenderBlock(b)| > 0 && RenderBlock(b)[0] != '\n'
    ensures RenderBlock(b) != PageSeparator
  {
    var text := Strip(b.text);
    assert IsSpace('\n');
    assert RenderBlock(b)[0] in {'#', '*', text[0]};
  }

  /** The block's text is not empty once stripped (the loop skips the others). */
  predicate Kept(b: TextBlock)
  {
    Strip(b.text) != []
  }

  /**
   * The rendering loop from a given state: `prevPage` is the page of the last
   * block rendered. Every kept block yields its line, followed by a separator
   * when its page differs from `prevPage`.
   */
  function RenderFrom(blocks: seq<TextBlock>, prevPage: Option<int>): seq<string>
    decreases |blocks|
  {
    if |blocks| == 0 then []
    else
      var b := blocks[0];
      if !Kept(b) then RenderFrom(blocks[1..], prevPage)
      else
        [RenderBlock(b)]
        + (if prevPage.Some? && prevPage.value != b.page then [PageSeparator] else [])
        + RenderFrom(blocks[1..], Some(b.page))
  }

  /**
   * `md_lines` for the given `text_blocks`: without the separators, one line
   * per kept block in order; one separator per page change between kept
   * blocks; never a separator first or two in a row.
   */
  function MarkdownLines(blocks: seq<TextBlock>): (lines: seq<string>)
    ensures WithoutSeparators(lines) == RenderEach(KeptBlocks(blocks))
    ensures CountOf(lines, PageSeparator) == PageChanges(KeptBlocks(blocks))
    ensures SeparatorsApart(lines)
  {
    var kept := KeptBlocks(blocks);
    OneLinePerBlock(blocks, None);
    SeparatorsFollowLines(blocks, None);
    RenderSkipsBlank(blocks, None);
    KeptBlocksAreKept(blocks);
    assert forall i | 0 <= i < |kept| :: kept[i] in kept;
    SeparatorCount(kept, None);
    RenderFrom(blocks, None)
  }

  /** The lines joined by blank lines, with runs of three or more line feeds collapsed. */
  function RenderMarkdown(blocks: seq<TextBlock>): string
  {
    CollapseNewlines(Join(MarkdownLines(blocks), "\n\n"))
  }

  /** The whole heuristic conversion of a document. */
  function PyMuPdfMarkdown(doc: seq<Page>): string
  {
    RenderMarkdown(DocBlocks(doc))
  }

  // ----- Properties of the rendering -----

  /** The blocks the rendering loop does not skip, in order. */
  function KeptBlocks(blocks: seq<TextBlock>): seq<TextBlock>
  {
    if |blocks| == 0 then []
    else (if Kept(blocks[0]) then [blocks[0]] else []) + KeptBlocks(blocks[1..])
  }

  /** The rendered line of each block, in order. */
  function RenderEach(blocks: seq<TextBlock>): seq<string>
  {
    if |blocks| == 0 then [] else [RenderBlock(blocks[0])] + RenderEach(blocks[1..])
  }

  /** The Markdown lines without the page separators. */
  function WithoutSeparators(lines: seq<string>): seq<string>
  {
    if |lines| == 0 then []
    else (if lines[0] == PageSeparator then [] else [lines[0]]) + WithoutSeparators(lines[1..])
  }

  /** How often the page number changes from one block to the next. */
  function PageChanges(blocks: seq<TextBlock>): nat
  {
    if |blocks| < 2 then 0
    else (if blocks[0].page != blocks[1].page then 1 else 0) + PageChanges(blocks[1..])
  }

  lemma {:induction false} WithoutSeparatorsConcat(a: seq<string>, b: seq<string>)
    ensures WithoutSeparators(a + b) == WithoutSeparators(a) + WithoutSeparators(b)
    decreases |a|
  {
    if |a| > 0 {
      assert (a + b)[1..] == a[1..] + b;
      WithoutSeparatorsConcat(a[1..], b);
    } else {
      assert a + b == b;
    }
  }

  /** Every block `KeptBlocks` returns is kept, and comes from the input. */
  lemma {:induction false} KeptBlocksAreKept(blocks: seq<TextBlock>)
    ensures forall b | b in KeptBlocks(blocks) :: Kept(b) && b in blocks
    decreases |blocks|
  {
    if |blocks| > 0 {
      KeptBlocksAreKept(blocks[1..]);
      var head := if Kept(blocks[0]) then [blocks[0]] else [];
      assert KeptBlocks(blocks) == head + KeptBlocks(blocks[1..]);
      assert forall b | b in blocks[1..] :: b in blocks;
    }
  }

  /** Blocks the loop skips leave no trace: rendering them is rendering the kept ones. */
  lemma {:induction false} RenderSkipsBlank(blocks: seq<TextBlock>, prevPage: Option<int>)
    ensures RenderFrom(blocks, prevPage) == RenderFrom(KeptBlocks(blocks), prevPage)
    decreases |blocks|
  {
    if |blocks| > 0 {
      var b := blocks[0];
      var rest := KeptBlocks(blocks[1..]);
      if Kept(b) {
        RenderSkipsBlank(blocks[1..], Some(b.page));
        var kept := [b] + rest;
        assert KeptBlocks(blocks) == kept;
        assert kept[0] == b && kept[1..] == rest;
        assert RenderFrom(kept, prevPage)
            == [RenderBlock(b)]
               + (if prevPage.Some? && prevPage.value != b.page then [PageSeparator] else [])
               + RenderFrom(rest, Some(b.page));
      } else {
        RenderSkipsBlank(blocks[1..], prevPage);
        assert KeptBlocks(blocks) == rest;
      }
    }
  }

  /**
   * A line followed by an optional separator and further lines: the pieces
   * each step of the rendering loop appends.
   */
  predicate LineStep(x: string, sep: seq<string>)
  {
    x != PageSeparator && (sep == [] || sep == [PageSeparator])
  }

  lemma LineStepWithout(x: string, sep: seq<string>, tail: seq<string>)
    requires LineStep(x, sep)
    ensures WithoutSeparators([x] + sep + tail) == [x] + WithoutSeparators(tail)
  {
    WithoutSeparatorsConcat([x] + sep, tail);
    WithoutSeparatorsConcat([x], sep);
  }

  lemma LineStepCount(x: string, sep: seq<string>, tail: seq<string>)
    requires LineStep(x, sep)
    ensures CountOf([x] + sep + tail, PageSeparator) == |sep| + CountOf(tail, PageSeparator)
  {
    CountOfConcat([x] + sep, tail, PageSeparator);
    CountOfConcat([x], sep, PageSeparator);
  }

  /** No separator comes first, and no separator follows another. */
  predicate SeparatorsApart(lines: seq<string>)
  {
    && (|lines| > 0 ==> lines[0] != PageSeparator)
    && forall i | 0 < i < |lines| && lines[i] == PageSeparator :: lines[i - 1] != PageSeparator
  }

  lemma LineStepApart(x: string, sep: seq<string>, tail: seq<string>)
    requires LineStep(x, sep) && SeparatorsApart(tail)
    ensures SeparatorsApart([x] + sep + tail)
  {
    var lines := [x] + sep + tail;
    var k := 1 + |sep|;
    forall i | 0 < i < |lines| && lines[i] == PageSeparator
      ensures lines[i - 1] != PageSeparator
    {
      if i >= k {
        assert lines[i] == tail[i - k];
        if i > k { assert lines[i - 1] == tail[i - k - 1]; }
      }
    }
  }

  /**
   * Exactly one rendered line per kept block, in input order: removing the
   * separators from the Markdown lines leaves the kept blocks' renderings.
   */
  lemma {:induction false} OneLinePerBlock(blocks: seq<TextBlock>, prevPage: Option<int>)
    ensures WithoutSeparators(RenderFrom(blocks, prevPage)) == RenderEach(KeptBlocks(blocks))
    decreases |blocks|
  {
    if |blocks| > 0 {
      var b := blocks[0];
      if Kept(b) {
        var sep := if prevPage.Some? && prevPage.value != b.page then [PageSeparator] else [];
        OneLinePerBlock(blocks[1..], Some(b.page));
        RenderBlockHead(b);
        LineStepWithout(RenderBlock(b), sep, RenderFrom(blocks[1..], Some(b.page)));
        var kept := [b] + KeptBlocks(blocks[1..]);
        assert KeptBlocks(blocks) == kept;
        assert kept[0] == b && kept[1..] == KeptBlocks(blocks[1..]);
        assert RenderEach(kept) == [RenderBlock(b)] + RenderEach(KeptBlocks(blocks[1..]));
      } else {
        OneLinePerBlock(blocks[1..], prevPage);
        assert KeptBlocks(blocks) == KeptBlocks(blocks[1..]);
      }
    }
  }

  /**
   * Over kept blocks the number of separators is the number of page changes,
   * plus one when the first block's page differs from the previous page.
   */
  lemma {:induction false} SeparatorCount(blocks: seq<TextBlock>, prevPage: Option<int>)
    requires forall i | 0 <= i < |blocks| :: Kept(blocks[i])
    ensures CountOf(RenderFrom(blocks, prevPage), PageSeparator)
         == (if |blocks| > 0 && prevPage.Some? && prevPage.value != blocks[0].page then 1 else 0)
            + PageChanges(blocks)
    decreases |blocks|
  {
    if |blocks| > 0 {
      var b := blocks[0];
      var sep := if prevPage.Some? && prevPage.value != b.page then [PageSeparator] else [];
      SeparatorCount(blocks[1..], Some(b.page));
      RenderBlockHead(b);
      LineStepCount(RenderBlock(b), sep, RenderFrom(blocks[1..], Some(b.page)));
    }
  }

  /**
   * A separator is never the first Markdown line and never follows another
   * separator: it always comes right after a block's line.
   */
  lemma {:induction false} SeparatorsFollowLines(blocks: seq<TextBlock>, prevPage: Option<int>)
    ensures SeparatorsApart(RenderFrom(blocks, prevPage))
    decreases |blocks|
  {
    if |blocks| > 0 {
      var b := blocks[0];
      if Kept(b) {
        var sep := if prevPage.Some? && prevPage.value != b.page then [PageSeparator] else [];
        SeparatorsFollowLines(blocks[1..], Some(b.page));
        RenderBlockHead(b);
        LineStepApart(RenderBlock(b), sep, RenderFrom(blocks[1..], Some(b.page)));
      } else {
        SeparatorsFollowLines(blocks[1..], prevPage);
      }
    }
  }

  /** Over blocks whose pages never decrease, the page changes are at most the page span. */
  lemma {:induction false} PageChangesBound(blocks: seq<TextBlock>)
    requires |blocks| > 0
    requires forall i, j | 0 <= i <= j < |blocks| :: blocks[i].page <= blocks[j].page
    ensures PageChanges(blocks) <= blocks[|blocks| - 1].page - blocks[0].page
    decreases |blocks|
  {
    if |blocks| >= 2 {
      var rest := blocks[1..];
      assert forall i, j | 0 <= i <= j < |rest| :: rest[i].page <= rest[j].page by {
        forall i, j | 0 <= i <= j < |rest| ensures rest[i].page <= rest[j].page {
          assert rest[i] == blocks[i + 1] && rest[j] == blocks[j + 1];
        }
      }
      PageChangesBound(rest);
      assert rest[|rest| - 1] == blocks[|blocks| - 1];
    }
  }

  /**
   * In the Markdown lines of a document every text block is kept and yields one
   * line, in order; there is one separator per page change, so fewer separators
   * than pages.
   */
  lemma DocumentLines(doc: seq<Page>)
    ensures WithoutSeparators(MarkdownLines(DocBlocks(doc))) == RenderEach(DocBlocks(doc))
    ensures CountOf(MarkdownLines(DocBlocks(doc)), PageSeparator) == PageChanges(DocBlocks(doc))
    ensures |doc| > 0 ==> CountOf(MarkdownLines(DocBlocks(doc)), PageSeparator) < |doc|
  {
    BlocksLines(DocBlocks(doc), |doc|);
  }

  /**
   * The same for any well-formed blocks whose pages run from 1 to `pages`
   * without decreasing.
   */
  lemma BlocksLines(bs: seq<TextBlock>, pages: nat)
    requires forall i | 0 <= i < |bs| :: WellFormed(bs[i]) && 1 <= bs[i].page <= pages
    requires forall i, j | 0 <= i <= j < |bs| :: bs[i].page <= bs[j].page
    ensures WithoutSeparators(MarkdownLines(bs)) == RenderEach(bs)
    ensures CountOf(MarkdownLines(bs), PageSeparator) == PageChanges(bs)
    ensures pages > 0 ==> CountOf(MarkdownLines(bs), PageSeparator) < pages
  {
    AllKept(bs);
    if |bs| > 0 {
      PageChangesBound(bs);
    }
  }

  /** Well-formed blocks are all kept. */
  lemma {:induction false} AllKept(blocks: seq<TextBlock>)
    requires forall i | 0 <= i < |blocks| :: WellFormed(blocks[i])
    ensures KeptBlocks(blocks) == blocks
    decreases |blocks|
  {
    if |blocks| > 0 {
      StripKeepsStripped(blocks[0].text);
      AllKept(blocks[1..]);
      assert [blocks[0]] + blocks[1..] == blocks;
    }
  }

  /**
   * The document's Markdown has no three line feeds in a row, and collapsing it
   * again changes nothing.
   */
  lemma MarkdownIsCollapsed(doc: seq<Page>)
    ensures NoTripleNewline(PyMuPdfMarkdown(doc))
    ensures CollapseNewlines(PyMuPdfMarkdown(doc)) == PyMuPdfMarkdown(doc)
  {
    CollapseIdempotent(Join(MarkdownLines(DocBlocks(doc)), "\n\n"));
  }

  /** The line loop of `pymupdf_conversion` over the lines of one layout block on page `page`. */
  method CollectLineBlocks(lines: seq<Line>, page: int) returns (blocks: seq<TextBlock>)
    ensures blocks == LinesBlocks(lines, page)
  {
    blocks := [];
    for l := 0 to |lines|
      invariant blocks == LinesBlocks(lines[..l], page)
    {
      assert lines[..l + 1][..l] == lines[..l];
      var line := lines[l];
      if line.spans.Some? {
        var lineText, fontSize, isBold := AggregateSpans(line.spans.value);
        var isHeading := false;
        if !IsBlank(lineText) {
          if fontSize > HeadingThreshold {
            isHeading := true;
          }
          blocks := blocks + [TextBlock(Strip(lineText), isBold, isHeading, fontSize, page)];
        }
      }
    }
    assert lines[..|lines|] == lines;
  }

  /** The block loop of `pymupdf_conversion` over one page numbered `pageNum` from 1. */
  method CollectPageBlocks(page: Page, pageNum: int) returns (blocks: seq<TextBlock>)
    ensures blocks == PageBlocks(page, pageNum)
  {
    blocks := [];
    for b := 0 to |page|
      invariant blocks == PageBlocks(page[..b], pageNum)
    {
      assert page[..b + 1][..b] == page[..b];
      var block := page[b];
      if block.WithLines? {
        var lineBlocks := CollectLineBlocks(block.lines, pageNum);
        blocks := blocks + lineBlocks;
      }
    }
    assert page[..|page|] == page;
  }

  /** The extraction phase of `pymupdf_conversion`: the page loop filling `text_blocks`. */
  method CollectTextBlocks(doc: seq<Page>) returns (textBlocks: seq<TextBlock>)
    ensures textBlocks == DocBlocks(doc)
  {
    textBlocks := [];
    for pageNum := 0 to |doc|
      invariant textBlocks == DocBlocks(doc[..pageNum])
    {
      assert doc[..pageNum + 1][..pageNum] == doc[..pageNum];
      var pageBlocks := CollectPageBlocks(doc[pageNum], pageNum + 1);
      textBlocks := textBlocks + pageBlocks;
    }
    assert doc[..|doc|] == doc;
  }

  lemma AppendAssociative(a: seq<string>, b: seq<string>, c: seq<string>)
    ensures (a + b) + c == a + (b + c)
  {
  }

  /** One step of the rendering loop, at position `i` of the blocks. */
  lemma RenderStep(blocks: seq<TextBlock>, i: int, prevPage: Option<int>)
    requires 0 <= i < |blocks|
    ensures !Kept(blocks[i]) ==> RenderFrom(blocks[i..], prevPage) == RenderFrom(blocks[i + 1..], prevPage)
    ensures Kept(blocks[i]) ==>
      RenderFrom(blocks[i..], prevPage)
      == [RenderBlock(blocks[i])]
         + (if prevPage.Some? && prevPage.value != blocks[i].page then [PageSeparator] else [])
         + RenderFrom(blocks[i + 1..], Some(blocks[i].page))
  {
    var rest := blocks[i..];
    assert rest[0] == blocks[i] && rest[1..] == blocks[i + 1..];
  }

  /**
   * The body of the rendering loop for one block: the lines it appends and the
   * page it remembers. A blank block adds nothing and leaves the page alone.
   */
  method RenderOne(block: TextBlock, prevPage: Option<int>) returns (lines: seq<string>, nextPage: Option<int>)
    ensures !Kept(block) ==> lines == [] && nextPage == prevPage
    ensures Kept(block) ==>
      && lines == [RenderBlock(block)] + (if prevPage.Some? && prevPage.value != block.page then [PageSeparator] else [])
      && nextPage == Some(block.page)
  {
    lines := [];
    nextPage := prevPage;
    var text := Strip(block.text);
    if text != [] {
      lines := [RenderBlock(block)];
      if prevPage.Some? && prevPage.value != block.page {
        lines := lines + [PageSeparator];
      }
      nextPage := Some(block.page);
    }
  }

  /** The rendering phase of `pymupdf_conversion`: one pass over `text_blocks` keeping the previous block. */
  method RenderTextBlocks(textBlocks: seq<TextBlock>) returns (mdLines: seq<string>)
    ensures mdLines == MarkdownLines(textBlocks)
  {
    mdLines := [];
    var prevPage: Option<int> := None;
    ghost var all := RenderFrom(textBlocks, None);
    assert textBlocks[0..] == textBlocks;
    for i := 0 to |textBlocks|
      invariant mdLines + RenderFrom(textBlocks[i..], prevPage) == all
    {
      RenderStep(textBlocks, i, prevPage);
      var lines, nextPage := RenderOne(textBlocks[i], prevPage);
      AppendAssociative(mdLines, lines, RenderFrom(textBlocks[i + 1..], nextPage));
      mdLines := mdLines + lines;
      prevPage := nextPage;
    }
    assert mdLines == all;
  }

  /**
   * `Converter.pymupdf_conversion` on a document's layout. The result is the
   * heuristic Markdown of the document and never holds three line feeds in a row.
   */
  method PyMuPdfConversion(doc: seq<Page>) returns (md: string)
    ensures md == PyMuPdfMarkdown(doc)
    ensures NoTripleNewline(md)
  {
    var textBlocks := CollectTextBlocks(doc);
    var mdLines := RenderTextBlocks(textBlocks);
    md := Join(mdLines, "\n\n");
    md := CollapseNewlines(md);
  }
}
