/**
 * `Converter.pdfplumber_conversion`: page by page, the words of the page (a
 * heading word on a line of its own behind "# "), then every table of the page
 * as a Markdown pipe table, then a page separator; all entries joined by line
 * feeds.
 */
module PlumberTables {
  import opened Text

  /** A word of `page.extract_words()`, with the font-size heuristic's heading decision given. */
  datatype Word = Word(text: string, isHeading: bool)

  /** A table of `page.extract_tables()`: its first row and the rows after it. */
  datatype Table = Table(header: seq<string>, rows: seq<seq<string>>)

  datatype PlumberPage = PlumberPage(words: seq<Word>, tables: seq<Table>)

  /**
   * The entry of one word: a heading word sits on a line of its own behind
   * "# ", any other word is its text. The word's text can be read back from
   * the entry, and only a word that is itself the separator text yields one.
   */
  function WordEntry(w: Word): (e: string)
    ensures w.isHeading ==> |e| == |w.text| + 4 && e[..3] == "\n# " && e[3..|e| - 1] == w.text && e[|e| - 1] == '\n'
    ensures !w.isHeading ==> e == w.text
    ensures e == PageSeparator ==> w.text == PageSeparator
  {
    if w.isHeading then
      var e := "\n# " + w.text + "\n";
      assert e[1] == '#';
      assert e[3..|e| - 1] == w.text;
      e
    else w.text
  }

  /** A table row `| c1 | ... | cn |`: the cells joined by " | ", framed by pipes. */
  function RowLine(cells: seq<string>): (r: string)
    ensures |r| >= 4 && r[..2] == "| " && r[|r| - 2..] == " |"
    ensures r[2..|r| - 2] == Join(cells, " | ")
  {
    var r := "| " + Join(cells, " | ") + " |";
    assert r[2..|r| - 2] == Join(cells, " | ");
    r
  }

  /** The header row: the row line of the header cells, on a line of its own. */
  function HeaderLine(cells: seq<string>): (r: string)
    ensures r == "\n" + RowLine(cells) + "\n"
  {
    "\n| " + Join(cells, " | ") + " |\n"
  }

  /**
   * `"|" + " --- |" * n`: a pipe, then one `---` cell per column. It is
   * `6n + 1` characters long, starts with a pipe and holds `n + 1` pipes.
   */
  function Divider(n: nat): (r: string)
    ensures |r| == 6 * n + 1
    ensures r[0] == '|'
    ensures CountChar(r, '|') == n + 1
  {
    if n == 0 then "|"
    else
      CountCharConcat(Divider(n - 1), " --- |", '|');
      assert CountChar(" --- |", '|') == 1;
      Divider(n - 1) + " --- |"
  }

  function WordEntries(words: seq<Word>): seq<string>
  {
    if |words| == 0 then []
    else WordEntries(words[..|words| - 1]) + [WordEntry(words[|words| - 1])]
  }

  function RowLines(rows: seq<seq<string>>): seq<string>
  {
    if |rows| == 0 then []
    else RowLines(rows[..|rows| - 1]) + [RowLine(rows[|rows| - 1])]
  }

  /** Header, divider with one column per header cell, then one line per remaining row. */
  function TableEntries(t: Table): seq<string>
  {
    [HeaderLine(t.header), Divider(|t.header|)] + RowLines(t.rows)
  }

  function TablesEntries(tables: seq<Table>): seq<string>
  {
    if |tables| == 0 then []
    else TablesEntries(tables[..|tables| - 1]) + TableEntries(tables[|tables| - 1])
  }

  /**
   * The entries of one page: its words, its tables, then the separator. The
   * last entry is the separator, and when no word is the separator text it
   * is the page's only separator entry.
   */
  function PageEntries(p: PlumberPage): (r: seq<string>)
    ensures |r| > 0 && r[|r| - 1] == PageSeparator
    ensures (forall i | 0 <= i < |p.words| :: p.words[i].text != PageSeparator) ==> CountOf(r, PageSeparator) == 1
  {
    WordEntriesShape(p.words);
    TablesEntriesShape(p.tables);
    CountOfConcat(WordEntries(p.words), TablesEntries(p.tables), PageSeparator);
    CountOfConcat(WordEntries(p.words) + TablesEntries(p.tables), [PageSeparator], PageSeparator);
    WordEntries(p.words) + TablesEntries(p.tables) + [PageSeparator]
  }

  /** `structured_text` for the whole document: a non-empty document's last entry is a separator. */
  function DocEntries(pages: seq<PlumberPage>): (r: seq<string>)
    ensures |pages| > 0 ==> |r| > 0 && r[|r| - 1] == PageSeparator
  {
    if |pages| == 0 then []
    else DocEntries(pages[..|pages| - 1]) + PageEntries(pages[|pages| - 1])
  }

  /** The pdfplumber conversion of a document. */
  function PlumberMarkdown(pages: seq<PlumberPage>): string
  {
    Join(DocEntries(pages), "\n")
  }

  /** The word loop of `pdfplumber_conversion` for one page. */
  method CollectWords(words: seq<Word>) returns (entries: seq<string>)
    ensures entries == WordEntries(words)
  {
    entries := [];
    for w := 0 to |words|
      invariant entries == WordEntries(words[..w])
    {
      assert words[..w + 1][..w] == words[..w];
      var word := words[w];
      if word.isHeading {
        entries := entries + ["\n# " + word.text + "\n"];
      } else {
        entries := entries + [word.text];
      }
    }
    assert words[..|words|] == words;
  }

  /** The entries of one table: header, divider, then the row loop. */
  method CollectTable(table: Table) returns (entries: seq<string>)
    ensures entries == TableEntries(table)
  {
    entries := [HeaderLine(table.header), Divider(|table.header|)];
    for r := 0 to |table.rows|
      invariant entries == [HeaderLine(table.header), Divider(|table.header|)] + RowLines(table.rows[..r])
    {
      assert table.rows[..r + 1][..r] == table.rows[..r];
      entries := entries + [RowLine(table.rows[r])];
    }
    assert table.rows[..|table.rows|] == table.rows;
  }

  /** The word and table loops of `pdfplumber_conversion` for one page. */
  method PageStructure(page: PlumberPage) returns (entries: seq<string>)
    ensures entries == PageEntries(page)
  {
    entries := CollectWords(page.words);
    ghost var wordsDone := entries;
    for t := 0 to |page.tables|
      invariant entries == wordsDone + TablesEntries(page.tables[..t])
    {
      assert page.tables[..t + 1][..t] == page.tables[..t];
      var tableEntries := CollectTable(page.tables[t]);
      entries := entries + tableEntries;
    }
    assert page.tables[..|page.tables|] == page.tables;
    entries := entries + [PageSeparator];
  }

  /** `Converter.pdfplumber_conversion` on the pages pdfplumber reads. */
  method PdfPlumberConversion(pages: seq<PlumberPage>) returns (md: string)
    ensures md == PlumberMarkdown(pages)
  {
    var structuredText: seq<string> := [];
    for p := 0 to |pages|
      invariant structuredText == DocEntries(pages[..p])
    {
      assert pages[..p + 1][..p] == pages[..p];
      var pageEntries := PageStructure(pages[p]);
      structuredText := structuredText + pageEntries;
    }
    assert pages[..|pages|] == pages;
    md := Join(structuredText, "\n");
  }

  // ----- Properties -----

  /** Number of occurrences of `c` in `s`. */
  function CountChar(s: string, c: char): nat
  {
    if |s| == 0 then 0 else (if s[0] == c then 1 else 0) + CountChar(s[1..], c)
  }

  lemma {:induction false} CountCharConcat(a: string, b: string, c: char)
    ensures CountChar(a + b, c) == CountChar(a, c) + CountChar(b, c)
    decreases |a|
  {
    if |a| > 0 {
      assert (a + b)[1..] == a[1..] + b;
      CountCharConcat(a[1..], b, c);
    } else {
      assert a + b == b;
    }
  }

  /** Joining `k >= 1` pipe-free cells with " | " yields `k - 1` pipes. */
  lemma {:induction false} JoinPipes(cells: seq<string>)
    requires |cells| >= 1
    requires forall i | 0 <= i < |cells| :: CountChar(cells[i], '|') == 0
    ensures CountChar(Join(cells, " | "), '|') == |cells| - 1
    decreases |cells|
  {
    if |cells| > 1 {
      JoinPipes(cells[1..]);
      CountCharConcat(cells[0] + " | ", Join(cells[1..], " | "), '|');
      CountCharConcat(cells[0], " | ", '|');
      assert CountChar(" | ", '|') == 1;
    }
  }

  /**
   * The column counts agree: for a header of `n >= 1` pipe-free cells, the
   * header row, the divider and every row of `n` pipe-free cells each hold
   * `n + 1` pipes.
   */
  lemma ColumnsAgree(t: Table)
    requires |t.header| >= 1
    requires forall i | 0 <= i < |t.header| :: CountChar(t.header[i], '|') == 0
    requires forall r, i | 0 <= r < |t.rows| && 0 <= i < |t.rows[r]| :: CountChar(t.rows[r][i], '|') == 0
    requires forall r | 0 <= r < |t.rows| :: |t.rows[r]| == |t.header|
    ensures CountChar(HeaderLine(t.header), '|') == |t.header| + 1
    ensures CountChar(Divider(|t.header|), '|') == |t.header| + 1
    ensures forall r | 0 <= r < |t.rows| :: CountChar(RowLine(t.rows[r]), '|') == |t.header| + 1
  {
    RowPipes(t.header);
    CountCharConcat("\n", RowLine(t.header), '|');
    CountCharConcat("\n" + RowLine(t.header), "\n", '|');
    assert HeaderLine(t.header) == "\n" + RowLine(t.header) + "\n";
    forall r | 0 <= r < |t.rows|
      ensures CountChar(RowLine(t.rows[r]), '|') == |t.header| + 1
    {
      RowPipes(t.rows[r]);
    }
  }

  /** A row of `k >= 1` pipe-free cells holds `k + 1` pipes. */
  lemma RowPipes(cells: seq<string>)
    requires |cells| >= 1
    requires forall i | 0 <= i < |cells| :: CountChar(cells[i], '|') == 0
    ensures CountChar(RowLine(cells), '|') == |cells| + 1
  {
    JoinPipes(cells);
    CountCharConcat("| ", Join(cells, " | "), '|');
    CountCharConcat("| " + Join(cells, " | "), " |", '|');
    assert CountChar("| ", '|') == 1;
    assert CountChar(" |", '|') == 1;
  }

  /** A table contributes two entries plus one per remaining row, none of them a separator. */
  lemma TableEntriesShape(t: Table)
    ensures |TableEntries(t)| == 2 + |t.rows|
    ensures CountOf(TableEntries(t), PageSeparator) == 0
  {
    RowLinesShape(t.rows);
    CountOfConcat([HeaderLine(t.header), Divider(|t.header|)], RowLines(t.rows), PageSeparator);
    assert HeaderLine(t.header)[1] == '|';
  }

  lemma {:induction false} RowLinesShape(rows: seq<seq<string>>)
    ensures |RowLines(rows)| == |rows|
    ensures CountOf(RowLines(rows), PageSeparator) == 0
    decreases |rows|
  {
    if |rows| > 0 {
      var init := rows[..|rows| - 1];
      RowLinesShape(init);
      CountOfConcat(RowLines(init), [RowLine(rows[|rows| - 1])], PageSeparator);
      assert RowLine(rows[|rows| - 1])[..2][0] == '|';
    }
  }

  lemma {:induction false} TablesEntriesShape(tables: seq<Table>)
    ensures CountOf(TablesEntries(tables), PageSeparator) == 0
    decreases |tables|
  {
    if |tables| > 0 {
      var init := tables[..|tables| - 1];
      TablesEntriesShape(init);
      TableEntriesShape(tables[|tables| - 1]);
      CountOfConcat(TablesEntries(init), TableEntries(tables[|tables| - 1]), PageSeparator);
    }
  }

  lemma {:induction false} WordEntriesShape(words: seq<Word>)
    ensures |WordEntries(words)| == |words|
    ensures (forall i | 0 <= i < |words| :: words[i].text != PageSeparator) ==>
      CountOf(WordEntries(words), PageSeparator) == 0
    decreases |words|
  {
    if |words| > 0 {
      var init := words[..|words| - 1];
      var w := words[|words| - 1];
      WordEntriesShape(init);
      CountOfConcat(WordEntries(init), [WordEntry(w)], PageSeparator);
      assert forall i | 0 <= i < |init| :: init[i] == words[i];
    }
  }

  /**
   * Every page contributes exactly one separator entry: when no word is
   * itself the separator text, the document holds one separator per page.
   */
  lemma {:induction false} OneSeparatorPerPage(pages: seq<PlumberPage>)
    requires forall p, i | 0 <= p < |pages| && 0 <= i < |pages[p].words| :: pages[p].words[i].text != PageSeparator
    ensures CountOf(DocEntries(pages), PageSeparator) == |pages|
    decreases |pages|
  {
    if |pages| > 0 {
      var init := pages[..|pages| - 1];
      var page := pages[|pages| - 1];
      OneSeparatorPerPage(init);
      assert page == pages[|pages| - 1];
      CountOfConcat(DocEntries(init), PageEntries(page), PageSeparator);
    }
  }
}
