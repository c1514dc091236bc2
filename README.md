# pdf_converter: the Markdown logic of `Converter`, in Dafny

This project models the part of `src/pdf_converter/pdf2md.py` that turns what a
PDF library reports about a document into Markdown, and proves what that logic
promises:

- **PyMuPDF heuristic** (`PyMuPdfLayout`). Text spans are gathered line by
  line. Non-blank spans are concatenated in order. The line keeps the largest
  span font size, starting from 0. It is bold when a span's lower-cased font
  name contains "bold" or the span has flag bit 2. A line yields a text block
  exactly when its text is not blank. The block holds the stripped text, is a
  heading exactly when its size exceeds 12, and carries its 1-based page.
  Rendering picks `#`, `##` or `###` by size (18, 16, 14) for heading-like
  blocks, and `**bold**` or plain text otherwise. A `"\n---\n"` separator
  follows the first block of a new page. The lines are joined by blank lines
  and runs of three or more line feeds are collapsed to two.
- **pdfplumber tables** (`PlumberTables`). Each page's words come first. Then
  each table follows as a header row, a divider with one `---` per header
  cell, and the remaining rows. A separator closes each page. Everything is
  joined by line feeds.
- **docling-serve client** (`DoclingServe`). A missing base URL or API key is
  an error raised before any request. The endpoint is the base URL without
  its trailing slashes, followed by `/v1/convert/file`. The model gives the
  form fields of the multipart request and says how a reply becomes Markdown.
- **dispatch** (`Dispatch`). The `Converter` object's `convert` picks a
  backend from the library name, case-insensitively, and stores the Markdown.
  `has_image_extraction` holds only for "mistral-ocr".

`Text` holds the Python string operations the code relies on: `strip`,
ASCII `lower`, `in`, `endswith`, `join`, `str(int)` and the
`re.sub(r"\n{3,}", "\n\n", …)` collapse. `Wrappers` holds `Option` and
`Result`.

What the libraries compute from the file is an input of the model. This covers
the PyMuPDF layout dictionary (absent when `fitz.open` cannot open the file),
pdfplumber's words (each with its heading decision) and tables, the Markdown
docling and pymupdf4llm export, and the outcome of the HTTP call. The environment variables `DOCLING_HTTP_CLIENT` and
`DOCLING_API_KEY` become a `ServeConfig` parameter.

Two behaviours are modelled as written:

- The bold test uses `flags & 2`. PyMuPDF documents bit 2 as italic and bit 16
  as bold.
- The handlers of `docling_conversion` and `pymupdf4llm_conversion` call the
  `logging` module itself. That call raises `TypeError`, so a failing library
  makes `convert` raise (`Dispatch.ConvertError.LibraryRaised`).

`pymupdf_conversion` opens the file with `fitz.open` outside any `try`, so a
missing or unreadable file makes `convert` raise on the fallback branch too
(`Dispatch.ConvertError.OpenFailed`).

## Model

| member | source | states |
|---|---|---|
| Text.Strip | src/pdf_converter/pdf2md.py:109 | `strip()` gives the slice of the text between its leading and its trailing whitespace: that slice has no whitespace at either end, and it is empty exactly when the text is all whitespace |
| Text.BlankConcat | src/pdf_converter/pdf2md.py:87-102 | a concatenation is blank exactly when both parts are, so a line's text is blank exactly when each span kept is blank |
| Text.CollapseNewlines | src/pdf_converter/pdf2md.py:154 | the collapse leaves no three line feeds in a row, and a leading run of three or more becomes exactly two while shorter runs stay |
| Text.CollapseRun | src/pdf_converter/pdf2md.py:154 | every run of line feeds is handled on its own: a run of three or more becomes exactly two, a shorter run stays, and the text after it is collapsed in turn |
| Text.CollapseChar | src/pdf_converter/pdf2md.py:154 | a character other than a line feed is copied as it is, and the collapse carries on after it |
| Text.CollapseKeepsText | src/pdf_converter/pdf2md.py:154 | the collapse removes line feeds only: every other character stays, in order |
| Text.CollapseFixesClean | src/pdf_converter/pdf2md.py:154 | text without three line feeds in a row is left unchanged |
| Text.CollapseIdempotent | src/pdf_converter/pdf2md.py:154 | collapsing twice is collapsing once, and text is a fixed point exactly when it has no three line feeds in a row |
| Text.DecimalRoundTrip | src/pdf_converter/pdf2md.py:193 | the decimal text of an integer reads back as that integer |
| PyMuPdfLayout.LineText | src/pdf_converter/pdf2md.py:85-100 | a line's text is the in-order concatenation of its non-blank spans, and it is blank exactly when no span is non-blank |
| PyMuPdfLayout.LineSize | src/pdf_converter/pdf2md.py:83-94 | the line's size is at least 0 and at least every non-blank span's size, and is 0 or the size of one of them |
| PyMuPdfLayout.LineBold | src/pdf_converter/pdf2md.py:81-98 | the line is bold exactly when some non-blank span has "bold" in its lower-cased font name or flag bit 2 |
| PyMuPdfLayout.AggregateSpans | src/pdf_converter/pdf2md.py:80-100 | the span loop computes the line's text, size and bold flag as `LineText`, `LineSize` and `LineBold` define them |
| PyMuPdfLayout.AggregateLine | src/pdf_converter/pdf2md.py:102-115 | a line yields a block exactly when some span is non-blank; the block holds the stripped text, which is non-empty, and it is a heading exactly when its size exceeds 12 |
| PyMuPdfLayout.LinesBlocks | src/pdf_converter/pdf2md.py:78-115 | every block the lines of a layout block yield is well formed (stripped non-empty text, heading exactly above size 12) and on the given page |
| PyMuPdfLayout.LayoutBlockBlocks | src/pdf_converter/pdf2md.py:76-79 | every block a layout block yields is well formed and on the given page |
| PyMuPdfLayout.PageBlocks | src/pdf_converter/pdf2md.py:76-115 | every block of a page is well formed and carries that page number |
| PyMuPdfLayout.DocBlocks | src/pdf_converter/pdf2md.py:71-115 | every block is well formed with a page number from 1 to the page count, and page numbers never decrease |
| PyMuPdfLayout.CollectLineBlocks | src/pdf_converter/pdf2md.py:78-115 | the line loop appends exactly the blocks `LinesBlocks` describes |
| PyMuPdfLayout.CollectPageBlocks | src/pdf_converter/pdf2md.py:76-115 | the block loop appends exactly the blocks `PageBlocks` describes |
| PyMuPdfLayout.CollectTextBlocks | src/pdf_converter/pdf2md.py:70-115 | the page loop builds exactly the `text_blocks` that `DocBlocks` describes |
| PyMuPdfLayout.HeadingLevel | src/pdf_converter/pdf2md.py:130-135 | a heading gets one `#` from size 18, two from 16, three from 14, and none below 14 |
| PyMuPdfLayout.LargerFontRanksHigher | src/pdf_converter/pdf2md.py:130-135 | between two sizes of at least 14, the larger never gets more `#` marks |
| PyMuPdfLayout.HeadingStyle | src/pdf_converter/pdf2md.py:130-139 | a heading-like block gets as many `#` marks as its size's level, and below size 14 its text in bold or plain |
| PyMuPdfLayout.RenderBlock | src/pdf_converter/pdf2md.py:122-145 | a block's line carries heading marks exactly when the block is heading-like (flagged, or under 80 characters without closing punctuation) and at least size 14; every other block gives its stripped text, in bold when the block is bold |
| PyMuPdfLayout.ShapeTestIrrelevant | src/pdf_converter/pdf2md.py:128-145 | when the heading flag means "size above 12", the length and punctuation test never changes the rendering, and below size 14 a block renders as bold or plain text |
| PyMuPdfLayout.RenderBlockHead | src/pdf_converter/pdf2md.py:128-145 | a rendered block with non-empty text never starts with a line feed and is never the separator |
| PyMuPdfLayout.RenderSkipsBlank | src/pdf_converter/pdf2md.py:121-125 | blocks with blank text leave no trace in the Markdown lines |
| PyMuPdfLayout.KeptBlocksAreKept | src/pdf_converter/pdf2md.py:122-125 | the blocks the loop renders all have non-blank text and all come from the input |
| PyMuPdfLayout.OneLinePerBlock | src/pdf_converter/pdf2md.py:121-150 | without the separators, the Markdown lines are exactly one rendering per non-blank block, in input order |
| PyMuPdfLayout.SeparatorCount | src/pdf_converter/pdf2md.py:147-150 | the number of separators is the number of page changes between consecutive rendered blocks, plus one when the first differs from the page rendered before |
| PyMuPdfLayout.SeparatorsFollowLines | src/pdf_converter/pdf2md.py:147-150 | a separator is never the first line and never follows another separator |
| PyMuPdfLayout.MarkdownLines | src/pdf_converter/pdf2md.py:117-150 | `md_lines` holds one line per non-blank block in order once the separators are removed, one separator per page change between those blocks, and never a separator first or two in a row |
| PyMuPdfLayout.PageChangesBound | src/pdf_converter/pdf2md.py:113 | over non-decreasing page numbers, the page changes are at most the last page minus the first |
| PyMuPdfLayout.AllKept | src/pdf_converter/pdf2md.py:109-125 | blocks built from stripped, non-empty text are never skipped by the rendering loop |
| PyMuPdfLayout.DocumentLines | src/pdf_converter/pdf2md.py:67-150 | for a whole document, every text block yields exactly one line in order, and there is one separator per page change, so fewer separators than pages |
| PyMuPdfLayout.BlocksLines | src/pdf_converter/pdf2md.py:117-150 | for well-formed blocks with pages 1 to n in order, each block yields one line in order, with one separator per page change and fewer than n separators |
| PyMuPdfLayout.MarkdownIsCollapsed | src/pdf_converter/pdf2md.py:152-155 | the document's Markdown has no three line feeds in a row, and collapsing it again changes nothing |
| PyMuPdfLayout.RenderOne | src/pdf_converter/pdf2md.py:121-150 | one pass of the loop body: a blank block adds no line and keeps the previous page; any other block adds its rendering, followed by the separator when its page differs from the previous block's, and becomes the previous block |
| PyMuPdfLayout.RenderTextBlocks | src/pdf_converter/pdf2md.py:117-150 | the rendering loop builds exactly the `md_lines` that `MarkdownLines` describes |
| PyMuPdfLayout.PyMuPdfConversion | src/pdf_converter/pdf2md.py:67-155 | the method returns the heuristic Markdown of the layout, with no three line feeds in a row |
| PlumberTables.CollectWords | src/pdf_converter/pdf2md.py:280-293 | the word loop appends one entry per word, a heading as `# text` on a line of its own |
| PlumberTables.CollectTable | src/pdf_converter/pdf2md.py:297-301 | one table's entries are its header line, its divider and one line per remaining row |
| PlumberTables.PageStructure | src/pdf_converter/pdf2md.py:280-303 | one page contributes its word entries, then each table's header, divider and rows, then one separator |
| PlumberTables.PdfPlumberConversion | src/pdf_converter/pdf2md.py:267-304 | the page loop produces the page entries joined by line feeds |
| PlumberTables.Divider | src/pdf_converter/pdf2md.py:299 | the divider for n columns is 6n + 1 characters long, starts with a pipe and holds n + 1 pipes |
| PlumberTables.WordEntry | src/pdf_converter/pdf2md.py:289-293 | a heading word is its text behind "# " on a line of its own, any other word is its text; the text can be read back, and only a word that is the separator text gives a separator |
| PlumberTables.RowLine | src/pdf_converter/pdf2md.py:300-301 | a row line is its cells joined by the cell separator, framed by a pipe and a space at the start and a space and a pipe at the end |
| PlumberTables.HeaderLine | src/pdf_converter/pdf2md.py:298 | the header is the row line of the header cells on a line of its own |
| PlumberTables.PageEntries | src/pdf_converter/pdf2md.py:280-303 | a page's entries end with the separator, which is their only separator when no word is the separator text |
| PlumberTables.DocEntries | src/pdf_converter/pdf2md.py:269-304 | the entries of a document with pages end with a separator |
| PlumberTables.JoinPipes | src/pdf_converter/pdf2md.py:298 | joining k pipe-free cells with the cell separator gives k - 1 pipes |
| PlumberTables.RowPipes | src/pdf_converter/pdf2md.py:301 | a row of k pipe-free cells holds k + 1 pipes |
| PlumberTables.ColumnsAgree | src/pdf_converter/pdf2md.py:297-301 | with pipe-free cells and rows as wide as the header, the header, the divider and every row hold the same number of pipes |
| PlumberTables.TableEntriesShape | src/pdf_converter/pdf2md.py:297-301 | a table contributes two entries plus one per remaining row, and none of them is a separator |
| PlumberTables.RowLinesShape | src/pdf_converter/pdf2md.py:300-301 | each remaining row yields one entry, none a separator |
| PlumberTables.TablesEntriesShape | src/pdf_converter/pdf2md.py:296-301 | a page's tables contribute no separator |
| PlumberTables.WordEntriesShape | src/pdf_converter/pdf2md.py:280-293 | each word yields one entry, and when no word is the separator text, no entry is a separator |
| PlumberTables.OneSeparatorPerPage | src/pdf_converter/pdf2md.py:272-304 | when no word is the separator text, the document holds exactly one separator entry per page |
| DoclingServe.FieldValue | src/pdf_converter/pdf2md.py:190-208 | only "page_range" can be missing, exactly when no range is given; the format list, the language list and the range are the only values sent as JSON arrays |
| DoclingServe.ServeForm | src/pdf_converter/pdf2md.py:190-208 | a field is in the form exactly when it has a value, and the form holds that value |
| DoclingServe.FormFields | src/pdf_converter/pdf2md.py:190-208 | every field but "page_range" is always sent, and "page_range" only when a range is given |
| DoclingServe.FormSwitches | src/pdf_converter/pdf2md.py:184-206 | "target_type" is "zip" exactly when a file is requested, and each boolean option is sent as "true" or "false" |
| DoclingServe.FormNumbers | src/pdf_converter/pdf2md.py:193-196 | the document timeout and image scale are sent as decimal text that reads back as the numbers given |
| DoclingServe.FormPageRange | src/pdf_converter/pdf2md.py:207-208 | "page_range" is sent exactly when a range is given, as its two bounds |
| DoclingServe.FormOptions | src/pdf_converter/pdf2md.py:190-206 | the format and language lists are sent as arrays, and the string options pass through unchanged |
| DoclingServe.TrimTrailingSlashes | src/pdf_converter/pdf2md.py:181 | `rstrip('/')` gives a prefix of the URL that does not end in a slash, and the removed characters are all slashes |
| DoclingServe.Endpoint | src/pdf_converter/pdf2md.py:181 | the endpoint ends with `/v1/convert/file`, after a prefix of the base URL that leaves out only slashes and does not end in one |
| DoclingServe.EndpointIgnoresTrailingSlashes | src/pdf_converter/pdf2md.py:181 | trailing slashes on the base URL do not change the endpoint |
| DoclingServe.BuildRequest | src/pdf_converter/pdf2md.py:178-219 | an unset base URL is reported first, then an unset API key; otherwise the request goes to the base URL without trailing slashes plus `/v1/convert/file`, with a bearer token, the form and the request timeout |
| DoclingServe.ReplyMarkdown | src/pdf_converter/pdf2md.py:222-244 | a reply yields the document's "md_content" (default "") only for status 200 with a "success" status and a dictionary document, and "" otherwise, exceptions included |
| DoclingServe.FailureLooksEmpty | src/pdf_converter/pdf2md.py:222-244 | every failed call gives the same "" as a successful reply whose document has no "md_content" |
| DoclingServe.DoclingServeConversion | src/pdf_converter/pdf2md.py:178-244 | the conversion fails exactly when a setting is unset, and otherwise yields the reply's Markdown |
| DoclingServe.ConfigCheckedFirst | src/pdf_converter/pdf2md.py:178-188 | a configuration error does not depend on the reply, and names the base URL before the API key |
| DoclingServe.ConvertRequest | src/pdf_converter/pdf2md.py:351-366 | the request `convert` sends asks for inline Markdown, with OCR on, forced OCR off and no page range |
| Dispatch.SelectBackend | src/pdf_converter/pdf2md.py:347-369 | the lower-cased name selects docling, docling-serve or pymupdf4llm when it is exactly that name, and the PyMuPDF heuristic for every other name |
| Dispatch.SelectIgnoresCase | src/pdf_converter/pdf2md.py:348 | names equal up to case select the same backend |
| Dispatch.FallbackNames | src/pdf_converter/pdf2md.py:347-369 | "pdfplumber" and "mistral-ocr" fall back to the PyMuPDF heuristic |
| Dispatch.Exported | src/pdf_converter/pdf2md.py:246-265 | a library's exported Markdown is the result, and a library that raises makes the conversion raise |
| Dispatch.Conversion | src/pdf_converter/pdf2md.py:347-369 | `convert` raises exactly when the selected backend cannot produce Markdown: docling or pymupdf4llm raising, a docling-serve setting missing, or PyMuPDF failing to open the file; each exception comes from one kind of backend only |
| Dispatch.FallbackSucceedsWhenOpened | src/pdf_converter/pdf2md.py:69-155 | the fallback succeeds exactly when PyMuPDF opens the file, and then gives the layout's heuristic Markdown with no three line feeds in a row; an unopened file makes `convert` raise |
| Dispatch.ConfigOnlyForServe | src/pdf_converter/pdf2md.py:347-369 | the docling-serve settings affect only the docling-serve backend |
| Dispatch.ServeNeverRaisesWhenConfigured | src/pdf_converter/pdf2md.py:351-366 | with both settings present, docling-serve never raises, and any failed reply gives "" |
| Dispatch.Converter.constructor | src/pdf_converter/pdf2md.py:32-40 | a new converter keeps its name and input, with empty Markdown and no image archive |
| Dispatch.Converter.HasImageExtraction | src/pdf_converter/pdf2md.py:42-43 | image extraction holds exactly for "mistral-ocr", in any case |
| Dispatch.ImageExtractionFallsBack | src/pdf_converter/pdf2md.py:42-43 | the one library that extracts images has no branch of its own in `convert` |
| Dispatch.Converter.Convert | src/pdf_converter/pdf2md.py:347-369 | `convert` stores the selected backend's Markdown; when the backend raises, PyMuPDF on a file it cannot open included, the error comes back and the Markdown is unchanged |

## Left out

- The PDF libraries (PyMuPDF, pdfplumber, docling, pymupdf4llm) and the HTTP client are not modelled. What they return is an input.
- PlumberTables.PageStructure: pdfplumber's heading test is not modelled. It compares a word's font size with 1.2 times the page average, and each word's decision is an input here.
- pdfplumber tables with `None` cells or no rows are not representable. The source raises on both.
- Image extraction, the image archive and the download links are not modelled. They are file and network work.
- The error texts that `docling_conversion` and `pymupdf4llm_conversion` build in their handlers are not modelled. Those handlers raise before they return.
- Writing `md_content` to the output file is not modelled. The same goes for the temporary file, the image folder and the import-time setup (`load_dotenv`, the `images` folder).
- Log messages are not modelled.
- DoclingServe.FormOptions: lists are modelled as JSON arrays, not as the exact text of `json.dumps`.
- DoclingServe.FormNumbers: `images_scale` is modelled as an integer. A float scale would be sent as text like "2.0".
- Field order in the form is not modelled. The form is a map from field to value.
- DoclingServe.ReplyMarkdown: the reply's values are modelled as the source annotates them, strings or string dictionaries. A non-string "md_content" would be returned unchanged by the source.
- `Text.Lower` lower-cases ASCII letters only. Python's `lower()` maps just two non-ASCII characters to ASCII letters: the Kelvin sign to 'k', and 'İ' to 'i' followed by U+0307, two code points. No compared name and not "bold" holds a 'k'. U+0307 occurs in none of them either, so a name or font holding 'İ' matches under neither lowering. Every comparison made here therefore has Python's answer.
- Font sizes are real numbers. Floating-point rounding, NaN and infinities are not modelled.
- `pdf2txt.py`, `convert_single_pdf.py` and `__init__.py` are not part of this model.
