/**
 * The `Converter` object and its `convert` method: the library name picks a
 * backend, case-insensitively; "docling", "docling-serve" and "pymupdf4llm"
 * have backends of their own and every other name, "pdfplumber" included,
 * falls back to the PyMuPDF heuristic. What the libraries read from the PDF
 * file is an input of the model.
 */
module Dispatch {
  import opened Wrappers
  import opened Text
  import PyMuPdfLayout
  import DoclingServe

  /** The conversion routines `convert` can call. */
  datatype Backend = Docling | DoclingServeApi | PyMuPdf4Llm | PyMuPdfHeuristic

  /** The backend `convert` calls for a library name. */
  function SelectBackend(lib: string): (b: Backend)
    ensures b == Docling <==> Lower(lib) == "docling"
    ensures b == DoclingServeApi <==> Lower(lib) == "docling-serve"
    ensures b == PyMuPdf4Llm <==> Lower(lib) == "pymupdf4llm"
    ensures b == PyMuPdfHeuristic <==> Lower(lib) != "docling" && Lower(lib) != "docling-serve" && Lower(lib) != "pymupdf4llm"
  {
    var name := Lower(lib);
    if name == "docling" then Docling
    else if name == "docling-serve" then DoclingServeApi
    else if name == "pymupdf4llm" then PyMuPdf4Llm
    else PyMuPdfHeuristic
  }

  /** Only the lower-cased name matters: names that agree up to case pick the same backend. */
  lemma SelectIgnoresCase(lib: string, other: string)
    requires Lower(lib) == Lower(other)
    ensures SelectBackend(lib) == SelectBackend(other)
    ensures SelectBackend(Lower(lib)) == SelectBackend(lib)
  {
    LowerIdempotent(lib);
  }

  /**
   * The names offered elsewhere for pdfplumber and for Mistral OCR have no
   * branch of their own: both get the PyMuPDF heuristic.
   */
  lemma FallbackNames()
    ensures SelectBackend("pdfplumber") == PyMuPdfHeuristic
    ensures SelectBackend("mistral-ocr") == PyMuPdfHeuristic
  {
    assert Lower("mistral-ocr")[0] == 'm';
  }

  /**
   * What the libraries make of the input file: the layout PyMuPDF reports
   * (None when `fitz.open` raises, for a missing or unreadable file), the
   * Markdown docling and pymupdf4llm export (None when the library raises),
   * and the outcome of posting the file to docling-serve.
   */
  datatype PdfSource = PdfSource(
    layout: Option<seq<PyMuPdfLayout.Page>>,
    doclingMarkdown: Option<string>,
    pymupdf4llmMarkdown: Option<string>,
    serveReply: DoclingServe.Reply)

  /**
   * The exceptions `convert` lets through: a missing docling-serve setting; a
   * failure of docling or pymupdf4llm, whose handler calls the `logging`
   * module itself and so raises in turn; and `fitz.open` failing in the
   * PyMuPDF heuristic, which nothing catches.
   */
  datatype ConvertError = ServeConfigError(cause: DoclingServe.ConfigError) | LibraryRaised | OpenFailed

  /** The Markdown an exported text yields, or the exception a failed library raises. */
  function Exported(md: Option<string>): (r: Result<string, ConvertError>)
    ensures r.Success? <==> md.Some?
    ensures md.Some? ==> r.value == md.value
    ensures md.None? ==> r.error == LibraryRaised
  {
    match md
    case Some(text) => Success(text)
    case None => Failure(LibraryRaised)
  }

  /**
   * The outcome of `convert` for a library name, the libraries' results and
   * the docling-serve settings. It raises exactly when the selected backend
   * cannot produce its Markdown, and each exception comes from one kind of
   * backend only.
   */
  function Conversion(lib: string, src: PdfSource, cfg: DoclingServe.ServeConfig): (r: Result<string, ConvertError>)
    ensures r.Success? <==>
      || (SelectBackend(lib) == Docling && src.doclingMarkdown.Some?)
      || (SelectBackend(lib) == DoclingServeApi && DoclingServe.IsSet(cfg.baseUrl) && DoclingServe.IsSet(cfg.apiKey))
      || (SelectBackend(lib) == PyMuPdf4Llm && src.pymupdf4llmMarkdown.Some?)
      || (SelectBackend(lib) == PyMuPdfHeuristic && src.layout.Some?)
    ensures r.Failure? && r.error.ServeConfigError? ==> SelectBackend(lib) == DoclingServeApi
    ensures r.Failure? && r.error == LibraryRaised ==> SelectBackend(lib) == Docling || SelectBackend(lib) == PyMuPdf4Llm
    ensures r.Failure? && r.error == OpenFailed ==> SelectBackend(lib) == PyMuPdfHeuristic
  {
    match SelectBackend(lib)
    case Docling => Exported(src.doclingMarkdown)
    case DoclingServeApi =>
      (match DoclingServe.DoclingServeConversion(cfg, DoclingServe.ConvertOptions(), src.serveReply)
       case Success(md) => Success(md)
       case Failure(e) => Failure(ServeConfigError(e)))
    case PyMuPdf4Llm => Exported(src.pymupdf4llmMarkdown)
    case PyMuPdfHeuristic =>
      (match src.layout
       case None => Failure(OpenFailed)
       case Some(pages) => Success(PyMuPdfLayout.PyMuPdfMarkdown(pages)))
  }

  /**
   * The fallback succeeds exactly when PyMuPDF opens the file; its Markdown
   * then depends on the page layout alone and has no three line feeds in a
   * row. A file it cannot open makes `convert` raise.
   */
  lemma FallbackSucceedsWhenOpened(lib: string, src: PdfSource, cfg: DoclingServe.ServeConfig)
    requires SelectBackend(lib) == PyMuPdfHeuristic
    ensures Conversion(lib, src, cfg).Success? <==> src.layout.Some?
    ensures src.layout.None? ==> Conversion(lib, src, cfg) == Failure(OpenFailed)
    ensures src.layout.Some? ==>
      && Conversion(lib, src, cfg).value == PyMuPdfLayout.PyMuPdfMarkdown(src.layout.value)
      && NoTripleNewline(Conversion(lib, src, cfg).value)
  {
    if src.layout.Some? {
      PyMuPdfLayout.MarkdownIsCollapsed(src.layout.value);
    }
  }

  /** The docling-serve settings matter only to the docling-serve backend. */
  lemma ConfigOnlyForServe(lib: string, src: PdfSource, cfg1: DoclingServe.ServeConfig, cfg2: DoclingServe.ServeConfig)
    ensures SelectBackend(lib) != DoclingServeApi ==> Conversion(lib, src, cfg1) == Conversion(lib, src, cfg2)
  {
  }

  /**
   * With docling-serve configured, `convert` never raises: any failure of the
   * service leaves the empty Markdown, and a successful reply gives the
   * document's Markdown.
   */
  lemma ServeNeverRaisesWhenConfigured(lib: string, src: PdfSource, cfg: DoclingServe.ServeConfig)
    requires SelectBackend(lib) == DoclingServeApi
    requires DoclingServe.IsSet(cfg.baseUrl) && DoclingServe.IsSet(cfg.apiKey)
    ensures Conversion(lib, src, cfg).Success?
    ensures !DoclingServe.Succeeded(src.serveReply) ==> Conversion(lib, src, cfg).value == ""
    ensures Conversion(lib, src, cfg).value == DoclingServe.ReplyMarkdown(src.serveReply)
  {
  }

  /** The `Converter` object: the library name, the input, and the Markdown produced so far. */
  class Converter {
    var lib: string
    var inputFile: PdfSource
    var mdContent: string
    var createImageZipFile: bool

    /** A fresh converter holds no Markdown and no image archive. */
    constructor(lib: string, inputFile: PdfSource)
      ensures this.lib == lib && this.inputFile == inputFile
      ensures mdContent == "" && !createImageZipFile
    {
      this.lib := lib;
      this.inputFile := inputFile;
      mdContent := "";
      createImageZipFile := false;
    }

    /** Only Mistral OCR extracts images, whatever the case of its name. */
    function HasImageExtraction(): (r: bool)
      reads this
      ensures r <==> Lower(lib) == "mistral-ocr"
    {
      Lower(lib) in ["mistral-ocr"]
    }

    /**
     * `convert`: calls the backend the library name selects and keeps its
     * Markdown; when the backend raises (PyMuPDF included, on a file it cannot
     * open), the exception is returned and the Markdown is left as it was.
     */
    method Convert(cfg: DoclingServe.ServeConfig) returns (error: Option<ConvertError>)
      modifies this`mdContent
      ensures Conversion(lib, inputFile, cfg).Success? ==>
        mdContent == Conversion(lib, inputFile, cfg).value && error == None
      ensures Conversion(lib, inputFile, cfg).Failure? ==>
        mdContent == old(mdContent) && error == Some(Conversion(lib, inputFile, cfg).error)
    {
      var name := Lower(lib);
      if name == "docling" {
        match inputFile.doclingMarkdown
        case Some(md) =>
          mdContent := md;
          error := None;
        case None =>
          error := Some(LibraryRaised);
      } else if name == "docling-serve" {
        var served := DoclingServe.DoclingServeConversion(cfg, DoclingServe.ConvertOptions(), inputFile.serveReply);
        match served
        case Success(md) =>
          mdContent := md;
          error := None;
        case Failure(e) =>
          error := Some(ServeConfigError(e));
      } else if name == "pymupdf4llm" {
        match inputFile.pymupdf4llmMarkdown
        case Some(md) =>
          mdContent := md;
          error := None;
        case None =>
          error := Some(LibraryRaised);
      } else {
        match inputFile.layout
        case Some(pages) =>
          var md := PyMuPdfLayout.PyMuPdfConversion(pages);
          mdContent := md;
          error := None;
        case None =>
          error := Some(OpenFailed);
      }
    }
  }

  /** The one library that extracts images has no backend of its own in `convert`. */
  lemma ImageExtractionFallsBack(c: Converter)
    requires c.HasImageExtraction()
    ensures SelectBackend(c.lib) == PyMuPdfHeuristic
  {
  }
}
