/**
 * `Converter.docling_serve_conversion`: the configuration checks, the endpoint
 * and the form fields of the multipart request sent to a docling-serve
 * instance, and the classification of its reply. Posting the request is a
 * network call; its outcome is a parameter.
 */
module DoclingServe {
  import opened Wrappers
  import opened Text

  /** The environment variables DOCLING_HTTP_CLIENT and DOCLING_API_KEY, read when the module loads. */
  datatype ServeConfig = ServeConfig(baseUrl: Option<string>, apiKey: Option<string>)

  /** The `RuntimeError`s raised before any request is made. */
  datatype ConfigError = BaseUrlNotSet | ApiKeyNotSet

  /** The keyword arguments of `docling_serve_conversion`. */
  datatype ServeOptions = ServeOptions(
    toFormats: seq<string>,
    imageExportMode: string,
    pipeline: string,
    doOcr: bool,
    forceOcr: bool,
    ocrEngine: string,
    ocrLang: seq<string>,
    pdfBackend: string,
    tableMode: string,
    abortOnError: bool,
    returnAsFile: bool,
    includeImages: bool,
    imagesScale: int,
    mdPageBreakPlaceholder: string,
    pageRange: Option<(int, int)>,
    documentTimeout: int,
    requestTimeout: int)

  /** The arguments `convert` passes, with the defaults of the remaining parameters. */
  function ConvertOptions(): ServeOptions
  {
    ServeOptions(
      toFormats := ["md"],
      imageExportMode := "embedded",
      pipeline := "standard",
      doOcr := true,
      forceOcr := false,
      ocrEngine := "easyocr",
      ocrLang := ["en", "fr", "de", "it"],
      pdfBackend := "pypdfium2",
      tableMode := "accurate",
      abortOnError := false,
      returnAsFile := false,
      includeImages := true,
      imagesScale := 2,
      mdPageBreakPlaceholder := "",
      pageRange := None,
      documentTimeout := 3600,
      requestTimeout := 120)
  }

  /** A form field's value: plain text, or a list sent as a JSON array. */
  datatype FormValue = Plain(text: string) | JsonStrings(items: seq<string>) | JsonInts(numbers: seq<int>)

  /** The fields of the form, in the order the source lists them. */
  datatype Field =
    | ToFormats | TargetType | DocumentTimeout | IncludeImages | ImageExportMode
    | ImagesScale | MdPageBreakPlaceholder | Pipeline | DoOcr | ForceOcr
    | OcrEngine | OcrLang | PdfBackend | TableMode | AbortOnError | PageRange

  /** The name a field is sent under. */
  function FieldName(f: Field): string
  {
    match f
    case ToFormats => "to_formats"
    case TargetType => "target_type"
    case DocumentTimeout => "document_timeout"
    case IncludeImages => "include_images"
    case ImageExportMode => "image_export_mode"
    case ImagesScale => "images_scale"
    case MdPageBreakPlaceholder => "md_page_break_placeholder"
    case Pipeline => "pipeline"
    case DoOcr => "do_ocr"
    case ForceOcr => "force_ocr"
    case OcrEngine => "ocr_engine"
    case OcrLang => "ocr_lang"
    case PdfBackend => "pdf_backend"
    case TableMode => "table_mode"
    case AbortOnError => "abort_on_error"
    case PageRange => "page_range"
  }

  /** The form: each field present at most once, with its value. */
  type Form = map<Field, FormValue>

  /** `str(bool(b)).lower()`. */
  function BoolText(b: bool): string
  {
    if b then "true" else "false"
  }

  /** Every field of the form. */
  const AllFields: set<Field> := {
    ToFormats, TargetType, DocumentTimeout, IncludeImages, ImageExportMode,
    ImagesScale, MdPageBreakPlaceholder, Pipeline, DoOcr, ForceOcr,
    OcrEngine, OcrLang, PdfBackend, TableMode, AbortOnError, PageRange}

  /**
   * The value a field is sent with, if it is sent at all: only "page_range"
   * can be missing, exactly when no range is given, and only the two lists
   * and the range are sent as JSON arrays.
   */
  function FieldValue(o: ServeOptions, f: Field): (v: Option<FormValue>)
    ensures v.None? <==> f == PageRange && o.pageRange.None?
    ensures v.Some? ==> (v.value.Plain? <==> f != ToFormats && f != OcrLang && f != PageRange)
  {
    match f
    case ToFormats => Some(JsonStrings(o.toFormats))
    case TargetType => Some(Plain(if o.returnAsFile then "zip" else "inbody"))
    case DocumentTimeout => Some(Plain(DecimalString(o.documentTimeout)))
    case IncludeImages => Some(Plain(BoolText(o.includeImages)))
    case ImageExportMode => Some(Plain(o.imageExportMode))
    case ImagesScale => Some(Plain(DecimalString(o.imagesScale)))
    case MdPageBreakPlaceholder => Some(Plain(o.mdPageBreakPlaceholder))
    case Pipeline => Some(Plain(o.pipeline))
    case DoOcr => Some(Plain(BoolText(o.doOcr)))
    case ForceOcr => Some(Plain(BoolText(o.forceOcr)))
    case OcrEngine => Some(Plain(o.ocrEngine))
    case OcrLang => Some(JsonStrings(o.ocrLang))
    case PdfBackend => Some(Plain(o.pdfBackend))
    case TableMode => Some(Plain(o.tableMode))
    case AbortOnError => Some(Plain(BoolText(o.abortOnError)))
    case PageRange =>
      if o.pageRange.Some? then Some(JsonInts([o.pageRange.value.0, o.pageRange.value.1])) else None
  }

  /** `AllFields` lists every field. */
  lemma AllFieldsListed(f: Field)
    ensures f in AllFields
  {
    match f
    case ToFormats =>
    case TargetType =>
    case DocumentTimeout =>
    case IncludeImages =>
    case ImageExportMode =>
    case ImagesScale =>
    case MdPageBreakPlaceholder =>
    case Pipeline =>
    case DoOcr =>
    case ForceOcr =>
    case OcrEngine =>
    case OcrLang =>
    case PdfBackend =>
    case TableMode =>
    case AbortOnError =>
    case PageRange =>
  }

  /**
   * The `data` dictionary of the request: a field is in the form exactly when
   * it has a value, and the form holds that value.
   */
  function ServeForm(o: ServeOptions): (form: Form)
    ensures forall f: Field :: f in form <==> FieldValue(o, f).Some?
    ensures forall f | f in form :: form[f] == FieldValue(o, f).value
  {
    forall f: Field ensures f in AllFields {
      AllFieldsListed(f);
    }
    map f | f in AllFields && FieldValue(o, f).Some? :: FieldValue(o, f).value
  }

  /**
   * The switches: "target_type" is "zip" exactly when the result is to come
   * back as a file, and each boolean option is sent as "true" or "false".
   */
  lemma FormSwitches(o: ServeOptions)
    ensures var form := ServeForm(o);
      && TargetType in form && form[TargetType] == Plain(if o.returnAsFile then "zip" else "inbody")
      && DoOcr in form && form[DoOcr] == Plain(if o.doOcr then "true" else "false")
      && ForceOcr in form && form[ForceOcr] == Plain(if o.forceOcr then "true" else "false")
      && IncludeImages in form && form[IncludeImages] == Plain(if o.includeImages then "true" else "false")
      && AbortOnError in form && form[AbortOnError] == Plain(if o.abortOnError then "true" else "false")
  {
  }

  /** The numbers are sent as decimal text that reads back as the numbers given. */
  lemma FormNumbers(o: ServeOptions)
    ensures var form := ServeForm(o);
      && DocumentTimeout in form && form[DocumentTimeout].Plain?
      && ParseDecimal(form[DocumentTimeout].text) == o.documentTimeout
      && ImagesScale in form && form[ImagesScale].Plain?
      && ParseDecimal(form[ImagesScale].text) == o.imagesScale
  {
    DecimalRoundTrip(o.documentTimeout);
    DecimalRoundTrip(o.imagesScale);
  }

  /** "page_range" is sent exactly when a range is given, as a two-element array. */
  lemma FormPageRange(o: ServeOptions)
    ensures PageRange in ServeForm(o) <==> o.pageRange.Some?
    ensures o.pageRange.Some? ==> ServeForm(o)[PageRange] == JsonInts([o.pageRange.value.0, o.pageRange.value.1])
  {
  }

  /** Every field but "page_range" is always sent. */
  lemma FormFields(o: ServeOptions)
    ensures forall f: Field :: f in ServeForm(o) <==> f != PageRange || o.pageRange.Some?
  {
  }

  /** The remaining options pass through unchanged, lists as JSON arrays. */
  lemma FormOptions(o: ServeOptions)
    ensures var form := ServeForm(o);
      && ToFormats in form && form[ToFormats] == JsonStrings(o.toFormats)
      && OcrLang in form && form[OcrLang] == JsonStrings(o.ocrLang)
      && ImageExportMode in form && form[ImageExportMode] == Plain(o.imageExportMode)
      && MdPageBreakPlaceholder in form && form[MdPageBreakPlaceholder] == Plain(o.mdPageBreakPlaceholder)
      && Pipeline in form && form[Pipeline] == Plain(o.pipeline)
      && OcrEngine in form && form[OcrEngine] == Plain(o.ocrEngine)
      && PdfBackend in form && form[PdfBackend] == Plain(o.pdfBackend)
      && TableMode in form && form[TableMode] == Plain(o.tableMode)
  {
  }

  /** `s.rstrip('/')`. */
  function TrimTrailingSlashes(s: string): (r: string)
    ensures |r| <= |s| && r == s[..|r|]
    ensures forall i | |r| <= i < |s| :: s[i] == '/'
    ensures r == [] || r[|r| - 1] != '/'
  {
    if |s| > 0 && s[|s| - 1] == '/' then TrimTrailingSlashes(s[..|s| - 1]) else s
  }

  const ConvertPath: string := "/v1/convert/file"

  /**
   * The conversion endpoint under a base URL: the path comes after a prefix of
   * the base URL that does not end in a slash and leaves out only slashes.
   */
  function Endpoint(baseUrl: string): (url: string)
    ensures EndsWith(url, ConvertPath)
    ensures var base := url[..|url| - |ConvertPath|];
      && |base| <= |baseUrl| && base == baseUrl[..|base|]
      && (forall i | |base| <= i < |baseUrl| :: baseUrl[i] == '/')
      && (base == [] || base[|base| - 1] != '/')
  {
    var url := TrimTrailingSlashes(baseUrl) + ConvertPath;
    assert url[..|url| - |ConvertPath|] == TrimTrailingSlashes(baseUrl);
    url
  }

  /**
   * Trailing slashes of the base URL do not matter: the endpoint is the base
   * without them, directly followed by the path.
   */
  lemma {:induction false} EndpointIgnoresTrailingSlashes(baseUrl: string, k: nat)
    ensures Endpoint(baseUrl + Slashes(k)) == Endpoint(baseUrl)
    decreases k
  {
    if k > 0 {
      var shorter := baseUrl + Slashes(k - 1);
      assert baseUrl + Slashes(k) == shorter + "/";
      assert TrimTrailingSlashes(shorter + "/") == TrimTrailingSlashes(shorter) by {
        assert (shorter + "/")[..|shorter|] == shorter;
      }
      EndpointIgnoresTrailingSlashes(baseUrl, k - 1);
    } else {
      assert baseUrl + Slashes(k) == baseUrl;
    }
  }

  function Slashes(k: nat): (r: string)
    ensures |r| == k && forall i | 0 <= i < k :: r[i] == '/'
  {
    if k == 0 then "" else Slashes(k - 1) + "/"
  }

  /** A value is set in Python's sense: present and not the empty string. */
  predicate IsSet(v: Option<string>)
  {
    v.Some? && v.value != ""
  }

  /** The request `docling_serve_conversion` posts. */
  datatype Request = Request(url: string, authorization: string, form: Form, timeout: int)

  /**
   * Everything before the request is sent: an unset base URL is reported
   * first, then an unset API key; otherwise the request goes to the endpoint
   * under the base URL with a bearer token and the form of the options.
   */
  function BuildRequest(cfg: ServeConfig, o: ServeOptions): (r: Result<Request, ConfigError>)
    ensures !IsSet(cfg.baseUrl) ==> r == Failure(BaseUrlNotSet)
    ensures IsSet(cfg.baseUrl) && !IsSet(cfg.apiKey) ==> r == Failure(ApiKeyNotSet)
    ensures r.Success? <==> IsSet(cfg.baseUrl) && IsSet(cfg.apiKey)
    ensures r.Success? ==>
      && EndsWith(r.value.url, ConvertPath)
      && r.value.url[..|r.value.url| - |ConvertPath|] == TrimTrailingSlashes(cfg.baseUrl.value)
      && r.value.authorization == "Bearer " + cfg.apiKey.value
      && r.value.form == ServeForm(o)
      && r.value.timeout == o.requestTimeout
  {
    if !IsSet(cfg.baseUrl) then Failure(BaseUrlNotSet)
    else
      var url := Endpoint(cfg.baseUrl.value);
      if !IsSet(cfg.apiKey) then Failure(ApiKeyNotSet)
      else
        assert url[..|url| - |ConvertPath|] == TrimTrailingSlashes(cfg.baseUrl.value);
        Success(Request(url, "Bearer " + cfg.apiKey.value, ServeForm(o), o.requestTimeout))
  }

  /** A value of the reply's top-level object, as the source annotates it: a string or a string dictionary. */
  datatype BodyValue = Str(s: string) | Dict(entries: map<string, string>) | OtherValue

  /** The reply body: not JSON at all, JSON but not an object, or an object. */
  datatype Body = NotJson | NotObject | Object(fields: map<string, BodyValue>)

  /** The outcome of posting the request: an exception (opening the file, the network), or a response. */
  datatype Reply = Raised | Response(status: int, body: Body)

  /** HTTP 200 with a JSON object whose "status" is "success" and whose "document" is a dictionary. */
  predicate Succeeded(reply: Reply)
  {
    && reply.Response?
    && reply.status == 200
    && reply.body.Object?
    && "status" in reply.body.fields
    && reply.body.fields["status"] == Str("success")
    && "document" in reply.body.fields
    && reply.body.fields["document"].Dict?
  }

  /**
   * The Markdown the reply yields: the document's "md_content" (default "")
   * after a successful reply, and "" in every other case, exceptions included.
   */
  function ReplyMarkdown(reply: Reply): (md: string)
    ensures !Succeeded(reply) ==> md == ""
    ensures Succeeded(reply) ==>
      var doc := reply.body.fields["document"].entries;
      md == if "md_content" in doc then doc["md_content"] else ""
  {
    match reply
    case Raised => ""
    case Response(status, body) =>
      if status != 200 then ""
      else
        match body
        case NotJson => ""
        case NotObject => ""
        case Object(fields) =>
          if "status" in fields && fields["status"] == Str("success") && "document" in fields then
            match fields["document"]
            case Dict(doc) => if "md_content" in doc then doc["md_content"] else ""
            case _ => ""
          else ""
  }

  /**
   * A failed call and a successful one whose document has no "md_content" give
   * the same result: the caller cannot tell them apart.
   */
  lemma FailureLooksEmpty(fields: map<string, BodyValue>, failed: Reply)
    requires "status" in fields && fields["status"] == Str("success")
    requires "document" in fields && fields["document"].Dict? && "md_content" !in fields["document"].entries
    requires !Succeeded(failed)
    ensures Succeeded(Response(200, Object(fields)))
    ensures ReplyMarkdown(Response(200, Object(fields))) == ReplyMarkdown(failed) == ""
  {
  }

  /** `docling_serve_conversion`: configuration errors raise; otherwise the reply decides. */
  function DoclingServeConversion(cfg: ServeConfig, o: ServeOptions, reply: Reply): (r: Result<string, ConfigError>)
    ensures r.Failure? <==> !(IsSet(cfg.baseUrl) && IsSet(cfg.apiKey))
    ensures r.Success? ==> r.value == ReplyMarkdown(reply)
  {
    match BuildRequest(cfg, o)
    case Failure(e) => Failure(e)
    case Success(_) => Success(ReplyMarkdown(reply))
  }

  /** A configuration error is raised before any request: the reply plays no part in it. */
  lemma ConfigCheckedFirst(cfg: ServeConfig, o: ServeOptions, reply1: Reply, reply2: Reply)
    requires !(IsSet(cfg.baseUrl) && IsSet(cfg.apiKey))
    ensures DoclingServeConversion(cfg, o, reply1) == DoclingServeConversion(cfg, o, reply2)
    ensures DoclingServeConversion(cfg, o, reply1) == Failure(if IsSet(cfg.baseUrl) then ApiKeyNotSet else BaseUrlNotSet)
  {
  }

  /** The request `convert` sends asks for inline Markdown with OCR and no page range. */
  lemma ConvertRequest()
    ensures var form := ServeForm(ConvertOptions());
      && form[TargetType] == Plain("inbody")
      && form[ToFormats] == JsonStrings(["md"])
      && form[DoOcr] == Plain("true")
      && form[ForceOcr] == Plain("false")
      && PageRange !in form
  {
    FormSwitches(ConvertOptions());
    FormOptions(ConvertOptions());
    FormPageRange(ConvertOptions());
  }
}
