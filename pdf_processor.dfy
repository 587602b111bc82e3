/** Validation of an uploaded PDF and its conversion into one image per page.
    The PDF library (parsing, rendering at a resolution, re-encoding) is an
    oracle: `open` gives a page count or fails, `render` gives the encoded
    bytes of one page with its size and rendering time, or fails. */
module PdfProcessor {
  import opened Wrappers
  import opened PyValues
  import opened Config
  import opened Exceptions
  import opened Schemas

  datatype OpenResult = Opened(pageCount: nat) | OpenFailed(text: string)

  /** The arguments of the image encoder's `save`. */
  datatype EncodeOptions = EncodeOptions(format: string, optimize: bool, quality: Option<int>)

  datatype RenderResult =
    | Rendered(imageBytes: seq<byte>, width: int, height: int, seconds: real)
    | RenderFailed(text: string)

  /** `open(content)` parses a document; `render(content, index, dpi, options)`
      renders the page at the 0-based index and encodes it. */
  datatype PdfLibrary = PdfLibrary(
    open: seq<byte> -> OpenResult,
    render: (seq<byte>, nat, int, EncodeOptions) -> RenderResult)

  /** The processor's configuration, fixed when it is created. */
  datatype PDFProcessor = PDFProcessor(dpi: int, imageFormat: string)

  /** One extracted page: its 1-based number, the encoded image and its metadata. */
  datatype PageImage = PageImage(pageNumber: int, imageBytes: seq<byte>, metadata: ProcessingMetadata)

  /** `PDFProcessor()`: the configured format is stored upper-cased. */
  function NewPDFProcessor(settings: Settings): (p: PDFProcessor)
    ensures p.dpi == settings.imageDpi
    ensures |p.imageFormat| == |settings.imageFormat|
    ensures forall i :: 0 <= i < |p.imageFormat| ==> !('a' <= p.imageFormat[i] <= 'z')
    ensures SameIgnoringCase(p.imageFormat, settings.imageFormat)
  {
    UpperIgnoresCase(Upper(settings.imageFormat), settings.imageFormat);
    UpperIdempotent(settings.imageFormat);
    PDFProcessor(settings.imageDpi, Upper(settings.imageFormat))
  }

  /** Formats that differ only in case ("png", "PNG") configure the same processor. */
  lemma FormatCaseIrrelevant(s1: Settings, s2: Settings)
    requires s1.imageDpi == s2.imageDpi
    requires SameIgnoringCase(s1.imageFormat, s2.imageFormat)
    ensures NewPDFProcessor(s1) == NewPDFProcessor(s2)
  {
    UpperIgnoresCase(s1.imageFormat, s2.imageFormat);
  }

  /** The encoder options: the configured format, optimisation on, and
      quality 95 for JPEG only. */
  function EncoderOptions(p: PDFProcessor): (o: EncodeOptions)
    ensures o.format == p.imageFormat && o.optimize
    ensures o.quality.Some? <==> p.imageFormat == "JPEG"
    ensures o.quality.Some? ==> o.quality.value == 95
  {
    EncodeOptions(p.imageFormat, true, if p.imageFormat == "JPEG" then Some(95) else None)
  }

  const SizePrefix := "File size exceeds maximum allowed size of "
  const SizeSuffix := " bytes"

  /** The error an oversized upload raises: the base class, no details, and a
      message stating the configured limit in decimal. */
  function SizeError(settings: Settings): (e: ProcessingError)
    ensures e.cls == PDFProcessingError && e.details.None?
    ensures StartsWith(e.message, SizePrefix) && EndsWith(e.message, SizeSuffix)
    ensures |e.message| > |SizePrefix| + |SizeSuffix|
    ensures settings.maxFileSize >= 0 ==>
      var digits := e.message[|SizePrefix|..|e.message| - |SizeSuffix|];
      && (forall i :: 0 <= i < |digits| ==> IsDigit(digits[i]))
      && DecimalValue(digits) == settings.maxFileSize
  {
    var digits := IntToDecimal(settings.maxFileSize);
    var message := SizePrefix + digits + SizeSuffix;
    assert message[..|SizePrefix|] == SizePrefix;
    assert message[|message| - |SizeSuffix|..] == SizeSuffix;
    assert message[|SizePrefix|..|message| - |SizeSuffix|] == digits;
    if settings.maxFileSize >= 0 then
      DecimalRoundTrip(settings.maxFileSize);
      ProcessingError(PDFProcessingError, message)
    else
      ProcessingError(PDFProcessingError, message)
  }

  const InvalidPrefix := "Invalid PDF file: "
  const NoPages := "PDF file contains no pages"

  /** `validate_pdf`: size first, then the parse and the page count. The
      zero-page error is raised inside the `try` and wrapped again. */
  function ValidatePdf(settings: Settings, lib: PdfLibrary, content: seq<byte>): (r: Outcome<ProcessingError>)
    ensures r.Pass? <==> |content| <= settings.maxFileSize && lib.open(content).Opened? && lib.open(content).pageCount > 0
    ensures |content| > settings.maxFileSize ==> r == Fail(SizeError(settings))
    ensures |content| <= settings.maxFileSize && r.Fail? ==>
      && r.error.cls == InvalidFileError && r.error.details.None?
      && StartsWith(r.error.message, InvalidPrefix)
    ensures |content| <= settings.maxFileSize && lib.open(content) == Opened(0) ==>
      r == Fail(ProcessingError(InvalidFileError, InvalidPrefix + NoPages))
    ensures |content| <= settings.maxFileSize && lib.open(content).OpenFailed? ==>
      r == Fail(ProcessingError(InvalidFileError, InvalidPrefix + lib.open(content).text))
  {
    if |content| > settings.maxFileSize then
      Fail(SizeError(settings))
    else
      match lib.open(content)
      case OpenFailed(text) =>
        StartsWithConcat(InvalidPrefix, text);
        Fail(ProcessingError(InvalidFileError, InvalidPrefix + text))
      case Opened(count) =>
        if count == 0 then
          StartsWithConcat(InvalidPrefix, NoPages);
          Fail(ProcessingError(InvalidFileError, InvalidPrefix + NoPages))
        else Pass
  }

  /** An oversized payload is refused without consulting the parser: the
      result is the same whatever the library does. */
  lemma SizeCheckPrecedesParse(settings: Settings, lib1: PdfLibrary, lib2: PdfLibrary, content: seq<byte>)
    requires |content| > settings.maxFileSize
    ensures ValidatePdf(settings, lib1, content) == ValidatePdf(settings, lib2, content)
    ensures ValidatePdf(settings, lib1, content).error.cls == PDFProcessingError
  {
  }

  /** The call the extraction loop makes for the page at `index`. */
  function RenderPage(p: PDFProcessor, lib: PdfLibrary, content: seq<byte>, index: nat): RenderResult
  {
    lib.render(content, index, p.dpi, EncoderOptions(p))
  }

  /** The tuple appended for a rendered page. */
  function PageOf(r: RenderResult, pageNumber: int): (page: PageImage)
    requires r.Rendered?
    ensures page.pageNumber == pageNumber && page.imageBytes == r.imageBytes
    ensures page.metadata.fileSize == Some(|page.imageBytes|)
    ensures page.metadata.confidenceScore.None? && page.metadata.additionalData.None?
    ensures page.metadata.imageDimensions == Some((r.width, r.height))
    ensures page.metadata.processingTime == Some(r.seconds)
  {
    PageImage(pageNumber, r.imageBytes,
      ProcessingMetadata(processingTime := Some(r.seconds),
                         imageDimensions := Some((r.width, r.height)),
                         fileSize := Some(|r.imageBytes|)))
  }

  /** The first `n` pages rendered in document order, or the text of the
      first page that failed. */
  function RenderPages(p: PDFProcessor, lib: PdfLibrary, content: seq<byte>, n: nat): Result<seq<PageImage>, string>
    decreases n
  {
    if n == 0 then Success([])
    else match RenderPages(p, lib, content, n - 1)
      case Failure(text) => Failure(text)
      case Success(pages) =>
        match RenderPage(p, lib, content, n - 1)
        case RenderFailed(text) => Failure(text)
        case r => Success(pages + [PageOf(r, n)])
  }

  /** Rendering the first `n` pages succeeds exactly when every one of them
      renders, and then yields one tuple per page, numbered 1..n in order. */
  lemma {:induction false} RenderPagesSuccess(p: PDFProcessor, lib: PdfLibrary, content: seq<byte>, n: nat)
    ensures RenderPages(p, lib, content, n).Success? <==>
      forall k :: 0 <= k < n ==> RenderPage(p, lib, content, k).Rendered?
    ensures RenderPages(p, lib, content, n).Success? ==>
      var pages := RenderPages(p, lib, content, n).value;
      && |pages| == n
      && forall k :: 0 <= k < n ==> pages[k] == PageOf(RenderPage(p, lib, content, k), k + 1)
    decreases n
  {
    if n > 0 {
      RenderPagesSuccess(p, lib, content, n - 1);
    }
  }

  /** A failure is the text of the first page that did not render. */
  lemma {:induction false} RenderPagesFailure(p: PDFProcessor, lib: PdfLibrary, content: seq<byte>, n: nat)
    requires RenderPages(p, lib, content, n).Failure?
    ensures exists k :: (0 <= k < n
      && (forall j :: 0 <= j < k ==> RenderPage(p, lib, content, j).Rendered?)
      && RenderPage(p, lib, content, k) == RenderFailed(RenderPages(p, lib, content, n).error))
    decreases n
  {
    RenderPagesSuccess(p, lib, content, n - 1);
    if RenderPages(p, lib, content, n - 1).Failure? {
      RenderPagesFailure(p, lib, content, n - 1);
    } else {
      assert RenderPage(p, lib, content, n - 1) == RenderFailed(RenderPages(p, lib, content, n).error);
    }
  }

  /** Once a page has failed, rendering further pages keeps that failure. */
  lemma {:induction false} RenderFailureSticks(p: PDFProcessor, lib: PdfLibrary, content: seq<byte>, m: nat, n: nat)
    requires m <= n
    requires RenderPages(p, lib, content, m).Failure?
    ensures RenderPages(p, lib, content, n) == RenderPages(p, lib, content, m)
    decreases n
  {
    if m < n {
      RenderFailureSticks(p, lib, content, m, n - 1);
    }
  }

  function ExtractError(text: string): ProcessingError
  {
    ProcessingError(PDFProcessingError, "Failed to extract pages from PDF: " + text)
  }

  /** What `extract_pages_as_images` returns or raises: every failure, of the
      parse or of any page, is re-raised with one prefix, and no partial list
      escapes. */
  function ExtractSpec(p: PDFProcessor, lib: PdfLibrary, content: seq<byte>): Result<seq<PageImage>, ProcessingError>
  {
    match lib.open(content)
    case OpenFailed(text) => Failure(ExtractError(text))
    case Opened(count) =>
      match RenderPages(p, lib, content, count)
      case Failure(text) => Failure(ExtractError(text))
      case Success(pages) => Success(pages)
  }

  /** Extraction returns exactly `page_count` tuples numbered 1..P in document
      order, each with its encoded size recorded, or fails as a whole. */
  lemma ExtractionShape(p: PDFProcessor, lib: PdfLibrary, content: seq<byte>)
    ensures ExtractSpec(p, lib, content).Success? <==>
      lib.open(content).Opened? &&
      forall k :: 0 <= k < lib.open(content).pageCount ==> RenderPage(p, lib, content, k).Rendered?
    ensures ExtractSpec(p, lib, content).Success? ==>
      var pages := ExtractSpec(p, lib, content).value;
      && |pages| == lib.open(content).pageCount
      && (forall k :: 0 <= k < |pages| ==> pages[k].pageNumber == k + 1)
      && (forall k :: 0 <= k < |pages| ==> pages[k] == PageOf(RenderPage(p, lib, content, k), k + 1))
      && (forall k :: 0 <= k < |pages| ==>
            && pages[k].imageBytes == RenderPage(p, lib, content, k).imageBytes
            && pages[k].metadata.fileSize == Some(|pages[k].imageBytes|)
            && pages[k].metadata.confidenceScore.None?
            && pages[k].metadata.additionalData.None?)
    ensures ExtractSpec(p, lib, content).Failure? ==>
      var e := ExtractSpec(p, lib, content).error;
      e.cls == PDFProcessingError && StartsWith(e.message, "Failed to extract pages from PDF: ")
  {
    if lib.open(content).Opened? {
      RenderPagesSuccess(p, lib, content, lib.open(content).pageCount);
    }
  }

  /** A failed extraction names its cause: the parser's text, or the text
      of the first page that did not render, after one fixed prefix. */
  lemma ExtractionFailureCause(p: PDFProcessor, lib: PdfLibrary, content: seq<byte>)
    requires ExtractSpec(p, lib, content).Failure?
    ensures var message := ExtractSpec(p, lib, content).error.message;
      || (lib.open(content).OpenFailed? && message == "Failed to extract pages from PDF: " + lib.open(content).text)
      || (lib.open(content).Opened? && exists k :: (0 <= k < lib.open(content).pageCount
            && (forall j :: 0 <= j < k ==> RenderPage(p, lib, content, j).Rendered?)
            && RenderPage(p, lib, content, k).RenderFailed?
            && message == "Failed to extract pages from PDF: " + RenderPage(p, lib, content, k).text))
  {
    if lib.open(content).Opened? {
      RenderPagesFailure(p, lib, content, lib.open(content).pageCount);
    }
  }

  /** Page numbers of a successful extraction are contiguous and strictly increasing. */
  lemma ExtractedNumbersIncrease(p: PDFProcessor, lib: PdfLibrary, content: seq<byte>, i: nat, j: nat)
    requires ExtractSpec(p, lib, content).Success?
    requires i < j < |ExtractSpec(p, lib, content).value|
    ensures ExtractSpec(p, lib, content).value[i].pageNumber < ExtractSpec(p, lib, content).value[j].pageNumber
    ensures ExtractSpec(p, lib, content).value[i + 1].pageNumber == ExtractSpec(p, lib, content).value[i].pageNumber + 1
  {
    ExtractionShape(p, lib, content);
  }

  /** `extract_pages_as_images`: opens the document and renders its pages one
      at a time; the first failure abandons the list built so far. */
  method ExtractPagesAsImages(p: PDFProcessor, lib: PdfLibrary, content: seq<byte>)
    returns (r: Result<seq<PageImage>, ProcessingError>)
    ensures r == ExtractSpec(p, lib, content)
  {
    var doc := lib.open(content);
    if doc.OpenFailed? {
      return Failure(ExtractError(doc.text));
    }
    var pagesData: seq<PageImage> := [];
    for pageNum := 0 to doc.pageCount
      invariant RenderPages(p, lib, content, pageNum) == Success(pagesData)
    {
      var rendered := RenderPage(p, lib, content, pageNum);
      if rendered.RenderFailed? {
        RenderFailureSticks(p, lib, content, pageNum + 1, doc.pageCount);
        return Failure(ExtractError(rendered.text));
      }
      pagesData := pagesData + [PageOf(rendered, pageNum + 1)];
    }
    r := Success(pagesData);
  }

  /** `process_pdf_stream` once the upload has been read: validation, then
      extraction; errors propagate unchanged. */
  function StreamSpec(p: PDFProcessor, settings: Settings, lib: PdfLibrary, content: seq<byte>): Result<seq<PageImage>, ProcessingError>
  {
    match ValidatePdf(settings, lib, content)
    case Fail(e) => Failure(e)
    case Pass => ExtractSpec(p, lib, content)
  }

  method ProcessPdfStream(p: PDFProcessor, settings: Settings, lib: PdfLibrary, content: seq<byte>)
    returns (r: Result<seq<PageImage>, ProcessingError>)
    ensures r == StreamSpec(p, settings, lib, content)
  {
    var validation := ValidatePdf(settings, lib, content);
    if validation.Fail? {
      return Failure(validation.error);
    }
    r := ExtractPagesAsImages(p, lib, content);
  }

  /** Validation only parses: when it fails, no page is rendered, so the
      result does not depend on the renderer. */
  lemma ValidationFailureSkipsRendering(p: PDFProcessor, settings: Settings, lib: PdfLibrary,
                                        otherRender: (seq<byte>, nat, int, EncodeOptions) -> RenderResult,
                                        content: seq<byte>)
    requires ValidatePdf(settings, lib, content).Fail?
    ensures StreamSpec(p, settings, PdfLibrary(lib.open, otherRender), content)
         == StreamSpec(p, settings, lib, content)
  {
  }

  /** A document that passes validation and extraction yields at least one
      page, numbered 1..P with P its page count; a validation failure
      surfaces unchanged and no page is rendered past it. */
  lemma StreamShape(p: PDFProcessor, settings: Settings, lib: PdfLibrary, content: seq<byte>)
    ensures ValidatePdf(settings, lib, content).Fail? ==>
      StreamSpec(p, settings, lib, content) == Failure(ValidatePdf(settings, lib, content).error)
    ensures StreamSpec(p, settings, lib, content).Success? ==>
      var pages := StreamSpec(p, settings, lib, content).value;
      && |pages| == lib.open(content).pageCount
      && |pages| >= 1
      && forall k :: 0 <= k < |pages| ==> pages[k].pageNumber == k + 1
  {
    ExtractionShape(p, lib, content);
  }
}
