/** The `/process-pdf` endpoint: the file-name check, extraction, dispatch,
    the aggregation of per-page outcomes into one report, and the mapping of
    exceptions to HTTP errors. The upload's bytes and the elapsed wall time
    are inputs. */
module Endpoints {
  import opened Wrappers
  import opened PyValues
  import opened Config
  import opened Exceptions
  import opened Schemas
  import opened PdfProcessor
  import opened OpenAIClient

  const InternalErrorDetail := "Internal server error occurred during processing"

  /** The 500 the generic handler raises for any exception outside the
      hierarchy. Its detail is a plain string, so it is never the answer
      `create_http_exception` builds, whatever error and status that is given. */
  function InternalError(): (r: HttpException)
    ensures r.statusCode == 500 && r.detail == JStr(InternalErrorDetail)
    ensures forall e: ProcessingError, status: int :: CreateHttpException(e, status) != r
  {
    HttpException(500, JStr(InternalErrorDetail))
  }

  /** `filename.lower().endswith(".pdf")`. */
  predicate IsPdfName(filename: string)
  {
    EndsWith(Lower(filename), ".pdf")
  }

  /** The check ignores letter case: it holds exactly when the last four
      characters spell ".pdf" in any mix of cases. */
  lemma PdfNameIgnoresCase(filename: string)
    ensures IsPdfName(filename) <==>
      |filename| >= 4 && SameIgnoringCase(filename[|filename| - 4..], ".pdf")
  {
    var lower := Lower(filename);
    if |filename| >= 4 {
      var tail := filename[|filename| - 4..];
      assert Lower(tail) == lower[|filename| - 4..];
      assert Lower(".pdf") == ".pdf";
    }
  }

  /** `if error:` — an absent error and an empty string are both falsy. */
  predicate Failed(e: BatchEntry)
  {
    e.error.Some? && e.error.value != ""
  }

  /** `f"Page {page_num}: {error}"`. */
  function ErrorLine(e: BatchEntry): string
    requires e.error.Some?
  {
    "Page " + IntToDecimal(e.pageNumber) + ": " + e.error.value
  }

  /** The error lines the loop collects, in iteration order. */
  function ErrorLines(api: seq<BatchEntry>): seq<string>
    decreases |api|
  {
    if api == [] then []
    else ErrorLines(api[..|api| - 1]) + (if Failed(api[|api| - 1]) then [ErrorLine(api[|api| - 1])] else [])
  }

  /** The value of `processed_count` after the loop. */
  function ProcessedCount(api: seq<BatchEntry>): nat
    decreases |api|
  {
    if api == [] then 0
    else ProcessedCount(api[..|api| - 1]) + (if Failed(api[|api| - 1]) then 0 else 1)
  }

  /** Every tuple is either counted as processed or contributes one error line. */
  lemma {:induction false} CountsAddUp(api: seq<BatchEntry>)
    ensures ProcessedCount(api) + |ErrorLines(api)| == |api|
    decreases |api|
  {
    if api != [] {
      CountsAddUp(api[..|api| - 1]);
    }
  }

  /** No error line is collected exactly when no tuple carries a truthy error. */
  lemma {:induction false} NoErrorLinesIff(api: seq<BatchEntry>)
    ensures ErrorLines(api) == [] <==> forall i :: 0 <= i < |api| ==> !Failed(api[i])
    decreases |api|
  {
    if api != [] {
      var init := api[..|api| - 1];
      NoErrorLinesIff(init);
      assert forall i :: 0 <= i < |init| ==> init[i] == api[i];
    }
  }

  /** All counted: the processed counter equals the number of tuples exactly
      when none failed. */
  lemma {:induction false} AllProcessedIff(api: seq<BatchEntry>)
    ensures ProcessedCount(api) == |api| <==> forall i :: 0 <= i < |api| ==> !Failed(api[i])
  {
    CountsAddUp(api);
    NoErrorLinesIff(api);
  }

  /** Every page number can be validated into a `PageResult`. */
  predicate AllNumbered(api: seq<BatchEntry>)
  {
    forall i :: 0 <= i < |api| ==> api[i].pageNumber >= 1
  }

  /** The `PageResult` the loop appends for one tuple. */
  function ResultFor(e: BatchEntry): (r: PageResult)
    requires e.pageNumber >= 1
    ensures r.pageNumber == e.pageNumber && r.metadata == Some(e.metadata)
    ensures Failed(e) ==> r.processedOutput == map[] && r.error == e.error
    ensures !Failed(e) ==> r.processedOutput == e.response && r.error.None?
  {
    if Failed(e) then PageResult(e.pageNumber, map[], Some(e.metadata), e.error)
    else PageResult(e.pageNumber, e.response, Some(e.metadata))
  }

  /** The results list: one `PageResult` per tuple, in order. */
  function PageResults(api: seq<BatchEntry>): (results: seq<PageResult>)
    requires AllNumbered(api)
    ensures |results| == |api|
    ensures forall i :: 0 <= i < |api| ==> results[i] == ResultFor(api[i])
  {
    seq(|api|, i requires 0 <= i < |api| => ResultFor(api[i]))
  }

  /** The response built from the batch, or the 500 the generic handler gives
      when a page number fails validation. */
  function Report(api: seq<BatchEntry>, totalPages: int, processingTime: real): Result<PDFProcessResponse, HttpException>
  {
    if AllNumbered(api) then
      var errors := ErrorLines(api);
      Success(PDFProcessResponse(
        success := |errors| == 0,
        totalPages := totalPages,
        processedPages := ProcessedCount(api),
        results := PageResults(api),
        processingTime := processingTime,
        errors := if errors != [] then Some(errors) else None))
    else
      Failure(InternalError())
  }

  /** `errors`, reading None as the empty list. */
  function ErrorList(resp: PDFProcessResponse): seq<string>
  {
    if resp.errors.Some? then resp.errors.value else []
  }

  /** The report keeps one result per tuple in the same order, counts every
      tuple once, and is successful exactly when no tuple failed, in which
      case `errors` is None. */
  lemma ReportShape(api: seq<BatchEntry>, totalPages: int, processingTime: real)
    ensures Report(api, totalPages, processingTime).Success? <==> AllNumbered(api)
    ensures Report(api, totalPages, processingTime).Failure? ==>
      Report(api, totalPages, processingTime).error == InternalError()
    ensures AllNumbered(api) ==>
      var resp := Report(api, totalPages, processingTime).value;
      && resp.totalPages == totalPages
      && |resp.results| == |api|
      && (forall i :: 0 <= i < |api| ==> resp.results[i] == ResultFor(api[i]))
      && resp.processedPages + |ErrorList(resp)| == |api|
      && ErrorList(resp) == ErrorLines(api)
      && (resp.success <==> resp.errors.None?)
      && (resp.success <==> forall i :: 0 <= i < |api| ==> !Failed(api[i]))
      && (resp.errors.Some? ==> resp.errors.value != [])
  {
    CountsAddUp(api);
    NoErrorLinesIff(api);
  }

  /** What the endpoint answers: a report, or the HTTP error it raises. */
  function EndpointSpec(settings: Settings, filename: string, content: seq<byte>, lib: PdfLibrary,
                        b64: Encoder, service: Service, processingTime: real): Result<PDFProcessResponse, HttpException>
  {
    if !IsPdfName(filename) then
      // HTTPException(400) raised inside the try; the generic handler answers 500
      Failure(InternalError())
    else
      match StreamSpec(NewPDFProcessor(settings), settings, lib, content)
      case Failure(e) => Failure(CreateHttpException(e))
      case Success(pages) =>
        if pages == [] then
          Failure(InternalError())
        else
          Report(Batch(NewOpenAIClient(settings), b64, service, pages), |pages|, processingTime)
  }

  /** The aggregation loop of `process_pdf` and the response built after it. */
  method BuildResponse(apiResults: seq<BatchEntry>, totalPages: int, processingTime: real)
    returns (r: Result<PDFProcessResponse, HttpException>)
    ensures r == Report(apiResults, totalPages, processingTime)
  {
    var results: seq<PageResult> := [];
    var errors: seq<string> := [];
    var processedCount := 0;
    for i := 0 to |apiResults|
      invariant AllNumbered(apiResults[..i])
      invariant |results| == i
      invariant forall k :: 0 <= k < i ==> results[k] == ResultFor(apiResults[k])
      invariant errors == ErrorLines(apiResults[..i])
      invariant processedCount == ProcessedCount(apiResults[..i])
    {
      var entry := apiResults[i];
      assert apiResults[..i + 1][..i] == apiResults[..i];
      if entry.error.Some? && entry.error.value != "" {
        errors := errors + [ErrorLine(entry)];
        var result := NewPageResult(entry.pageNumber, map[], Some(entry.metadata), entry.error);
        if result.None? {
          // pydantic's ValidationError reaches the generic handler
          return Failure(InternalError());
        }
        results := results + [result.value];
      } else {
        processedCount := processedCount + 1;
        var result := NewPageResult(entry.pageNumber, entry.response, Some(entry.metadata));
        if result.None? {
          return Failure(InternalError());
        }
        results := results + [result.value];
      }
    }
    assert apiResults[..|apiResults|] == apiResults;
    assert results == PageResults(apiResults);
    r := Success(PDFProcessResponse(
      success := |errors| == 0,
      totalPages := totalPages,
      processedPages := processedCount,
      results := results,
      processingTime := processingTime,
      errors := if errors != [] then Some(errors) else None));
  }

  /** `process_pdf`. */
  method ProcessPdf(settings: Settings, filename: string, content: seq<byte>, lib: PdfLibrary,
                    b64: Encoder, service: Service, processingTime: real)
    returns (r: Result<PDFProcessResponse, HttpException>)
    ensures r == EndpointSpec(settings, filename, content, lib, b64, service, processingTime)
  {
    if !IsPdfName(filename) {
      return Failure(InternalError());
    }
    var pdfProcessor := NewPDFProcessor(settings);
    var stream := ProcessPdfStream(pdfProcessor, settings, lib, content);
    if stream.Failure? {
      return Failure(CreateHttpException(stream.error));
    }
    var pagesData := stream.value;
    if pagesData == [] {
      return Failure(InternalError());
    }
    var openaiClient := NewOpenAIClient(settings);
    var apiResults := ProcessBatch(openaiClient, b64, service, pagesData);
    r := BuildResponse(apiResults, |pagesData|, processingTime);
  }

  /** The report of a batch over pages numbered 1..P: P results numbered
      1..P, each without error exactly when its call succeeded, counts that
      add up to P, and success exactly when every call succeeded. */
  lemma BatchReport(client: Client, b64: Encoder, service: Service, pages: seq<PageImage>, processingTime: real)
    requires forall k :: 0 <= k < |pages| ==> pages[k].pageNumber == k + 1
    ensures Report(Batch(client, b64, service, pages), |pages|, processingTime).Success?
    ensures
      var resp := Report(Batch(client, b64, service, pages), |pages|, processingTime).value;
      && resp.totalPages == |pages|
      && |resp.results| == |pages|
      && (forall k :: 0 <= k < |pages| ==> resp.results[k].pageNumber == k + 1)
      && (forall k :: 0 <= k < |pages| ==>
            (resp.results[k].error.None? <==>
             ProcessImage(client, b64, service, k, pages[k].imageBytes, pages[k].metadata).Success?))
      && resp.processedPages + |ErrorList(resp)| == |pages|
      && (resp.success <==> forall k :: 0 <= k < |pages| ==> resp.results[k].error.None?)
  {
    var api := Batch(client, b64, service, pages);
    assert AllNumbered(api);
    ReportShape(api, |pages|, processingTime);
  }

  /** For a PDF-named upload that validates and extracts, the endpoint always
      answers with a report: one result per page numbered 1..P, a page is
      processed exactly when its call succeeded, the counts add up to P and
      the report is successful exactly when every call succeeded. */
  lemma WellFormedReport(settings: Settings, filename: string, content: seq<byte>, lib: PdfLibrary,
                         b64: Encoder, service: Service, processingTime: real)
    requires IsPdfName(filename)
    requires StreamSpec(NewPDFProcessor(settings), settings, lib, content).Success?
    ensures EndpointSpec(settings, filename, content, lib, b64, service, processingTime).Success?
    ensures
      var resp := EndpointSpec(settings, filename, content, lib, b64, service, processingTime).value;
      var pages := StreamSpec(NewPDFProcessor(settings), settings, lib, content).value;
      var n := lib.open(content).pageCount;
      && resp.totalPages == n
      && |resp.results| == n
      && (forall k :: 0 <= k < n ==> resp.results[k].pageNumber == k + 1)
      && (forall k :: 0 <= k < n ==>
            (resp.results[k].error.None? <==>
             ProcessImage(NewOpenAIClient(settings), b64, service, k, pages[k].imageBytes, pages[k].metadata).Success?))
      && resp.processedPages + |ErrorList(resp)| == n
      && (resp.success <==> forall k :: 0 <= k < n ==> resp.results[k].error.None?)
  {
    var proc := NewPDFProcessor(settings);
    var pages := StreamSpec(proc, settings, lib, content).value;
    StreamShape(proc, settings, lib, content);
    BatchReport(NewOpenAIClient(settings), b64, service, pages, processingTime);
  }

  /** A name without the ".pdf" suffix is refused before the document, the
      library or the service is consulted, and the refusal surfaces as a 500. */
  lemma NonPdfNameRefusedFirst(settings: Settings, filename: string, content1: seq<byte>, content2: seq<byte>,
                               lib1: PdfLibrary, lib2: PdfLibrary,
                               b64a: Encoder, b64b: Encoder, service1: Service, service2: Service, processingTime: real)
    requires !IsPdfName(filename)
    ensures EndpointSpec(settings, filename, content1, lib1, b64a, service1, processingTime) == Failure(InternalError())
    ensures EndpointSpec(settings, filename, content1, lib1, b64a, service1, processingTime)
         == EndpointSpec(settings, filename, content2, lib2, b64b, service2, processingTime)
  {
  }

  /** An oversized upload is answered with a 400 whose detail carries the
      size message, whatever the parser would have said. */
  lemma OversizedUploadIs400(settings: Settings, filename: string, content: seq<byte>, lib: PdfLibrary,
                             b64: Encoder, service: Service, processingTime: real)
    requires IsPdfName(filename)
    requires |content| > settings.maxFileSize
    ensures EndpointSpec(settings, filename, content, lib, b64, service, processingTime)
         == Failure(CreateHttpException(SizeError(settings)))
    ensures EndpointSpec(settings, filename, content, lib, b64, service, processingTime).error.statusCode == 400
  {
  }

  /** The status mapping: a 400 exactly for an error of the hierarchy raised
      by validation or extraction, and otherwise the fixed 500. */
  lemma ErrorStatusMapping(settings: Settings, filename: string, content: seq<byte>, lib: PdfLibrary,
                           b64: Encoder, service: Service, processingTime: real)
    ensures
      var r := EndpointSpec(settings, filename, content, lib, b64, service, processingTime);
      var stream := StreamSpec(NewPDFProcessor(settings), settings, lib, content);
      && (r.Failure? <==> !IsPdfName(filename) || stream.Failure?)
      && (IsPdfName(filename) && stream.Failure? ==> r == Failure(CreateHttpException(stream.error)))
      && (r.Failure? && r.error.statusCode != 400 ==> r.error == InternalError())
      && (r.Failure? ==> (r.error.statusCode == 400 <==> IsPdfName(filename) && stream.Failure?))
  {
    var proc := NewPDFProcessor(settings);
    var stream := StreamSpec(proc, settings, lib, content);
    if IsPdfName(filename) && stream.Success? {
      StreamShape(proc, settings, lib, content);
      ReportShape(Batch(NewOpenAIClient(settings), b64, service, stream.value), |stream.value|, processingTime);
    }
  }

  // A three-page document whose second call times out. The error line
  // "Page " + "2" + ": " + (TimeoutPrefix + "30" + " seconds") below is the
  // literal "Page 2: API request timed out after 30 seconds", written in
  // pieces so that the solver need not compare long literals.

  const ScenarioSettings := Settings("https://api.example/v1/chat/completions", "key", "vision-model")
  const ScenarioLibrary := PdfLibrary(c => Opened(3), (c, k, dpi, o) => Rendered([137, 80, 78, 71], 2550, 3300, 0.25))
  const ScenarioBody := JDict(map["usage" := JDict(map["total_tokens" := JInt(42)])])

  const ScenarioEncoder: Encoder := image => "iVBORw0KGgo="

  /** The service of the scenario: the second call times out, the others are
      answered 200 with a usage block, whatever the request. */
  function ScenarioService(i: nat, request: Json): HttpReply
  {
    if i == 1 then TimedOut else Reply(200, ScenarioBody, 1.5)
  }

  /** A timed-out call for page 2 under the default 30-second timeout. */
  lemma TimedOutEntry(client: Client, page: PageImage)
    requires client.timeout == 30 && page.pageNumber == 2
    ensures Failed(EntryFor(client, page, TimedOut))
    ensures ErrorLine(EntryFor(client, page, TimedOut)) == "Page " + "2" + ": " + (TimeoutPrefix + "30" + " seconds")
  {
    assert IntToDecimal(30) == "30" by {
      assert NatToDecimal(3) == "3";
      assert NatToDecimal(0) == "0";
    }
    assert IntToDecimal(2) == "2";
    var e := EntryFor(client, page, TimedOut);
    assert e.error == Some(TimeoutPrefix + "30" + " seconds");
  }

  /** The scenario's document validates and yields three numbered pages. */
  lemma ScenarioExtraction()
    ensures
      var pages := StreamSpec(NewPDFProcessor(ScenarioSettings), ScenarioSettings, ScenarioLibrary, [37, 80, 68, 70]);
      && pages.Success? && |pages.value| == 3
      && forall k :: 0 <= k < 3 ==> pages.value[k].pageNumber == k + 1 && pages.value[k].metadata.processingTime.Some?
  {
    var proc := NewPDFProcessor(ScenarioSettings);
    ExtractionShape(proc, ScenarioLibrary, [37, 80, 68, 70]);
  }

  /** A call answered 200 with a usage block succeeds. */
  lemma AnsweredEntry(client: Client, page: PageImage)
    requires page.metadata.processingTime.Some?
    ensures !Failed(EntryFor(client, page, Reply(200, ScenarioBody, 1.5)))
  {
    assert TotalTokens(ScenarioBody) == Success(JInt(42));
  }

  /** The scenario's calls: the first and third succeed, the second times out. */
  lemma ScenarioEntries(pages: seq<PageImage>)
    requires |pages| == 3
    requires forall k :: 0 <= k < 3 ==> pages[k].pageNumber == k + 1 && pages[k].metadata.processingTime.Some?
    ensures
      var api := Batch(NewOpenAIClient(ScenarioSettings), ScenarioEncoder, ScenarioService, pages);
      && !Failed(api[0]) && Failed(api[1]) && !Failed(api[2])
      && ErrorLine(api[1]) == "Page " + "2" + ": " + (TimeoutPrefix + "30" + " seconds")
  {
    var client := NewOpenAIClient(ScenarioSettings);
    var api := Batch(client, ScenarioEncoder, ScenarioService, pages);
    assert api[0] == EntryFor(client, pages[0], Reply(200, ScenarioBody, 1.5));
    assert api[1] == EntryFor(client, pages[1], TimedOut);
    assert api[2] == EntryFor(client, pages[2], Reply(200, ScenarioBody, 1.5));
    AnsweredEntry(client, pages[0]);
    AnsweredEntry(client, pages[2]);
    TimedOutEntry(client, pages[1]);
  }

  lemma ErrorLinesOfThree(api: seq<BatchEntry>)
    requires |api| == 3 && !Failed(api[0]) && Failed(api[1]) && !Failed(api[2])
    ensures ErrorLines(api) == [ErrorLine(api[1])]
  {
    assert api[..2][..1] == api[..1];
    assert ErrorLines(api[..1]) == [];
    assert ErrorLines(api[..2]) == [ErrorLine(api[1])];
  }

  /** The scenario reaches the report of its three-page batch. */
  lemma ScenarioReport()
    ensures
      var pages := StreamSpec(NewPDFProcessor(ScenarioSettings), ScenarioSettings, ScenarioLibrary, [37, 80, 68, 70]);
      && pages.Success? && |pages.value| == 3
      && EndpointSpec(ScenarioSettings, "scan.PDF", [37, 80, 68, 70], ScenarioLibrary, ScenarioEncoder, ScenarioService, 4.0)
         == Report(Batch(NewOpenAIClient(ScenarioSettings), ScenarioEncoder, ScenarioService, pages.value), 3, 4.0)
  {
    assert IsPdfName("scan.PDF") by {
      assert Lower("scan.PDF") == "scan.pdf";
    }
    ScenarioExtraction();
  }

  /** Pages 1 and 3 are processed, the report is unsuccessful and names page 2 only. */
  lemma SecondPageTimesOut()
    ensures
      var r := EndpointSpec(ScenarioSettings, "scan.PDF", [37, 80, 68, 70], ScenarioLibrary, ScenarioEncoder, ScenarioService, 4.0);
      && r.Success?
      && r.value.totalPages == 3
      && r.value.processedPages == 2
      && !r.value.success
      && r.value.errors == Some(["Page " + "2" + ": " + (TimeoutPrefix + "30" + " seconds")])
      && r.value.results[0].error.None? && r.value.results[2].error.None?
  {
    ScenarioExtraction();
    ScenarioReport();
    var pages := StreamSpec(NewPDFProcessor(ScenarioSettings), ScenarioSettings, ScenarioLibrary, [37, 80, 68, 70]).value;
    var api := Batch(NewOpenAIClient(ScenarioSettings), ScenarioEncoder, ScenarioService, pages);
    ScenarioEntries(pages);
    ErrorLinesOfThree(api);
    ReportShape(api, 3, 4.0);
  }

  // The endpoint's own 400 answers are raised inside the `try` and reach the
  // generic handler, which answers 500 instead.

  /** As written: a file named "notes.txt" is answered with the generic 500,
      not with the 400 "Only PDF files are allowed" the code raises first. */
  lemma NonPdfNameAnswered500(settings: Settings, content: seq<byte>, lib: PdfLibrary,
                              b64: Encoder, service: Service, processingTime: real)
    ensures EndpointSpec(settings, "notes.txt", content, lib, b64, service, processingTime) == Failure(InternalError())
    ensures EndpointSpec(settings, "notes.txt", content, lib, b64, service, processingTime).error.statusCode == 500
  {
    var lower := Lower("notes.txt");
    assert "notes.txt"[6] == 't';
    assert lower[6] == LowerChar('t') == 't';
    assert lower[5..][1] != ".pdf"[1];
    assert !IsPdfName("notes.txt");
  }

  const OnlyPdfAllowed := "Only PDF files are allowed"
  const NoPagesFound := "No pages found in PDF file"

  /** The endpoint as evidently intended: the two 400s it raises itself reach
      the caller as 400s; everything else is answered as before. */
  function IntendedEndpoint(settings: Settings, filename: string, content: seq<byte>, lib: PdfLibrary,
                            b64: Encoder, service: Service, processingTime: real): Result<PDFProcessResponse, HttpException>
  {
    if !IsPdfName(filename) then
      Failure(HttpException(400, JStr(OnlyPdfAllowed)))
    else
      match StreamSpec(NewPDFProcessor(settings), settings, lib, content)
      case Failure(e) => Failure(CreateHttpException(e))
      case Success(pages) =>
        if pages == [] then Failure(HttpException(400, JStr(NoPagesFound)))
        else Report(Batch(NewOpenAIClient(settings), b64, service, pages), |pages|, processingTime)
  }

  /** The intended endpoint refuses a badly named upload with a 400 before
      consulting the document, and otherwise agrees with the endpoint as written. */
  lemma IntendedEndpointAnswers400(settings: Settings, filename: string, content: seq<byte>, lib: PdfLibrary,
                                   b64: Encoder, service: Service, processingTime: real)
    ensures !IsPdfName(filename) ==>
      IntendedEndpoint(settings, filename, content, lib, b64, service, processingTime)
        == Failure(HttpException(400, JStr(OnlyPdfAllowed)))
    ensures IsPdfName(filename) ==>
      IntendedEndpoint(settings, filename, content, lib, b64, service, processingTime)
        == EndpointSpec(settings, filename, content, lib, b64, service, processingTime)
    ensures var r := IntendedEndpoint(settings, filename, content, lib, b64, service, processingTime);
      r.Failure? ==> (r.error.statusCode == 400 <==> r.error != InternalError())
  {
    var stream := StreamSpec(NewPDFProcessor(settings), settings, lib, content);
    if IsPdfName(filename) && stream.Success? {
      StreamShape(NewPDFProcessor(settings), settings, lib, content);
      ReportShape(Batch(NewOpenAIClient(settings), b64, service, stream.value), |stream.value|, processingTime);
    }
  }
}
