# PDF-Parser-API core, modelled in Dafny

The service takes an uploaded PDF and checks its name, size and structure. It
renders every page to an image and sends each image to a vision-capable
completion service for transcription. It then gathers the per-page answers into
one report, in page order. Pages whose call failed are named in the report's
error list; they do not abort the batch.

The model follows the source file by file:

| module | file | what it holds |
|---|---|---|
| `Wrappers` | — | `Option`, `Result`, `Outcome` |
| `PyValues` | — | bytes, decoded JSON values with `dict.get` and `str()`, ASCII `lower`/`upper`, decimal rendering of integers |
| `Config` | app/core/config.py | the settings the core reads, with their defaults |
| `Exceptions` | app/utils/exceptions.py | the `PDFProcessingError` hierarchy, `HTTPException`, `create_http_exception` |
| `Schemas` | app/models/schemas.py | `ProcessingMetadata`, `PageResult` (page number ≥ 1), `PDFProcessResponse`, `ErrorResponse`, with their defaults |
| `PdfProcessor` | app/services/pdf_processor.py | the processor's configuration, `validate_pdf`, the page loop of `extract_pages_as_images`, `process_pdf_stream` |
| `OpenAIClient` | app/services/openai_client.py | the request payload, `process_image`'s classification of one reply, `_process_single_page`, `process_batch` |
| `Endpoints` | app/api/endpoints.py | `process_pdf`: the name check, the aggregation loop, the response, the exception-to-status mapping |

Foreign code becomes inputs:
- The PDF library is a `PdfLibrary` value holding two oracles. `open` gives a page count or a failure text. `render` gives, for a 0-based page index, the DPI and the encoder options, either the encoded bytes with the pixel size and rendering time, or a failure text.
- The HTTP service is a function `service(i, request)` of the call's position and the JSON body it posts. Its value is an `HttpReply`: a status with the decoded body and the elapsed seconds, a timeout, a transport (`aiohttp.ClientError`) failure, or any other raised error.
- Base64 encoding is an oracle `b64` from image bytes to text. The i-th call posts `Payload(model, b64(image of page i))`.
- `asyncio.gather` keeps results in submission order. So a batch is an order-preserving map: the i-th call is the one for the i-th page.
- The upload's bytes and the request's wall time are parameters.

`extract_pages_as_images`, `process_batch` and the aggregation loop of
`process_pdf` are methods with loops. Each is proved equal to a specification
function (`ExtractSpec`, `Batch`, `Report`). Lemmas about those functions
state the properties: page numbers 1..P, one output per input in order,
processed + errors = total, and success iff no page failed. The end-to-end lemma
`WellFormedReport` chains them: an upload that validates and extracts always
gets a report whose results are numbered 1..P.

Behaviour of the code as written that its names, types and declared responses do not suggest:
- The size rejection raises the base `PDFProcessingError`, although a `FileSizeError` class exists. The endpoint declares a 413 response, but the size rejection answers 400.
- `validate_pdf` raises "PDF file contains no pages" inside its own `try`. It then re-catches it, so the message reads "Invalid PDF file: PDF file contains no pages".
- `process_image` raises an `APICallError` "OpenAI API request failed: …" for a non-200 status inside its own `try`. Its generic handler re-catches it, so the message reads "Unexpected error during API request: OpenAI API request failed: …".
- The image's data URL always says `image/png`, although `image_format` is configurable (JPEG, for one).
- The endpoint declares and raises 400s of its own (bad file name, no pages), but they are answered as 500 (see Findings).
- The endpoint's "No pages found in PDF file" branch cannot be reached: validation already refuses a document with no pages (`StreamShape`).

## Model

| member | source | states |
|---|---|---|
| `PdfProcessor.NewPDFProcessor` | app/services/pdf_processor.py:21-23 | the DPI is copied; the format is the configured one upper-cased: same length, no lower-case letter, equal to it ignoring case |
| `PdfProcessor.FormatCaseIrrelevant` | app/services/pdf_processor.py:23 | two settings whose formats differ only in case ("png", "PNG") yield identical processors |
| `PyValues.UpperIgnoresCase` | app/services/pdf_processor.py:23 | upper-casing identifies exactly the strings that agree ignoring case (both directions) |
| `PdfProcessor.EncoderOptions` | app/services/pdf_processor.py:71-76 | the encoder gets the configured format with optimisation on; quality is present iff the format is "JPEG", and then it is 95 |
| `PdfProcessor.SizeError` | app/services/pdf_processor.py:27-30 | the size error is of the base class with no details. Its message is "File size exceeds maximum allowed size of " + digits + " bytes", and the digits read back as the configured limit |
| `PdfProcessor.ValidatePdf` | app/services/pdf_processor.py:25-39 | passes iff size ≤ `max_file_size`, the parse succeeds and the document has pages. Oversize gives the base-class size error. Any other failure is an `InvalidFileError` prefixed "Invalid PDF file: ", including the re-wrapped no-pages error and the parser's own text |
| `PdfProcessor.SizeCheckPrecedesParse` | app/services/pdf_processor.py:27-30 | for an oversized payload the result does not depend on the parser, and its class is `PDFProcessingError` rather than `FileSizeError` |
| `PdfProcessor.PageOf` | app/services/pdf_processor.py:80-87 | a page tuple records `file_size == len(image_bytes)`, the rendered dimensions and time, and leaves confidence and additional data unset |
| `PdfProcessor.RenderPagesSuccess` | app/services/pdf_processor.py:54-87 | rendering the first n pages succeeds iff each renders; it then yields n tuples, the k-th built from page k and numbered k+1 |
| `PdfProcessor.RenderPagesFailure` | app/services/pdf_processor.py:54-87 | a failed loop reports the text of the first page that failed, all earlier pages having rendered |
| `PdfProcessor.RenderFailureSticks` | app/services/pdf_processor.py:54-87 | once a page fails, rendering more pages keeps the same failure (the loop stops there) |
| `PdfProcessor.ExtractionShape` | app/services/pdf_processor.py:41-114 | extraction succeeds iff the document opens and every page renders. It then returns exactly `page_count` tuples numbered 1..P in document order, each with its size recorded. Otherwise it raises one `PDFProcessingError` prefixed "Failed to extract pages from PDF: " and returns no partial list |
| `PdfProcessor.ExtractionFailureCause` | app/services/pdf_processor.py:112-114 | the failure message is the prefix plus the parser's text or the first failing page's text |
| `PdfProcessor.ExtractedNumbersIncrease` | app/services/pdf_processor.py:87 | extracted page numbers are strictly increasing and contiguous |
| `PdfProcessor.ExtractPagesAsImages` | app/services/pdf_processor.py:41-114 | the page loop returns exactly what `ExtractSpec` describes |
| `PdfProcessor.ProcessPdfStream` | app/services/pdf_processor.py:116-132 | validation, then extraction, errors re-raised unchanged (`StreamSpec`) |
| `PdfProcessor.ValidationFailureSkipsRendering` | app/services/pdf_processor.py:124-128 | when validation fails the result does not depend on the renderer: no page is rendered |
| `PdfProcessor.StreamShape` | app/services/pdf_processor.py:116-132 | a validation error surfaces unchanged; a successful stream has at least one page, P = page count, numbered 1..P |
| `OpenAIClient.NewOpenAIClient` | app/services/openai_client.py:18-23 | the client keeps the configured URL, key, timeout and model |
| `OpenAIClient.Payload` | app/services/openai_client.py:43-60 | the body has exactly the keys model, messages and max_tokens; `model` is the configured one and `max_tokens` is 1000 |
| `OpenAIClient.PayloadCarriesImage` | app/services/openai_client.py:45-57 | the body's single user message holds a text part and then an image part, whose URL is "data:image/png;base64," + the image's base64 text |
| `OpenAIClient.PayloadImageRoundTrip` | app/services/openai_client.py:50-55 | the URL always starts with the png data prefix. The base64 text is recovered unchanged after it, and two URLs are equal iff their images are |
| `OpenAIClient.TotalTokens` | app/services/openai_client.py:99-101 | the token count is `usage.total_tokens`, or 0 when `usage` or `total_tokens` is absent. The lookup fails (AttributeError) exactly when the body or `usage` is not a dictionary |
| `OpenAIClient.ServiceMessage` | app/services/openai_client.py:81-83 | the reported message is `error.message`, or "Unknown API error" when `error` or `message` is absent. The lookup fails exactly when the body or `error` is not a dictionary |
| `OpenAIClient.UpdatedMetadata` | app/services/openai_client.py:88-103 | confidence, dimensions and size are copied; processing time is the extraction time plus the API time. `additional_data` keeps every other existing key (None read as empty) and sets `api_processing_time` and `api_response_tokens` |
| `OpenAIClient.ProcessImage` | app/services/openai_client.py:25-126 | the call posts the request built from this page's own image and the configured model; its result is `HandleReply` of the service's answer to that request |
| `OpenAIClient.HandleReply` | app/services/openai_client.py:78-126 | every failure is an `APICallError` whose message starts with the timeout, network or "Unexpected error during API request: " prefix. A timeout gives "API request timed out after {timeout} seconds". A non-200 reply gives "Unexpected error during API request: OpenAI API request failed: " + `error.message`, defaulting to "Unknown API error". Success holds iff the status is 200, the metadata has a processing time and the token lookup works; it returns the body and the updated metadata |
| `OpenAIClient.ProcessSinglePage` | app/services/openai_client.py:161-172 | succeeds iff `process_image` succeeds, and then returns the page number with its response and metadata; an error is passed on unchanged |
| `OpenAIClient.Gather` | app/services/openai_client.py:142 | one result per task, the i-th being the i-th task's outcome as the i-th call |
| `OpenAIClient.EntryFor` | app/services/openai_client.py:146-156 | the tuple keeps the page number. It is a failure iff the call failed, and then carries `{}`, the page's extraction metadata and the non-empty error text. Otherwise it carries the response and updated metadata with error None |
| `OpenAIClient.Batch` | app/services/openai_client.py:137-159 | one tuple per page, with page i's number. The i-th tuple is built from page i and the service's answer to the i-th call, which posts the payload carrying page i's image under the configured model |
| `OpenAIClient.BatchPostsPageImage` | app/services/openai_client.py:35-76 | the i-th call of a batch posts page i's own image: the request's URL is the png data prefix + `b64` of page i's bytes, its model is the configured one, and the i-th tuple is built from the service's answer to exactly that request |
| `OpenAIClient.ProcessBatch` | app/services/openai_client.py:128-159 | the two loops return exactly one tuple per input page, in input order, equal to `Batch` |
| `Endpoints.InternalError` | app/api/endpoints.py:121-125 | the generic handler answers 500 with the fixed string detail, which no `create_http_exception` answer can equal |
| `Endpoints.PdfNameIgnoresCase` | app/api/endpoints.py:53 | the name check holds iff the last four characters spell ".pdf" in any case |
| `Endpoints.CountsAddUp` | app/api/endpoints.py:74-88 | processed count plus number of error lines equals the number of tuples |
| `Endpoints.NoErrorLinesIff` | app/api/endpoints.py:77-78 | no error line is collected iff no tuple carries a truthy error |
| `Endpoints.AllProcessedIff` | app/api/endpoints.py:77-88 | every tuple is counted as processed iff none failed (an empty-string error counts as processed) |
| `Endpoints.ResultFor` | app/api/endpoints.py:76-95 | a result keeps the page number and metadata. A truthy error gives output `{}` with the error kept; otherwise the API response with error None |
| `Endpoints.PageResults` | app/api/endpoints.py:72-95 | one result per tuple, in order |
| `Endpoints.ReportShape` | app/api/endpoints.py:76-115 | the response exists iff every page number validates (else the fixed 500). It has one result per tuple in order, and `total_pages` as given. Processed + errors = tuples, and the errors are the "Page n: msg" lines in order. `success` holds iff `errors` is None, iff no tuple failed |
| `Endpoints.BuildResponse` | app/api/endpoints.py:71-115 | the aggregation loop and response construction compute exactly `Report` |
| `Endpoints.ProcessPdf` | app/api/endpoints.py:51-125 | the endpoint answers exactly `EndpointSpec`: name check, stream, empty check, batch, report, and the two exception handlers |
| `Endpoints.BatchReport` | app/api/endpoints.py:69-115 | over pages numbered 1..P the report exists, with P results numbered 1..P. A result is error-free iff that page's `process_image` call succeeded. Processed + errors = P, and success iff every call succeeded |
| `Endpoints.WellFormedReport` | app/api/endpoints.py:63-115 | an upload that validates and extracts always gets a report. It has total = P results numbered 1..P, and a page is processed iff its call succeeded. Processed + errors = P, and success iff every call succeeded |
| `Endpoints.NonPdfNameRefusedFirst` | app/api/endpoints.py:53-54 | a bad name is answered with the fixed 500 without consulting the document, the library or the service |
| `Endpoints.OversizedUploadIs400` | app/api/endpoints.py:117-119 | an oversized upload becomes a 400 whose detail carries the size message |
| `Endpoints.ErrorStatusMapping` | app/api/endpoints.py:117-125 | the endpoint fails iff the name is bad or the stream fails. A 400 comes iff a hierarchy error came from the stream, via `create_http_exception`; every other failure is the fixed 500 |
| `Endpoints.SecondPageTimesOut` | app/api/endpoints.py:76-115 | three pages with the second call timing out give total 3, processed 2, success false, and one error "Page 2: API request timed out after 30 seconds" |
| `Endpoints.NonPdfNameAnswered500` | app/api/endpoints.py:53-54 | as written, "notes.txt" is answered with status 500 |
| `Endpoints.IntendedEndpointAnswers400` | app/api/endpoints.py:53-66 | the corrected endpoint answers a bad name with 400 "Only PDF files are allowed" and agrees with the code on every PDF-named upload; each of its failures is a 400 exactly when it is not the fixed 500 |
| `Exceptions.OneHandlerCatchesAll` | app/utils/exceptions.py:14-35 | every class of the hierarchy is a subclass of `PDFProcessingError`, and the base is a subclass of none of the others |
| `Exceptions.CreateHttpException` | app/utils/exceptions.py:38-45 | status as passed. The detail has exactly the keys "error" (the message) and "details" (the details, null when absent) |
| `Exceptions.CreateHttpExceptionDefaultStatus` | app/utils/exceptions.py:38-40 | without a status argument the status is 400 |
| `Schemas.NewPageResult` | app/models/schemas.py:14-20 | a page result is constructed iff the page number is ≥ 1, and keeps the given fields |
| `Schemas.SchemaDefaults` | app/models/schemas.py:6-36 | omitted fields default: all metadata fields None, result metadata and error None, response errors None, error-response success false and details None |
| `Config.DefaultSettings` | app/core/config.py:16-28 | defaults: timeout 30, maximum size 50 MiB, 300 DPI, PNG, 10 concurrent requests |
| `PyValues.DecimalRoundTrip` | app/api/endpoints.py:78 | the decimal text of a page number reads back as that number |

## Left out

- PDF parsing, rendering at `dpi/72` and Pillow re-encoding: foreign libraries with float scaling. They are the `open`/`render` oracles.
- The aiohttp session, the URL and headers of the POST, the bearer key and `response.json()`: network and library calls. Only the posted JSON body is modelled; the reply to it comes from the `service` input.
- Base64 encoding of the image: it is the `b64` oracle, so nothing about the encoding itself (alphabet, padding, decodability) is stated.
- `asyncio.Semaphore` and the concurrent scheduling inside `gather`: the in-flight bound is not modelled. Only gather's order-preserving result list is kept, so completion order does not appear.
- Clocks: every `processing_time` is an input `real`. Float rounding is not modelled; sums are exact.
- Logging, `_read_file_async` (temp-file chunked reading), the `timestamp` fields, the health and root endpoints, application wiring and `.env` loading.
- `PyValues.Str`: Python's `str()` is exact for None, booleans, integers and strings. A float, list or dict gets a fixed marker instead. Such a value reaches a message only when a service sends a non-string `error.message`.
- `PyValues.Lower` and `PyValues.Upper`: ASCII only; Python's Unicode case mapping of non-ASCII names and formats is not modelled.
- Exceptions outside `Exception` (cancellation) and failures of `doc.close()` or the pydantic metadata model are not modelled.
- `FileSizeError` and `ProcessingTimeoutError` exist in the hierarchy but nothing raises them; they appear only in `OneHandlerCatchesAll`.

## Findings

| source | as written | input that shows it | evidently intended | confidence | as-written member | corrected member |
|---|---|---|---|---|---|---|
| app/api/endpoints.py:53-54 | the 400 "Only PDF files are allowed" is raised inside the `try` and caught by `except Exception`, which answers 500 (the same happens to "No pages found" at line 66) | filename "notes.txt" | a 400 with "Only PDF files are allowed" reaches the caller | high, not executed | `Endpoints.NonPdfNameAnswered500` | `Endpoints.IntendedEndpointAnswers400` |
