/** The records the service exchanges, with their defaults and constraints. */
module Schemas {
  import opened Wrappers
  import opened PyValues

  /** Per-page metadata; every field is optional and absent by default. */
  datatype ProcessingMetadata = ProcessingMetadata(
    confidenceScore: Option<real> := None,
    processingTime: Option<real> := None,
    imageDimensions: Option<(int, int)> := None,
    fileSize: Option<int> := None,
    additionalData: Option<map<string, Json>> := None)

  /** Page numbers are 1-indexed. */
  type PageNumber = n: int | 1 <= n witness 1

  /** The report entry for one page: the output is required, the rest defaults to None. */
  datatype PageResult = PageResult(
    pageNumber: PageNumber,
    processedOutput: map<string, Json>,
    metadata: Option<ProcessingMetadata> := None,
    error: Option<string> := None)

  /** The report for one document (its creation timestamp is not modelled). */
  datatype PDFProcessResponse = PDFProcessResponse(
    success: bool,
    totalPages: int,
    processedPages: int,
    results: seq<PageResult>,
    processingTime: real,
    errors: Option<seq<string>> := None)

  /** The error body the endpoint documents for 400, 413 and 500 answers. */
  datatype ErrorResponse = ErrorResponse(
    success: bool := false,
    error: string,
    details: Option<string> := None)

  /** Constructing a `PageResult` validates it: a page number below 1 is
      refused (a pydantic ValidationError), any other is kept as given. */
  function NewPageResult(pageNumber: int, processedOutput: map<string, Json>,
                         metadata: Option<ProcessingMetadata> := None,
                         error: Option<string> := None): (r: Option<PageResult>)
    ensures r.Some? <==> pageNumber >= 1
    ensures r.Some? ==> r.value.pageNumber == pageNumber && r.value.processedOutput == processedOutput
                        && r.value.metadata == metadata && r.value.error == error
  {
    if pageNumber >= 1 then Some(PageResult(pageNumber, processedOutput, metadata, error)) else None
  }

  /** Fields left out at construction take their declared defaults. */
  lemma SchemaDefaults(n: PageNumber, out: map<string, Json>, ok: bool, results: seq<PageResult>, t: real, msg: string)
    ensures ProcessingMetadata() == ProcessingMetadata(None, None, None, None, None)
    ensures PageResult(n, out).metadata == None && PageResult(n, out).error == None
    ensures PDFProcessResponse(ok, |results|, 0, results, t).errors == None
    ensures ErrorResponse(error := msg).success == false && ErrorResponse(error := msg).details == None
  {
  }
}
