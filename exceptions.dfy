/** The error hierarchy of the application and its conversion to an HTTP error. */
module Exceptions {
  import opened Wrappers
  import opened PyValues

  /** The classes of the `PDFProcessingError` hierarchy. */
  datatype ErrorClass =
    | PDFProcessingError
    | InvalidFileError
    | FileSizeError
    | APICallError
    | ProcessingTimeoutError

  /** The class a class derives from directly; the base class derives from
      `Exception`, which is outside the hierarchy. */
  function Parent(c: ErrorClass): Option<ErrorClass>
  {
    if c == PDFProcessingError then None else Some(PDFProcessingError)
  }

  /** The number of classes between `c` and the base class. */
  function Depth(c: ErrorClass): nat
  {
    if c == PDFProcessingError then 0 else 1
  }

  /** `issubclass(c, ancestor)` within the hierarchy. */
  predicate IsSubclass(c: ErrorClass, ancestor: ErrorClass)
    decreases Depth(c)
  {
    c == ancestor || (Parent(c).Some? && IsSubclass(Parent(c).value, ancestor))
  }

  /** Every class of the hierarchy is caught by `except PDFProcessingError`,
      and the base class is a subclass of no other class. */
  lemma OneHandlerCatchesAll(c: ErrorClass)
    ensures IsSubclass(c, PDFProcessingError)
    ensures IsSubclass(PDFProcessingError, c) <==> c == PDFProcessingError
  {
  }

  /** An instance of the hierarchy: its class, its message and optional details. */
  datatype ProcessingError = ProcessingError(cls: ErrorClass, message: string, details: Option<string> := None)
  {
    /** `str(e)`: the message handed to `Exception.__init__`. */
    function Str(): string
    {
      message
    }
  }

  /** `fastapi.HTTPException`: a status code and a JSON-like detail. */
  datatype HttpException = HttpException(statusCode: int, detail: Json)

  /** `create_http_exception(error, status_code=400)`. */
  function CreateHttpException(error: ProcessingError, statusCode: int := 400): (r: HttpException)
    ensures r.statusCode == statusCode
    ensures r.detail.JDict? && r.detail.fields.Keys == {"error", "details"}
    ensures r.detail.fields["error"] == JStr(error.message)
    ensures error.details.None? <==> r.detail.fields["details"] == JNull
    ensures error.details.Some? ==> r.detail.fields["details"] == JStr(error.details.value)
  {
    var details := match error.details
      case None => JNull
      case Some(d) => JStr(d);
    HttpException(statusCode, JDict(map["error" := JStr(error.message), "details" := details]))
  }

  /** Without an explicit status the conversion answers 400. */
  lemma CreateHttpExceptionDefaultStatus(error: ProcessingError)
    ensures CreateHttpException(error).statusCode == 400
  {
  }
}
