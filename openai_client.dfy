/** Dispatch of page images to the vision completion service. The HTTP call
    is an oracle: each call ends in a reply (a status, the decoded body and
    the seconds elapsed since the call started), a timeout, a transport error
    or some other raised error. `asyncio.gather` runs the calls and keeps
    their results in submission order, so the batch is an order-preserving
    map over the pages. The service is a function of the call's position and
    of the request it posts: `service(i, request)` is the outcome of the
    i-th call. Base64 encoding is an oracle `b64` on the image bytes. */
module OpenAIClient {
  import opened Wrappers
  import opened PyValues
  import opened Config
  import opened Exceptions
  import opened Schemas
  import opened PdfProcessor

  /** The client's configuration, fixed when it is created. */
  datatype Client = Client(apiUrl: string, apiKey: string, timeout: int, model: string, maxConcurrentRequests: int)

  function NewOpenAIClient(settings: Settings): (c: Client)
    ensures c.timeout == settings.openaiTimeout && c.model == settings.mmlmModel
    ensures c.apiUrl == settings.openaiApiUrl && c.apiKey == settings.openaiApiKey
  {
    Client(settings.openaiApiUrl, settings.openaiApiKey, settings.openaiTimeout,
           settings.mmlmModel, settings.maxConcurrentRequests)
  }

  /** The outcome of the i-th call, given the request body it posts. */
  datatype HttpReply =
    | Reply(status: int, body: Json, seconds: real)
    | TimedOut
    | ClientError(text: string)
    | OtherError(text: string)

  type Service = (nat, Json) -> HttpReply

  /** `base64.b64encode(image_data).decode("utf-8")`. */
  type Encoder = seq<byte> -> string

  const Instruction: string :=
    "Please extract and transcribe only the raw text content from the following page image. "
    + "Your response must be formatted in **Markdown**. "
    + "If the image contains tables, convert them into valid Markdown table format. "
    + "Do not add any extra commentary, explanation, or formatting beyond what is in the image."

  const DataUrlPrefix := "data:image/png;base64,"
  const MaxTokens := 1000

  /** The JSON request body for one page, given the base64 text of its image. */
  function Payload(model: string, imageB64: string): (p: Json)
    ensures p.JDict? && p.fields.Keys == {"model", "messages", "max_tokens"}
    ensures p.fields["model"] == JStr(model) && p.fields["max_tokens"] == JInt(MaxTokens)
  {
    var text := JDict(map["type" := JStr("text"), "text" := JStr(Instruction)]);
    var image := JDict(map["type" := JStr("image_url"),
                           "image_url" := JDict(map["url" := JStr(DataUrlPrefix + imageB64)])]);
    var message := JDict(map["role" := JStr("user"), "content" := JList([text, image])]);
    JDict(map["model" := JStr(model), "messages" := JList([message]), "max_tokens" := JInt(MaxTokens)])
  }

  /** Reads a request body back: its single user message must hold a text
      part followed by an image part, whose URL is returned. */
  function ImageUrl(p: Json): Option<string>
  {
    if p.JDict? && "messages" in p.fields && p.fields["messages"].JList?
       && |p.fields["messages"].items| == 1
    then
      var m := p.fields["messages"].items[0];
      if m.JDict? && "role" in m.fields && m.fields["role"] == JStr("user")
         && "content" in m.fields && m.fields["content"].JList? && |m.fields["content"].items| == 2
      then
        var text, image := m.fields["content"].items[0], m.fields["content"].items[1];
        if text.JDict? && "type" in text.fields && text.fields["type"] == JStr("text")
           && image.JDict? && "type" in image.fields && image.fields["type"] == JStr("image_url")
           && "image_url" in image.fields && image.fields["image_url"].JDict?
           && "url" in image.fields["image_url"].fields && image.fields["image_url"].fields["url"].JStr?
        then Some(image.fields["image_url"].fields["url"].s)
        else None
      else None
    else None
  }

  /** The body's one image part carries the image as a png data URL. */
  lemma PayloadCarriesImage(model: string, imageB64: string)
    ensures ImageUrl(Payload(model, imageB64)) == Some(DataUrlPrefix + imageB64)
  {
  }

  /** The base64 text travels unchanged and is always labelled PNG: two
      requests carry the same image URL exactly when their images agree. */
  lemma PayloadImageRoundTrip(model1: string, b1: string, model2: string, b2: string)
    ensures StartsWith(ImageUrl(Payload(model1, b1)).value, DataUrlPrefix)
    ensures ImageUrl(Payload(model1, b1)).value[|DataUrlPrefix|..] == b1
    ensures ImageUrl(Payload(model1, b1)) == ImageUrl(Payload(model2, b2)) <==> b1 == b2
  {
    PayloadCarriesImage(model1, b1);
    PayloadCarriesImage(model2, b2);
    var u1, u2 := DataUrlPrefix + b1, DataUrlPrefix + b2;
    assert u1[|DataUrlPrefix|..] == b1;
    assert u2[|DataUrlPrefix|..] == b2;
  }

  const TimeoutPrefix := "API request timed out after "
  const NetworkPrefix := "Network error during API request: "
  const UnexpectedPrefix := "Unexpected error during API request: "
  const RequestFailedPrefix := "OpenAI API request failed: "
  const UnknownApiError := "Unknown API error"
  const NoneTimesFloat := "unsupported operand type(s) for +: 'NoneType' and 'float'"

  function ApiError(message: string): ProcessingError
  {
    ProcessingError(APICallError, message)
  }

  /** `response_data.get("error", {}).get("message", "Unknown API error")`:
      the service's `error.message`, "Unknown API error" when either key is
      absent, and the AttributeError text when either level is not a dict. */
  function ServiceMessage(body: Json): (r: Result<Json, string>)
    ensures !body.JDict? ==> r.Failure?
    ensures body.JDict? && "error" !in body.fields ==> r == Success(JStr(UnknownApiError))
    ensures body.JDict? && "error" in body.fields && !body.fields["error"].JDict? ==> r.Failure?
    ensures body.JDict? && "error" in body.fields && body.fields["error"].JDict? ==>
      r == Success(if "message" in body.fields["error"].fields then body.fields["error"].fields["message"]
                   else JStr(UnknownApiError))
  {
    match Get(body, "error", JDict(map[]))
    case Failure(text) => Failure(text)
    case Success(error) => Get(error, "message", JStr(UnknownApiError))
  }

  /** `response_data.get("usage", {}).get("total_tokens", 0)`: the service's
      `usage.total_tokens`, 0 when either key is absent, and the
      AttributeError text when either level is not a dict. */
  function TotalTokens(body: Json): (r: Result<Json, string>)
    ensures r.Success? ==> body.JDict?
    ensures !body.JDict? ==> r.Failure?
    ensures body.JDict? && "usage" !in body.fields ==> r == Success(JInt(0))
    ensures body.JDict? && "usage" in body.fields && !body.fields["usage"].JDict? ==> r.Failure?
    ensures body.JDict? && "usage" in body.fields && body.fields["usage"].JDict? ==>
      r == Success(if "total_tokens" in body.fields["usage"].fields then body.fields["usage"].fields["total_tokens"]
                   else JInt(0))
  {
    match Get(body, "usage", JDict(map[]))
    case Failure(text) => Failure(text)
    case Success(usage) => Get(usage, "total_tokens", JInt(0))
  }

  /** The keys the successful call adds to `additional_data`. */
  const ApiTimeKey := "api_processing_time"
  const ApiTokensKey := "api_response_tokens"

  /** `additional_data` after a successful call: the old entries (none when
      absent) with the call's time and token count set on top. */
  predicate MergedAdditionalData(previous: Option<map<string, Json>>, merged: map<string, Json>, seconds: real, tokens: Json)
  {
    var before := if previous.Some? then previous.value else map[];
    && merged.Keys == before.Keys + {ApiTimeKey, ApiTokensKey}
    && merged[ApiTimeKey] == JFloat(seconds)
    && merged[ApiTokensKey] == tokens
    && forall k :: k in before && k != ApiTimeKey && k != ApiTokensKey ==> merged[k] == before[k]
  }

  /** The metadata built after a successful call. */
  function UpdatedMetadata(md: ProcessingMetadata, seconds: real, tokens: Json): (r: ProcessingMetadata)
    requires md.processingTime.Some?
    ensures r.confidenceScore == md.confidenceScore
    ensures r.imageDimensions == md.imageDimensions
    ensures r.fileSize == md.fileSize
    ensures r.processingTime == Some(md.processingTime.value + seconds)
    ensures r.additionalData.Some? && MergedAdditionalData(md.additionalData, r.additionalData.value, seconds, tokens)
  {
    var before := if md.additionalData.Some? then md.additionalData.value else map[];
    ProcessingMetadata(
      confidenceScore := md.confidenceScore,
      processingTime := Some(md.processingTime.value + seconds),
      imageDimensions := md.imageDimensions,
      fileSize := md.fileSize,
      additionalData := Some(before + map[ApiTimeKey := JFloat(seconds), ApiTokensKey := tokens]))
  }

  /** The part of `process_image` after the request is posted: the call's
      outcome classified into a success (the response body and the updated
      metadata) or the `APICallError` it raises. The error a non-200 status
      raises inside the `try` is caught by the generic handler and so carries
      two prefixes. */
  function HandleReply(client: Client, metadata: ProcessingMetadata, reply: HttpReply)
    : (r: Result<(map<string, Json>, ProcessingMetadata), ProcessingError>)
    ensures r.Failure? ==> r.error.cls == APICallError && r.error.details.None?
    ensures r.Failure? ==>
      StartsWith(r.error.message, TimeoutPrefix) || StartsWith(r.error.message, NetworkPrefix)
      || StartsWith(r.error.message, UnexpectedPrefix)
    ensures reply.TimedOut? ==>
      r == Failure(ApiError(TimeoutPrefix + IntToDecimal(client.timeout) + " seconds"))
    ensures reply.ClientError? ==> r == Failure(ApiError(NetworkPrefix + reply.text))
    ensures reply.OtherError? ==> r == Failure(ApiError(UnexpectedPrefix + reply.text))
    ensures reply.Reply? && reply.status != 200 ==> r.Failure?
    ensures reply.Reply? && reply.status != 200 && reply.body.JDict? && "error" !in reply.body.fields ==>
      r == Failure(ApiError(UnexpectedPrefix + RequestFailedPrefix + UnknownApiError))
    ensures reply.Reply? && reply.status != 200 && ServiceMessage(reply.body).Success?
            && ServiceMessage(reply.body).value.JStr? ==>
      r == Failure(ApiError(UnexpectedPrefix + RequestFailedPrefix + ServiceMessage(reply.body).value.s))
    ensures r.Success? <==>
      reply.Reply? && reply.status == 200 && metadata.processingTime.Some? && TotalTokens(reply.body).Success?
    ensures r.Success? ==>
      && reply.body.JDict? && r.value.0 == reply.body.fields
      && r.value.1 == UpdatedMetadata(metadata, reply.seconds, TotalTokens(reply.body).value)
  {
    match reply
    case TimedOut =>
      Failure(ApiError(TimeoutPrefix + IntToDecimal(client.timeout) + " seconds"))
    case ClientError(text) =>
      Failure(ApiError(NetworkPrefix + text))
    case OtherError(text) =>
      Failure(ApiError(UnexpectedPrefix + text))
    case Reply(status, body, seconds) =>
      if status != 200 then
        match ServiceMessage(body)
        case Failure(text) => Failure(ApiError(UnexpectedPrefix + text))
        case Success(message) => Failure(ApiError(UnexpectedPrefix + RequestFailedPrefix + Str(message)))
      else if metadata.processingTime.None? then
        Failure(ApiError(UnexpectedPrefix + NoneTimesFloat))
      else
        match TotalTokens(body)
        case Failure(text) => Failure(ApiError(UnexpectedPrefix + text))
        case Success(tokens) => Success((body.fields, UpdatedMetadata(metadata, seconds, tokens)))
  }

  /** The request `process_image` posts for an image: the payload carrying
      the image's base64 text and the client's model. */
  function Request(client: Client, b64: Encoder, imageData: seq<byte>): (p: Json)
    ensures p == Payload(client.model, b64(imageData))
    ensures p.JDict? && p.fields["model"] == JStr(client.model)
  {
    Payload(client.model, b64(imageData))
  }

  /** `process_image`, as the `call`-th call: it posts the image's request and
      classifies the outcome. */
  function ProcessImage(client: Client, b64: Encoder, service: Service, call: nat,
                        imageData: seq<byte>, metadata: ProcessingMetadata)
    : (r: Result<(map<string, Json>, ProcessingMetadata), ProcessingError>)
    ensures r == HandleReply(client, metadata, service(call, Payload(client.model, b64(imageData))))
  {
    HandleReply(client, metadata, service(call, Request(client, b64, imageData)))
  }

  /** `_process_single_page`: the page number with the call's result; errors
      are re-raised unchanged. */
  function ProcessSinglePage(client: Client, b64: Encoder, service: Service, call: nat, page: PageImage)
    : (r: Result<(int, map<string, Json>, ProcessingMetadata), ProcessingError>)
    ensures var image := ProcessImage(client, b64, service, call, page.imageBytes, page.metadata);
      && (r.Success? <==> image.Success?)
      && (r.Success? ==> r.value == (page.pageNumber, image.value.0, image.value.1))
      && (r.Failure? ==> r.error == image.error)
  {
    match ProcessImage(client, b64, service, call, page.imageBytes, page.metadata)
    case Failure(e) => Failure(e)
    case Success((response, md)) => Success((page.pageNumber, response, md))
  }

  /** One tuple of the batch: page number, response, metadata, error text. */
  datatype BatchEntry = BatchEntry(pageNumber: int, response: map<string, Json>, metadata: ProcessingMetadata, error: Option<string>)

  /** The tuple `process_batch` emits for a page and its call's reply. */
  function EntryFor(client: Client, page: PageImage, reply: HttpReply): (e: BatchEntry)
    ensures e.pageNumber == page.pageNumber
    ensures e.error.Some? <==> HandleReply(client, page.metadata, reply).Failure?
    ensures e.error.Some? ==>
      && e.response == map[] && e.metadata == page.metadata
      && e.error.value == HandleReply(client, page.metadata, reply).error.message
      && e.error.value != ""
    ensures e.error.None? ==>
      (e.response, e.metadata) == HandleReply(client, page.metadata, reply).value
  {
    match HandleReply(client, page.metadata, reply)
    case Failure(err) => BatchEntry(page.pageNumber, map[], page.metadata, Some(err.Str()))
    case Success((response, md)) => BatchEntry(page.pageNumber, response, md, None)
  }

  /** The reply to the i-th call of a batch: the service's answer to that
      page's own request. */
  function ReplyFor(client: Client, b64: Encoder, service: Service, pagesData: seq<PageImage>, i: nat): HttpReply
    requires i < |pagesData|
  {
    service(i, Request(client, b64, pagesData[i].imageBytes))
  }

  /** `asyncio.gather(*tasks, return_exceptions=True)`: every task runs and its
      result or exception is delivered at the task's own position. */
  function Gather(client: Client, b64: Encoder, service: Service, tasks: seq<PageImage>)
    : (results: seq<Result<(int, map<string, Json>, ProcessingMetadata), ProcessingError>>)
    ensures |results| == |tasks|
    ensures forall i :: 0 <= i < |tasks| ==> results[i] == ProcessSinglePage(client, b64, service, i, tasks[i])
  {
    seq(|tasks|, i requires 0 <= i < |tasks| => ProcessSinglePage(client, b64, service, i, tasks[i]))
  }

  /** The tuples `process_batch` returns: the i-th from the i-th page and the
      service's answer to the request carrying that page's image. */
  function Batch(client: Client, b64: Encoder, service: Service, pagesData: seq<PageImage>): (api: seq<BatchEntry>)
    ensures |api| == |pagesData|
    ensures forall i :: 0 <= i < |pagesData| ==> api[i] == EntryFor(client, pagesData[i], ReplyFor(client, b64, service, pagesData, i))
    ensures forall i :: 0 <= i < |pagesData| ==> api[i].pageNumber == pagesData[i].pageNumber
  {
    seq(|pagesData|, i requires 0 <= i < |pagesData| => EntryFor(client, pagesData[i], ReplyFor(client, b64, service, pagesData, i)))
  }

  /** The i-th call of a batch posts page i's own image, as a png data URL,
      under the configured model, and the i-th tuple is built from the
      service's answer to exactly that request. */
  lemma BatchPostsPageImage(client: Client, b64: Encoder, service: Service, pagesData: seq<PageImage>, i: nat)
    requires i < |pagesData|
    ensures
      var request := Payload(client.model, b64(pagesData[i].imageBytes));
      && Batch(client, b64, service, pagesData)[i] == EntryFor(client, pagesData[i], service(i, request))
      && ImageUrl(request) == Some(DataUrlPrefix + b64(pagesData[i].imageBytes))
      && request.fields["model"] == JStr(client.model)
  {
    PayloadCarriesImage(client.model, b64(pagesData[i].imageBytes));
  }

  /** The tuple `process_batch` builds from the i-th gathered result is the
      i-th page's `EntryFor`. */
  lemma GatheredEntry(client: Client, b64: Encoder, service: Service, pagesData: seq<PageImage>, i: nat,
                      result: Result<(int, map<string, Json>, ProcessingMetadata), ProcessingError>)
    requires i < |pagesData|
    requires result == ProcessSinglePage(client, b64, service, i, pagesData[i])
    ensures result.Failure? ==>
      BatchEntry(pagesData[i].pageNumber, map[], pagesData[i].metadata, Some(result.error.Str()))
        == EntryFor(client, pagesData[i], ReplyFor(client, b64, service, pagesData, i))
    ensures result.Success? ==>
      BatchEntry(result.value.0, result.value.1, result.value.2, None)
        == EntryFor(client, pagesData[i], ReplyFor(client, b64, service, pagesData, i))
  {
    assert ProcessImage(client, b64, service, i, pagesData[i].imageBytes, pagesData[i].metadata)
        == HandleReply(client, pagesData[i].metadata, ReplyFor(client, b64, service, pagesData, i));
  }

  /** `process_batch`: one tuple per page, in page order, whatever order the
      calls complete in; a failed call leaves the page's extraction metadata
      and its error text. */
  method ProcessBatch(client: Client, b64: Encoder, service: Service, pagesData: seq<PageImage>)
    returns (processedResults: seq<BatchEntry>)
    ensures |processedResults| == |pagesData|
    ensures forall i :: 0 <= i < |pagesData| ==> processedResults[i].pageNumber == pagesData[i].pageNumber
    ensures forall i :: 0 <= i < |pagesData| ==>
      processedResults[i] == EntryFor(client, pagesData[i], ReplyFor(client, b64, service, pagesData, i))
    ensures processedResults == Batch(client, b64, service, pagesData)
  {
    var tasks: seq<PageImage> := [];
    for i := 0 to |pagesData|
      invariant tasks == pagesData[..i]
    {
      tasks := tasks + [pagesData[i]];
    }
    assert tasks == pagesData;
    var results := Gather(client, b64, service, tasks);
    processedResults := [];
    for i := 0 to |results|
      invariant |processedResults| == i
      invariant forall k :: 0 <= k < i ==>
        processedResults[k] == EntryFor(client, pagesData[k], ReplyFor(client, b64, service, pagesData, k))
    {
      var pageNum := pagesData[i].pageNumber;
      GatheredEntry(client, b64, service, pagesData, i, results[i]);
      match results[i]
      case Failure(err) =>
        processedResults := processedResults + [BatchEntry(pageNum, map[], pagesData[i].metadata, Some(err.Str()))];
      case Success((n, response, md)) =>
        processedResults := processedResults + [BatchEntry(n, response, md, None)];
    }
  }
}
