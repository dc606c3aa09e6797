/**
 * The Anthropic HTTP client's wire types and its pure logic
 * (anthropoki/src/lib.rs): API version strings, the display of an API
 * error, the stream-flag guards, and how a response is turned into an
 * error. The HTTP exchange itself is an input; JSON decoding is an
 * abstract partial function passed in.
 */
module Client {
  import opened Wrappers
  import opened Floats

  datatype ApiVersion = Latest | V2023_06_01 | V2023_01_01

  /** `impl AsRef<str> for ApiVersion`: `Latest` is the 2023-06-01 version. */
  function ApiVersionString(v: ApiVersion): (r: string)
    ensures v != V2023_01_01 <==> r == "2023-06-01"
    ensures v == V2023_01_01 <==> r == "2023-01-01"
  {
    match v
    case Latest => "2023-06-01"
    case V2023_06_01 => "2023-06-01"
    case V2023_01_01 => "2023-01-01"
  }

  datatype Model =
    | ClaudeSonnet4_5 | ClaudeHaiku4_5 | ClaudeOpus4_5 | ClaudeOpus4_1 | ClaudeOpus4 | ClaudeSonnet4
    | ClaudeSonnet3_7 | ClaudeSonnet3_5V2 | ClaudeSonnet3_5 | ClaudeHaiku3_5 | ClaudeHaiku3

  datatype Role = User | Assistant

  datatype Ttl = FiveMinutes | OneHour

  datatype CacheControl = Ephemeral(ttl: Ttl)

  datatype Citation =
    | CharacterLocation(citedText: string, documentIndex: nat, documentTitle: Option<string>, endCharIndex: nat, startCharIndex: nat)
    | PageLocation(citedText: string, documentIndex: nat, documentTitle: Option<string>, endPageNumber: nat, startPageNumber: nat)
    | ContentBlockLocation(citedText: string, documentIndex: nat, documentTitle: Option<string>, endBlockIndex: nat, startBlockIndex: nat)
    | WebSearchResultLocation(citedText: string, encryptedIndex: string, title: Option<string>, url: string)
    | SearchResultLocation(citedText: string, endBlockIndex: nat, searchResultIndex: nat, source: string, startBlockIndex: nat, title: Option<string>)

  datatype ImageMediaType = Jpeg | Png | Gif | Webp

  datatype ImageSource =
    | Base64(data: string, mediaType: ImageMediaType)
    | Url(url: string)
    | File(fileId: string)

  datatype DocumentMediaType = Pdf | Plain

  datatype DocumentSource =
    | PdfBase64(data: string, mediaType: DocumentMediaType)
    | PlainText(data: string, mediaType: DocumentMediaType)
    | ContentBlockSource(content: Content)
    | PdfUrl(url: string)
    | FileDocument(fileId: string)

  datatype ToolResultContentBlock =
    | ToolResultText(text: string)
    | ToolResultImage(source: ImageSource)

  datatype ContentBlock =
    | Text(text: string, cacheControl: Option<CacheControl>, citations: Option<seq<Citation>>)
    | Image(source: ImageSource, cacheControl: Option<CacheControl>)
    | Document(documentSource: DocumentSource, cacheControl: Option<CacheControl>, citations: Option<seq<Citation>>,
               context: Option<string>, title: Option<string>)
    | ToolUse(id: string, input: string, name: string, cacheControl: Option<CacheControl>)
    | ToolResult(toolUseId: string, cacheControl: Option<CacheControl>,
                 content: Option<seq<ToolResultContentBlock>>, isError: Option<bool>)

  /** `Content`: untagged, either a plain string or a list of blocks. */
  datatype Content = Plain(text: string) | Blocks(blocks: seq<ContentBlock>)

  datatype InputMessage = InputMessage(role: Role, content: Content)

  datatype BlockDelta = TextDelta(text: string) | InputJsonDelta(partialJson: string)

  datatype StopReason = EndTurn | MaxTokens | StopSequence | ToolUseRequested | PauseTurn | Refusal

  datatype Message = Message(
    id: string, role: Role, content: Content, model: Model,
    stopReason: Option<StopReason>, stopSequence: Option<string>)

  datatype Delta = Delta(stopReason: Option<StopReason>, stopSequence: Option<string>)

  /** `MessagesResponseEvent`, the payload of one stream frame. */
  datatype ResponseEvent =
    | Ping
    | MessageStart(message: Message)
    | MessageDelta(delta: Delta)
    | MessageStop
    | ContentBlockStart(index: nat, contentBlock: ContentBlock)
    | ContentBlockDelta(index: nat, blockDelta: BlockDelta)
    | ContentBlockStop(index: nat)

  datatype ToolChoice =
    | Auto(disableParallelToolUse: bool)
    | Any(disableParallelToolUse: bool)
    | Tool(toolName: string, disableParallelToolUse: bool)

  datatype ToolDefinition = ToolDefinition(
    name: string, inputSchema: Option<string>, description: Option<string>, cacheControl: Option<CacheControl>)

  /** The request body fields the core sets; the remaining optional ones stay at their `None` default. */
  datatype RequestBody = RequestBody(
    model: Model,
    messages: seq<InputMessage>,
    maxTokens: nat,
    stream: bool,
    system: Option<string>,
    temperature: Option<F32>,
    toolChoice: Option<ToolChoice>,
    tools: Option<seq<ToolDefinition>>)

  /** `impl Default for MessagesRequestBody`: not streaming, two thousand tokens, temperature 1.0. */
  function DefaultBody(): (b: RequestBody)
    ensures !b.stream && b.maxTokens == 2048 && b.temperature == Some(F32(0x3F80_0000))
  {
    RequestBody(ClaudeSonnet4_5, [], 2048, false, None, Some(F32(0x3F80_0000)), None, None)
  }

  datatype MessagesRequest = MessagesRequest(
    anthropicBeta: Option<seq<string>>,
    anthropicVersion: ApiVersion,
    apiKey: string,
    body: RequestBody)

  datatype ApiErrorDetails = ApiErrorDetails(errorType: string, message: string)

  datatype ApiError = ApiError(error: ApiErrorDetails)

  /** `MessagesResponse`, tagged by `type`. */
  datatype MessagesResponse = ErrorResponse(apiError: ApiError) | MessageResponse(message: Message)

  /** A `reqwest::Error`, known only by its display text. */
  datatype TransportError = TransportError(description: string)

  /** `AnthropicError`; `Serde` carries the decoder's message. */
  datatype AnthropicError =
    | StreamEnabled
    | StreamNotEnabled
    | Reqwest(transport: TransportError)
    | Serde(detail: string)
    | Api(apiError: ApiError)

  /** `impl Display for ApiError`: `type - message`. */
  function ApiErrorDisplay(e: ApiError): (r: string)
    ensures |r| == |e.error.errorType| + 3 + |e.error.message|
    ensures r[..|e.error.errorType|] == e.error.errorType
    ensures r[|e.error.errorType|..|e.error.errorType| + 3] == " - "
    ensures r[|e.error.errorType| + 3..] == e.error.message
  {
    e.error.errorType + " - " + e.error.message
  }

  /** The `thiserror` display of `AnthropicError`; the wrapped errors are transparent. */
  function AnthropicErrorDisplay(e: AnthropicError): string
  {
    match e
    case StreamEnabled => "You must set stream to false to use messages"
    case StreamNotEnabled => "You must set stream to true to use messages_stream"
    case Reqwest(t) => t.description
    case Serde(d) => d
    case Api(a) => ApiErrorDisplay(a)
  }

  /** An HTTP status code as `reqwest` holds one: three decimal digits. */
  type StatusCode = n: nat | 100 <= n <= 999 witness 200

  predicate IsSuccess(status: StatusCode) { 200 <= status <= 299 }

  function DigitChar(d: nat): char
    requires d < 10
  {
    "0123456789"[d]
  }

  predicate IsDigitChar(c: char) { '0' <= c <= '9' }

  /** The decimal rendering of `n` that `format!("{}", n)` produces. */
  function Decimal(n: nat): (r: string)
    ensures |r| > 0 && forall i :: 0 <= i < |r| ==> IsDigitChar(r[i])
    ensures n > 0 ==> r[0] != '0'
  {
    if n < 10 then [DigitChar(n)] else Decimal(n / 10) + [DigitChar(n % 10)]
  }

  /** The number a string of decimal digits denotes. */
  function DecimalValue(s: string): nat
    requires forall i :: 0 <= i < |s| ==> IsDigitChar(s[i])
  {
    if s == [] then 0
    else
      assert IsDigitChar(s[|s| - 1]);
      10 * DecimalValue(s[..|s| - 1]) + (s[|s| - 1] as int - '0' as int)
  }

  lemma {:induction false} DecimalRoundTrip(n: nat)
    ensures DecimalValue(Decimal(n)) == n
  {
    if n >= 10 {
      var r := Decimal(n);
      assert r[..|r| - 1] == Decimal(n / 10);
      DecimalRoundTrip(n / 10);
    }
  }

  /** Three digits for any status code. */
  lemma {:induction false} StatusHasThreeDigits(status: StatusCode)
    ensures |Decimal(status)| == 3
  {
    assert Decimal(status) == Decimal(status / 10) + [DigitChar(status % 10)];
    assert Decimal(status / 10) == Decimal(status / 100) + [DigitChar(status / 10 % 10)];
  }

  const HttpErrorPrefix: string := "http_error_"

  /**
   * The error for a non-success response of `messages_stream`: the body
   * decoded as an `ApiError` when it is one, otherwise a synthetic error
   * whose type carries the status and whose message is the body text.
   */
  function ErrorFromBody(status: StatusCode, text: string, decodeApiError: string -> Option<ApiError>): (r: ApiError)
    ensures decodeApiError(text).Some? ==> r == decodeApiError(text).value
    ensures decodeApiError(text).None? ==> r.error.message == text && |r.error.errorType| == |HttpErrorPrefix| + 3
    ensures decodeApiError(text).None? ==> r.error.errorType[..|HttpErrorPrefix|] == HttpErrorPrefix
  {
    StatusHasThreeDigits(status);
    match decodeApiError(text)
    case Some(e) => e
    case None => ApiError(ApiErrorDetails(HttpErrorPrefix + Decimal(status), text))
  }

  /** The synthetic error type gives back the status it was made from. */
  lemma {:induction false} FallbackCarriesStatus(status: StatusCode, text: string, decodeApiError: string -> Option<ApiError>)
    requires decodeApiError(text).None?
    ensures var t := ErrorFromBody(status, text, decodeApiError).error.errorType;
      (forall i :: |HttpErrorPrefix| <= i < |t| ==> IsDigitChar(t[i])) && DecimalValue(t[|HttpErrorPrefix|..]) == status
  {
    var t := ErrorFromBody(status, text, decodeApiError).error.errorType;
    assert t[|HttpErrorPrefix|..] == Decimal(status);
    DecimalRoundTrip(status);
  }

  /** A response as the transport reports it: the status, and the body text or a read failure. */
  datatype HttpResponse = HttpResponse(status: StatusCode, text: Result<string, TransportError>)

  /** `messages`: refuses a streaming request, and decodes whatever body comes back. */
  function Messages(request: MessagesRequest, exchange: Result<HttpResponse, TransportError>,
                    decodeResponse: string -> Result<MessagesResponse, string>): (r: Result<Message, AnthropicError>)
    ensures request.body.stream ==> r == Err(StreamEnabled)
    ensures !request.body.stream && exchange.Err? ==> r == Err(Reqwest(exchange.error))
    ensures r.Ok? ==> exists text :: exchange == Ok(HttpResponse(exchange.value.status, Ok(text)))
                                   && decodeResponse(text) == Ok(MessageResponse(r.value))
    ensures !request.body.stream && exchange.Ok? && exchange.value.text.Err? ==>
      r == Err(Reqwest(exchange.value.text.error))
    ensures !request.body.stream && exchange.Ok? && exchange.value.text.Ok? ==>
      var decoded := decodeResponse(exchange.value.text.value);
      && (decoded.Err? ==> r == Err(Serde(decoded.error)))
      && (decoded.Ok? && decoded.value.ErrorResponse? ==> r == Err(Api(decoded.value.apiError)))
      && (decoded.Ok? && decoded.value.MessageResponse? ==> r == Ok(decoded.value.message))
  {
    if request.body.stream then Err(StreamEnabled)
    else match exchange
      case Err(t) => Err(Reqwest(t))
      case Ok(response) =>
        match response.text
        case Err(t) => Err(Reqwest(t))
        case Ok(text) =>
          match decodeResponse(text)
          case Err(d) => Err(Serde(d))
          case Ok(ErrorResponse(e)) => Err(Api(e))
          case Ok(MessageResponse(m)) => Ok(m)
  }

  /**
   * `messages_stream` up to the point where the byte stream is handed to a
   * `MessageStream`: `Ok(())` means the stream was opened.
   */
  function MessagesStream(request: MessagesRequest, exchange: Result<HttpResponse, TransportError>,
                          decodeApiError: string -> Option<ApiError>): (r: Result<(), AnthropicError>)
    ensures !request.body.stream ==> r == Err(StreamNotEnabled)
    ensures request.body.stream && exchange.Err? ==> r == Err(Reqwest(exchange.error))
    ensures r.Ok? <==> request.body.stream && exchange.Ok? && IsSuccess(exchange.value.status)
    ensures request.body.stream && exchange.Ok? && !IsSuccess(exchange.value.status) && exchange.value.text.Err? ==>
      r == Err(Reqwest(exchange.value.text.error))
    ensures request.body.stream && exchange.Ok? && !IsSuccess(exchange.value.status) && exchange.value.text.Ok? ==>
      r == Err(Api(ErrorFromBody(exchange.value.status, exchange.value.text.value, decodeApiError)))
  {
    if !request.body.stream then Err(StreamNotEnabled)
    else match exchange
      case Err(t) => Err(Reqwest(t))
      case Ok(response) =>
        if IsSuccess(response.status) then Ok(())
        else match response.text
          case Err(t) => Err(Reqwest(t))
          case Ok(text) => Err(Api(ErrorFromBody(response.status, text, decodeApiError)))
  }
}
