/**
 * The Anthropic backend of kepoki (kepoki-anthropic/src/lib.rs): converters
 * from the canonical request types to the Anthropic wire types, the partial
 * reverse conversion of response content, the backend's streaming request,
 * and the mapping of the client stream's results into canonical ones.
 *
 * The conversions of a wire `Message` and `Delta` into canonical ones are
 * `Into` implementations outside this model; they are parameters here.
 */
module AnthropicAdapter {
  import opened Wrappers
  import opened Errors
  import K = Backend
  import A = Client
  import F = Frames

  /** The panic message of the `todo!` for an unsupported block. */
  const UnsupportedBlockPanic: string := "not yet implemented: Unsupported content block type"

  // ----- roles and media types -----

  function ConvertRole(role: K.Role): A.Role
  {
    match role
    case User => A.Role.User
    case Assistant => A.Role.Assistant
  }

  /** `convert_role` keeps the role and is a bijection between the two role types. */
  lemma ConvertRoleBijective(k1: K.Role, k2: K.Role, a: A.Role)
    ensures ConvertRole(K.Role.User) == A.Role.User && ConvertRole(K.Role.Assistant) == A.Role.Assistant
    ensures ConvertRole(k1) == ConvertRole(k2) ==> k1 == k2
    ensures exists k :: ConvertRole(k) == a
  {
    if a.User? {
      assert ConvertRole(K.Role.User) == a;
    } else {
      assert ConvertRole(K.Role.Assistant) == a;
    }
  }

  function ConvertMediaType(m: K.ImageMediaType): A.ImageMediaType
  {
    match m
    case Jpeg => A.ImageMediaType.Jpeg
    case Png => A.ImageMediaType.Png
    case Gif => A.ImageMediaType.Gif
    case Webp => A.ImageMediaType.Webp
  }

  function ReverseMediaType(m: A.ImageMediaType): K.ImageMediaType
  {
    match m
    case Jpeg => K.ImageMediaType.Jpeg
    case Png => K.ImageMediaType.Png
    case Gif => K.ImageMediaType.Gif
    case Webp => K.ImageMediaType.Webp
  }

  /** The two media type conversions are inverse to each other. */
  lemma MediaTypeRoundTrip(m: K.ImageMediaType, w: A.ImageMediaType)
    ensures ReverseMediaType(ConvertMediaType(m)) == m
    ensures ConvertMediaType(ReverseMediaType(w)) == w
  {
  }

  // ----- image sources and tool results -----

  function ConvertSource(source: K.ImageSource): A.ImageSource
  {
    A.Base64(source.data, ConvertMediaType(source.mediaType))
  }

  /** Only base64 sources convert back; the others are a `todo!`. */
  function ReverseSource(source: A.ImageSource): Result<K.ImageSource, string>
  {
    match source
    case Base64(data, mediaType) => Ok(K.Base64(data, ReverseMediaType(mediaType)))
    case _ => Err(TodoPanic)
  }

  function ConvertToolResultBlock(block: K.ToolResultContentBlock): A.ToolResultContentBlock
  {
    match block
    case ToolResultText(text) => A.ToolResultText(text)
    case ToolResultImage(source) => A.ToolResultImage(ConvertSource(source))
  }

  function ReverseToolResultBlock(block: A.ToolResultContentBlock): Result<K.ToolResultContentBlock, string>
  {
    match block
    case ToolResultText(text) => Ok(K.ToolResultText(text))
    case ToolResultImage(source) =>
      match ReverseSource(source)
      case Err(p) => Err(p)
      case Ok(s) => Ok(K.ToolResultImage(s))
  }

  function ConvertToolResultBlocks(blocks: seq<K.ToolResultContentBlock>): seq<A.ToolResultContentBlock>
  {
    seq(|blocks|, i requires 0 <= i < |blocks| => ConvertToolResultBlock(blocks[i]))
  }

  /**
   * `map(reverse_convert_tool_result_content_block).collect()`: the first
   * block that panics, in order, decides the panic.
   */
  function ReverseToolResultBlocks(blocks: seq<A.ToolResultContentBlock>): (r: Result<seq<K.ToolResultContentBlock>, string>)
    ensures r.Ok? <==> forall i :: 0 <= i < |blocks| ==> ReverseToolResultBlock(blocks[i]).Ok?
    ensures r.Ok? ==> |r.value| == |blocks| && forall i :: 0 <= i < |blocks| ==> ReverseToolResultBlock(blocks[i]) == Ok(r.value[i])
  {
    if blocks == [] then Ok([])
    else match ReverseToolResultBlock(blocks[0])
      case Err(p) => Err(p)
      case Ok(b) =>
        match ReverseToolResultBlocks(blocks[1..])
        case Err(p) => Err(p)
        case Ok(rest) => Ok([b] + rest)
  }

  // ----- content blocks -----

  /** The wire block for a canonical one; cache control and citations are never set. */
  function ConvertContentBlock(block: K.ContentBlock): (r: A.ContentBlock)
    ensures r.cacheControl.None?
    ensures r.Text? ==> r.citations.None?
    ensures !r.Document?
  {
    match block
    case Text(text) => A.ContentBlock.Text(text, None, None)
    case Image(source) => A.ContentBlock.Image(ConvertSource(source), None)
    case ToolUse(id, name, input) => A.ContentBlock.ToolUse(id, input, name, None)
    case ToolResult(toolUseId, content, isError) =>
      A.ContentBlock.ToolResult(toolUseId, None,
        if content.Some? then Some(ConvertToolResultBlocks(content.value)) else None, isError)
  }

  /** `reverse_convert_content_block`; a `todo!` is an `Err` carrying its panic message. */
  function ReverseContentBlock(block: A.ContentBlock): Result<K.ContentBlock, string>
  {
    match block
    case Text(text, _, _) => Ok(K.ContentBlock.Text(text))
    case Image(source, _) =>
      (match ReverseSource(source)
       case Err(p) => Err(p)
       case Ok(s) => Ok(K.ContentBlock.Image(s)))
    case ToolUse(id, input, name, _) => Ok(K.ContentBlock.ToolUse(id, name, input))
    case ToolResult(toolUseId, _, content, isError) =>
      (if content.None? then Ok(K.ContentBlock.ToolResult(toolUseId, None, isError))
       else match ReverseToolResultBlocks(content.value)
         case Err(p) => Err(p)
         case Ok(c) => Ok(K.ContentBlock.ToolResult(toolUseId, Some(c), isError)))
    case Document(_, _, _, _, _) => Err(UnsupportedBlockPanic)
  }

  function ConvertContentBlocks(blocks: seq<K.ContentBlock>): seq<A.ContentBlock>
  {
    seq(|blocks|, i requires 0 <= i < |blocks| => ConvertContentBlock(blocks[i]))
  }

  function ConvertContent(content: seq<K.ContentBlock>): A.Content
  {
    A.Blocks(ConvertContentBlocks(content))
  }

  function ConvertMessage(message: K.InputMessage): A.InputMessage
  {
    A.InputMessage(ConvertRole(message.role), ConvertContent(message.content))
  }

  /** Tool-result contents convert back to themselves. */
  lemma {:induction false} ToolResultBlocksRoundTrip(blocks: seq<K.ToolResultContentBlock>)
    ensures ReverseToolResultBlocks(ConvertToolResultBlocks(blocks)) == Ok(blocks)
  {
    if blocks != [] {
      assert ConvertToolResultBlocks(blocks)[1..] == ConvertToolResultBlocks(blocks[1..]);
      ToolResultBlocksRoundTrip(blocks[1..]);
      MediaTypeRoundTrip(if blocks[0].ToolResultImage? then blocks[0].source.mediaType else K.Jpeg, A.Jpeg);
      assert [blocks[0]] + blocks[1..] == blocks;
    }
  }

  /** Every canonical block survives the trip to the wire and back. */
  lemma ContentBlockRoundTrip(block: K.ContentBlock)
    ensures ReverseContentBlock(ConvertContentBlock(block)) == Ok(block)
  {
    match block
    case Image(source) => MediaTypeRoundTrip(source.mediaType, A.Jpeg);
    case ToolResult(_, content, _) =>
      if content.Some? {
        ToolResultBlocksRoundTrip(content.value);
      }
    case _ =>
  }

  /** `convert_content` gives `Blocks`, one per input block, in order, each recoverable. */
  lemma ConvertContentRecoverable(content: seq<K.ContentBlock>)
    ensures ConvertContent(content).Blocks?
    ensures |ConvertContent(content).blocks| == |content|
    ensures forall i :: 0 <= i < |content| ==> ReverseContentBlock(ConvertContent(content).blocks[i]) == Ok(content[i])
  {
    forall i | 0 <= i < |content|
      ensures ReverseContentBlock(ConvertContent(content).blocks[i]) == Ok(content[i])
    {
      ContentBlockRoundTrip(content[i]);
    }
  }

  /** A wire image source the reverse conversion does not support. */
  predicate UnsupportedSource(source: A.ImageSource) { !source.Base64? }

  /** Wire blocks that hit a `todo!` when converted back. */
  predicate Unsupported(block: A.ContentBlock)
  {
    || block.Document?
    || (block.Image? && UnsupportedSource(block.source))
    || (block.ToolResult? && block.content.Some?
        && exists i :: 0 <= i < |block.content.value| && block.content.value[i].ToolResultImage?
                       && UnsupportedSource(block.content.value[i].source))
  }

  /** The reverse conversion panics exactly on documents and on non-base64 images, nested ones included. */
  lemma ReversePanicsExactly(block: A.ContentBlock)
    ensures ReverseContentBlock(block).Err? <==> Unsupported(block)
    ensures block.Document? ==> ReverseContentBlock(block) == Err(UnsupportedBlockPanic)
    ensures ReverseContentBlock(block).Err? && !block.Document? ==> ReverseContentBlock(block) == Err(TodoPanic)
  {
    if block.ToolResult? && block.content.Some? {
      var c := block.content.value;
      if Unsupported(block) {
        var i :| 0 <= i < |c| && c[i].ToolResultImage? && UnsupportedSource(c[i].source);
        assert ReverseToolResultBlock(c[i]).Err?;
      } else {
        assert forall i :: 0 <= i < |c| ==> ReverseToolResultBlock(c[i]).Ok?;
      }
      if ReverseToolResultBlocks(c).Err? {
        TodoIsTheOnlyPanic(c);
      }
    }
  }

  /** A nested tool-result conversion can only fail with the plain `todo!`. */
  lemma {:induction false} TodoIsTheOnlyPanic(blocks: seq<A.ToolResultContentBlock>)
    ensures ReverseToolResultBlocks(blocks).Err? ==> ReverseToolResultBlocks(blocks) == Err(TodoPanic)
  {
    if blocks != [] {
      TodoIsTheOnlyPanic(blocks[1..]);
    }
  }

  /** A wire block with its cache control and citations dropped. */
  function Stripped(block: A.ContentBlock): A.ContentBlock
  {
    match block
    case Text(text, _, _) => A.ContentBlock.Text(text, None, None)
    case Image(source, _) => A.ContentBlock.Image(source, None)
    case ToolUse(id, input, name, _) => A.ContentBlock.ToolUse(id, input, name, None)
    case ToolResult(toolUseId, _, content, isError) => A.ContentBlock.ToolResult(toolUseId, None, content, isError)
    case Document(_, _, _, _, _) => block
  }

  /** Tool-result contents that convert back are recreated exactly. */
  lemma {:induction false} ReverseToolResultBlocksExact(blocks: seq<A.ToolResultContentBlock>)
    requires ReverseToolResultBlocks(blocks).Ok?
    ensures ConvertToolResultBlocks(ReverseToolResultBlocks(blocks).value) == blocks
  {
    var back := ReverseToolResultBlocks(blocks).value;
    forall i | 0 <= i < |blocks|
      ensures ConvertToolResultBlock(back[i]) == blocks[i]
    {
      assert ReverseToolResultBlock(blocks[i]) == Ok(back[i]);
      if blocks[i].ToolResultImage? {
        MediaTypeRoundTrip(K.Jpeg, blocks[i].source.mediaType);
      }
    }
  }

  /** What the reverse conversion loses is exactly cache control and citations. */
  lemma ReverseThenConvert(block: A.ContentBlock)
    requires ReverseContentBlock(block).Ok?
    ensures ConvertContentBlock(ReverseContentBlock(block).value) == Stripped(block)
  {
    match block
    case Image(source, _) => MediaTypeRoundTrip(K.Jpeg, source.mediaType);
    case ToolResult(_, _, content, _) =>
      if content.Some? {
        ReverseToolResultBlocksExact(content.value);
      }
    case _ =>
  }

  // ----- tools -----

  function ConvertToolChoice(choice: K.ToolChoice): A.ToolChoice
  {
    match choice
    case Auto(d) => A.ToolChoice.Auto(d)
    case Any(d) => A.ToolChoice.Any(d)
    case Tool(name, d) => A.ToolChoice.Tool(name, d)
  }

  /** `convert_tool_choice` keeps the variant, the tool name and the parallel-use flag. */
  lemma ToolChoicePreserved(choice: K.ToolChoice)
    ensures var w := ConvertToolChoice(choice);
      && (w.Auto? <==> choice.Auto?) && (w.Any? <==> choice.Any?) && (w.Tool? <==> choice.Tool?)
      && w.disableParallelToolUse == choice.disableParallelToolUse
      && (choice.Tool? ==> w.toolName == choice.toolName)
  {
  }

  function ConvertTool(tool: K.ToolDefinition): (r: A.ToolDefinition)
    ensures r.cacheControl.None?
    ensures r.name == tool.name && r.description == tool.description && r.inputSchema == tool.inputSchema
  {
    A.ToolDefinition(tool.name, tool.inputSchema, tool.description, None)
  }

  // ----- the backend -----

  /** `AnthropicBackend`: the beta flags, API version and key sent with every request. */
  datatype AnthropicBackend = AnthropicBackend(betas: Option<seq<string>>, version: A.ApiVersion, apiKey: string)

  /** The wire request `messages` sends: always streaming, every message converted in order. */
  function StreamingRequest(backend: AnthropicBackend, request: K.MessagesRequest<A.Model>): (r: A.MessagesRequest)
    ensures r.body.stream
    ensures r.anthropicBeta == backend.betas && r.anthropicVersion == backend.version && r.apiKey == backend.apiKey
    ensures r.body.model == request.model && r.body.maxTokens == request.maxTokens
    ensures r.body.system == request.system && r.body.temperature == request.temperature
    ensures |r.body.messages| == |request.messages|
    ensures forall i :: 0 <= i < |request.messages| ==> r.body.messages[i] == ConvertMessage(request.messages[i])
    ensures r.body.toolChoice.Some? <==> request.toolChoice.Some?
    ensures r.body.tools.Some? <==> request.tools.Some?
    ensures request.toolChoice.Some? ==> r.body.toolChoice == Some(ConvertToolChoice(request.toolChoice.value))
    ensures request.tools.Some? ==>
      && |r.body.tools.value| == |request.tools.value|
      && forall i :: 0 <= i < |request.tools.value| ==> r.body.tools.value[i] == ConvertTool(request.tools.value[i])
  {
    A.MessagesRequest(
      backend.betas, backend.version, backend.apiKey,
      A.DefaultBody().(
        model := request.model,
        messages := seq(|request.messages|, i requires 0 <= i < |request.messages| => ConvertMessage(request.messages[i])),
        maxTokens := request.maxTokens,
        stream := true,
        system := request.system,
        temperature := request.temperature,
        toolChoice := if request.toolChoice.Some? then Some(ConvertToolChoice(request.toolChoice.value)) else None,
        tools := if request.tools.Some? then
          Some(seq(|request.tools.value|, i requires 0 <= i < |request.tools.value| => ConvertTool(request.tools.value[i])))
        else None))
  }

  /**
   * `Backend::messages`: opens the stream, and turns any client error into
   * a `CustomError` showing that error.
   */
  function OpenStream(backend: AnthropicBackend, request: K.MessagesRequest<A.Model>,
                      exchange: Result<A.HttpResponse, A.TransportError>,
                      decodeApiError: string -> Option<A.ApiError>): (r: Result<(), KepokiError>)
    ensures r.Ok? <==> exchange.Ok? && A.IsSuccess(exchange.value.status)
    ensures r.Err? ==> exists e :: A.MessagesStream(StreamingRequest(backend, request), exchange, decodeApiError) == Err(e)
                                   && r.error == CustomError(A.AnthropicErrorDisplay(e))
  {
    match A.MessagesStream(StreamingRequest(backend, request), exchange, decodeApiError)
    case Ok(_) => Ok(())
    case Err(e) => Err(CustomError(A.AnthropicErrorDisplay(e)))
  }

  /** The backend's request never trips the `stream = false` guard. */
  lemma StreamGuardNeverTrips(backend: AnthropicBackend, request: K.MessagesRequest<A.Model>,
                              exchange: Result<A.HttpResponse, A.TransportError>,
                              decodeApiError: string -> Option<A.ApiError>)
    ensures A.MessagesStream(StreamingRequest(backend, request), exchange, decodeApiError) != Err(A.StreamNotEnabled)
  {
  }

  /** An API error body on a failed status reaches the agent as `type - message`. */
  lemma ApiErrorReachesAgent(backend: AnthropicBackend, request: K.MessagesRequest<A.Model>,
                             status: A.StatusCode, body: string,
                             decodeApiError: string -> Option<A.ApiError>, errorType: string, message: string)
    requires !A.IsSuccess(status)
    requires decodeApiError(body) == Some(A.ApiError(A.ApiErrorDetails(errorType, message)))
    ensures OpenStream(backend, request, Ok(A.HttpResponse(status, Ok(body))), decodeApiError)
         == Err(CustomError(errorType + " - " + message))
    ensures ErrorDisplay(CustomError(errorType + " - " + message)) == errorType + " - " + message
  {
  }

  // ----- the stream -----

  /**
   * One wire event as a canonical one. A block delta carries the wire
   * event's index; a block start converts its block back, which may panic.
   */
  function ConvertEvent(event: A.ResponseEvent, intoMessage: A.Message -> K.Message,
                        intoDelta: A.Delta -> K.Delta): (r: Result<K.ResponseEvent, string>)
    ensures event.Ping? ==> r == Ok(K.Ping)
    ensures event.MessageStop? ==> r == Ok(K.MessageStop)
    ensures event.ContentBlockStop? ==> r == Ok(K.ContentBlockStop(event.index))
    ensures event.ContentBlockStart? ==>
      && (r.Ok? <==> !Unsupported(event.contentBlock))
      && (r.Ok? ==> r.value.ContentBlockStart? && r.value.index == event.index
                    && ConvertContentBlock(r.value.block) == Stripped(event.contentBlock))
    ensures event.ContentBlockDelta? ==> r.Ok? && r.value.ContentBlockDelta? && r.value.blockDelta.Index() == event.index
    ensures event.ContentBlockDelta? && event.blockDelta.TextDelta? ==>
      r == Ok(K.ContentBlockDelta(K.TextDelta(event.index, event.blockDelta.text)))
    ensures event.ContentBlockDelta? && event.blockDelta.InputJsonDelta? ==>
      r == Ok(K.ContentBlockDelta(K.InputJsonDelta(event.index, event.blockDelta.partialJson)))
    ensures event.MessageStart? ==> r == Ok(K.MessageStart(intoMessage(event.message)))
    ensures event.MessageDelta? ==> r == Ok(K.MessageDelta(intoDelta(event.delta)))
    ensures event.ContentBlockStart? && r.Err? ==>
      r.error == if event.contentBlock.Document? then UnsupportedBlockPanic else TodoPanic
  {
    match event
    case Ping => Ok(K.Ping)
    case MessageStart(message) => Ok(K.MessageStart(intoMessage(message)))
    case MessageDelta(delta) => Ok(K.MessageDelta(intoDelta(delta)))
    case MessageStop => Ok(K.MessageStop)
    case ContentBlockStart(index, block) =>
      ReversePanicsExactly(block);
      (match ReverseContentBlock(block)
       case Err(p) => Err(p)
       case Ok(b) =>
         ReverseThenConvert(block);
         Ok(K.ContentBlockStart(index, b)))
    case ContentBlockDelta(index, delta) =>
      (match delta
       case TextDelta(text) => Ok(K.ContentBlockDelta(K.TextDelta(index, text)))
       case InputJsonDelta(partialJson) => Ok(K.ContentBlockDelta(K.InputJsonDelta(index, partialJson))))
    case ContentBlockStop(index) => Ok(K.ContentBlockStop(index))
  }

  /** `AnthropicMessageStream::recv`: one result of the client stream as a canonical one. */
  function AdaptReceived(result: F.StreamResult, intoMessage: A.Message -> K.Message,
                         intoDelta: A.Delta -> K.Delta): (r: K.Received)
    ensures result.Finished? <==> r.EndOfStream?
    ensures result.Failed? <==> r.Error?
    ensures result.Failed? ==> r.error == CustomError(A.AnthropicErrorDisplay(result.error))
    ensures result.Panicked? ==> r == K.Panic(result.reason)
    ensures result.Next? ==> (r.Event? <==> ConvertEvent(result.event, intoMessage, intoDelta).Ok?)
    ensures result.Next? ==>
      var c := ConvertEvent(result.event, intoMessage, intoDelta);
      r == if c.Ok? then K.Event(c.value) else K.Panic(c.error)
  {
    match result
    case Next(event) =>
      (match ConvertEvent(event, intoMessage, intoDelta)
       case Ok(e) => K.Event(e)
       case Err(p) => K.Panic(p))
    case Finished => K.EndOfStream
    case Failed(err) => K.Error(CustomError(A.AnthropicErrorDisplay(err)))
    case Panicked(p) => K.Panic(p)
  }

  /** An overloaded API error mid-stream reaches the agent as the text `overloaded_error - busy`. */
  lemma OverloadedMidStream(intoMessage: A.Message -> K.Message, intoDelta: A.Delta -> K.Delta)
    ensures var r := AdaptReceived(F.Failed(A.Api(A.ApiError(A.ApiErrorDetails("overloaded_error", "busy")))),
                                   intoMessage, intoDelta);
      r.Error? && ErrorDisplay(r.error) == "overloaded_error - busy"
  {
  }
}
