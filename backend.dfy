/**
 * The canonical, backend-independent types of `kepoki::backend`.
 * That file is not part of this model; the shapes below are the ones its
 * users (`kepoki/src/runtime/agent.rs`, `kepoki-anthropic/src/lib.rs`)
 * construct and take apart.
 */
module Backend {
  import opened Wrappers
  import opened Floats
  import opened Errors

  datatype Role = User | Assistant

  datatype ImageMediaType = Jpeg | Png | Gif | Webp

  datatype ImageSource = Base64(data: string, mediaType: ImageMediaType)

  datatype ToolResultContentBlock =
    | ToolResultText(text: string)
    | ToolResultImage(source: ImageSource)

  /** One unit of message content; `input` of a tool use is JSON text grown by deltas. */
  datatype ContentBlock =
    | Text(text: string)
    | Image(source: ImageSource)
    | ToolUse(id: string, name: string, input: string)
    | ToolResult(toolUseId: string, content: Option<seq<ToolResultContentBlock>>, isError: Option<bool>)

  datatype InputMessage = InputMessage(role: Role, content: seq<ContentBlock>)

  datatype StopReason = EndTurn | MaxTokens | StopSequence | ToolUseRequested | PauseTurn | Refusal

  datatype Usage = Usage(inputTokens: nat, outputTokens: nat)

  datatype Message = Message(
    id: string,
    role: Role,
    content: seq<ContentBlock>,
    stopReason: Option<StopReason>,
    stopSequence: Option<string>,
    usage: Option<Usage>)

  /** `MessageDelta`: every field is optional; a present field overwrites. */
  datatype Delta = Delta(stopReason: Option<StopReason>, stopSequence: Option<string>, usage: Option<Usage>)

  /** `ContentBlockDelta { Text { index, text } | InputJson { index, partial_json } }` */
  datatype BlockDelta =
    | TextDelta(index: nat, text: string)
    | InputJsonDelta(index: nat, partialJson: string)
  {
    function Index(): nat {
      match this
      case TextDelta(i, _) => i
      case InputJsonDelta(i, _) => i
    }
  }

  /** `MessagesResponseEvent`, the canonical streaming event. */
  datatype ResponseEvent =
    | Ping
    | MessageStart(message: Message)
    | MessageDelta(delta: Delta)
    | MessageStop
    | ContentBlockStart(index: nat, block: ContentBlock)
    | ContentBlockDelta(blockDelta: BlockDelta)
    | ContentBlockStop(index: nat)

  datatype ToolChoice =
    | Auto(disableParallelToolUse: bool)
    | Any(disableParallelToolUse: bool)
    | Tool(toolName: string, disableParallelToolUse: bool)

  datatype ToolDefinition = ToolDefinition(name: string, description: Option<string>, inputSchema: Option<string>)

  /** `MessagesRequest`, generic over the backend's model identifier. */
  datatype MessagesRequest<M> = MessagesRequest(
    model: M,
    messages: seq<InputMessage>,
    maxTokens: nat,
    system: Option<string>,
    temperature: Option<F32>,
    toolChoice: Option<ToolChoice>,
    tools: Option<seq<ToolDefinition>>)

  /**
   * What one call of `MessageStream::recv` gives back: an event, the end of
   * the stream (`Ok(None)`), an error, or a panic of the code below it.
   */
  datatype Received =
    | Event(event: ResponseEvent)
    | EndOfStream
    | Error(error: KepokiError)
    | Panic(reason: string)
}
