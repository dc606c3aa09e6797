# kepoki agent runtime — a Dafny model

This project models the core of kepoki, a runtime for declarative LLM agents, and proves properties of the model. It covers these parts of the system:

- **The agent task** (`AgentTask.Agent`). It drains its command queue (pause, unpause, user message, state dump, exit). It starts a turn once the last history entry is a user message and the agent is not paused. It requests a completion and relays every stream event to its listener. It folds the events into a message and a map of content blocks, and finally appends one assistant message to its history.
- **The assembler** (`Assembler`). This is the event fold of a turn, written as functions over values. It is the specification the agent's imperative loop is proved against.
- **The runtime** (`Runtime.Runtime`). It is the registry of spawned agents with their command channels. It keeps the two pending sets that `recv` waits on: task completion and the next agent event. It covers `send`, `recv` and the `NoRunningAgents` guard.
- **The streaming client** (`Frames.MessageStream`). This is the frame reader of the Anthropic client: a byte buffer fed in chunks and drained one newline-terminated line at a time into three-line `event:` / `data:` / blank frames. Nearby pure logic is in `Client`: the error display, the `http_error_<code>` fallback, the stream guards of `messages` and `messages_stream`, and the API version string.
- **The adapter** (`AnthropicAdapter`). It holds the conversions between kepoki's canonical types and the Anthropic client's wire types, and the mapping of the client's stream results to kepoki's.
- **Names.** `AgentDefinition` covers tool names, `@namespace/name` parsed and serialised, the specification version string and the default agent. `AgentIdentifier` covers the classification of a command-line agent identifier as a path or a conventional name.

Pure Rust code becomes datatypes, functions and lemmas. The three stateful pieces become classes:

- The agent's state and channels are fields of `AgentTask.Agent`.
- The runtime's map of agents and its pending sets are fields of `Runtime.Runtime`.
- The stream's byte buffer and the transport's remaining chunks are fields of `Frames.MessageStream`.

Each method is proved against a specification function:

- `Agent.Iterate` against `Drain`, `Relay` and `Assembler.Feed`.
- `MessageStream.Recv` against `RecvResult`, a reading of all the delivered bytes at once.

Panics of the Rust code (`assert!`, `unwrap`, `todo!`, `unreachable!`) are outcomes in the model, not preconditions.

Where the code differs from the idealised behaviour, the model follows the code:

- `ContentBlockStop` removes the block from the map (kepoki/src/runtime/agent.rs:198-202). A stopped block therefore never reaches the final message; `Assembler.StoppedBlockLeavesNoContent` shows a complete text turn ending with empty content.
- The final content comes from `HashMap::into_values`, whose order is unspecified. The model states the content as a multiset (`Assembler.Bag`).
- `MessageStop` finalises nothing; finalisation happens when the stream ends.
- The delta mapping in kepoki-anthropic/src/lib.rs:39-47 builds its canonical delta from an unbound `id`. The model carries the wire `index` there, which is evidently what was meant.
- `spawn_agent` starts every agent from the default state. The definition it is given supplies only the handle's name (kepoki/src/runtime/mod.rs:61-80).
- `AgentState` (kepoki/src/runtime/agent.rs:67-73) derives no `Default`, and no `impl Default` for it is among the files modelled, so `AgentState::default()` at kepoki/src/runtime/mod.rs:77 has no definition here. The model assumes the derived default: `Agent::default()` as the definition, an empty history and `paused = false` (`AgentTask.DefaultState`).
- `recv` of the stream reads the `data:` payload as an optional event, so a JSON `null` payload ends the stream (`Ok(None)`).
- An agent that stops because its command channel closed ends with `ExitCode::FAILURE`. Since that is still `Ok`, the runtime reports it as `Completed`.
- A runtime whose only agent has exited answers `NoRunningAgents` once both of its pending entries are consumed, as `Runtime.ExitedAgentWindsDown` shows.

## Model

| member | source | states |
|---|---|---|
| Errors.ErrorDisplay | kepoki/src/error.rs:8-27 | a custom error displays as its own text; every handle-carrying error's message ends with the handle's display |
| Errors.HandleDisplay | kepoki/src/runtime/mod.rs:29-33 | a handle's Display; `Errors.DisplayDoesNotIdentify` shows it is the name alone |
| Errors.DisplayDoesNotIdentify | kepoki/src/runtime/mod.rs:29-33 | a handle displays as its name alone, so two distinct handles of one name display the same |
| AgentDefinition.SpecVersionString | kepoki/src/agent.rs:70-77 | both specification versions render "2025-07-20" |
| AgentDefinition.DefaultDefinition | kepoki/src/agent.rs:38-60 | the default agent is "conversational-agent" with its fixed description and system prompt, no model preferences, the default temperature and the latest version, and no servers, tools or resources |
| AgentDefinition.SplitOnce | kepoki/src/agent.rs:146 | splitting fails exactly when the separator is absent, and otherwise splits at its first occurrence |
| AgentDefinition.SplitOnceAt | kepoki/src/agent.rs:146 | a string split where the separator first occurs yields exactly its two parts |
| AgentDefinition.ParseToolName | kepoki/src/agent.rs:140-165 | a name without "/" is a builtin tool of that name; parsing fails, with the namespace error, exactly when the part before the first "/" does not start with "@" |
| AgentDefinition.ParseQualified | kepoki/src/agent.rs:146-157 | "@ns/rest" parses to namespace ns and name rest, split at the first "/" |
| AgentDefinition.SerializeToolName | kepoki/src/agent.rs:167-174 | serialisation is exactly "@", the namespace, "/", the name |
| AgentDefinition.ToolNameRoundTrip | kepoki/src/agent.rs:140-174 | parsing a serialised tool name whose namespace has no "/" gives it back |
| AgentDefinition.SerializeParsed | kepoki/src/agent.rs:140-174 | re-serialising a parsed name gives the original text, with "@builtin/" prefixed when it had no "/" |
| AgentIdentifier.StateAfterMeaning | kepo/src/run.rs:34 | the hand-written recogniser's state after a string says whether the string is empty, cannot become a name, or ends in the head, after a dash or inside a segment |
| AgentIdentifier.MatchesConvention | kepo/src/run.rs:34 | the hand-written recogniser of the identifier regex; `AgentIdentifier.ConventionMeansValidName` shows it accepts exactly the regex's language |
| AgentIdentifier.ConventionMeansValidName | kepo/src/run.rs:34 | the recogniser accepts exactly the strings of the form ([a-z][a-z0-9]*)(-[a-z0-9]+)* |
| AgentIdentifier.ValidNameShape | kepo/src/run.rs:34 | an accepted name is non-empty, starts with a lowercase letter, has only [a-z0-9-], does not end with "-" and has no "--" |
| AgentIdentifier.FromStr | kepo/src/run.rs:27-41 | an existing path wins whatever the text; otherwise a conventional name is Named unchanged, and anything else is the "Invalid agent identifier" error |
| Client.ApiVersionString | anthropoki/src/lib.rs:20-28 | Latest and 2023-06-01 render "2023-06-01", and only 2023-01-01 renders "2023-01-01" |
| Client.DefaultBody | anthropoki/src/lib.rs:422-446 | the default request body does not stream, allows 2048 tokens and has temperature 1.0; `AnthropicAdapter.StreamingRequest` starts from it |
| Client.ApiErrorDisplay | anthropoki/src/lib.rs:564-568 | an API error displays as its type, " - ", then its message |
| Client.Decimal | anthropoki/src/lib.rs:684 | a number renders as a non-empty string of digits without a leading zero |
| Client.DecimalRoundTrip | anthropoki/src/lib.rs:684 | reading a number's decimal rendering gives the number back |
| Client.StatusHasThreeDigits | anthropoki/src/lib.rs:684 | every HTTP status renders in three digits |
| Client.ErrorFromBody | anthropoki/src/lib.rs:675-690 | a body that decodes as an API error is returned as is; otherwise the error has type "http_error_" plus the status and the body as its message |
| Client.FallbackCarriesStatus | anthropoki/src/lib.rs:675-690 | the synthetic error type ends in digits that read back as the status code |
| Client.Messages | anthropoki/src/lib.rs:629-651 | a streaming request is refused before any exchange; a transport error or a failed body read is returned as Reqwest; a body that does not decode is Serde; a decoded error is Api; a decoded message is returned, and a result is always the decoded body of the exchange |
| Client.AnthropicErrorDisplay | anthropoki/src/lib.rs:543-554 | the client's error display, wrapped errors shown transparently; `AnthropicAdapter.ApiErrorReachesAgent` and `AnthropicAdapter.OverloadedMidStream` show an API error reaching the agent as "type - message" |
| Client.MessagesStream | anthropoki/src/lib.rs:654-696 | a non-streaming request is refused; a transport error is returned; success exactly on a 2xx status; on a failing status a failed body read is returned as Reqwest, and a body gives the body's error |
| Frames.FirstFailure | anthropoki/src/lib.rs:607-611 | the first transport failure's position, if any, holds a failure |
| Frames.FirstFailureIsFirst | anthropoki/src/lib.rs:607-611 | every chunk before that position delivered bytes, so the failure is the first one |
| Frames.SplitLine | anthropoki/src/lib.rs:591-592 | a line is taken exactly when the buffer holds a newline; it ends at the first newline, and the bytes after it stay, in order |
| Frames.TrimEndOfPadded | anthropoki/src/lib.rs:593-594 | trimming removes exactly the trailing whitespace |
| Frames.Trim | anthropoki/src/lib.rs:594 | `str::trim` on ASCII whitespace; `Frames.TrimEndOfPadded` and `Frames.TrimmedLine` state what it removes |
| Frames.TrimmedLine | anthropoki/src/lib.rs:593-594 | a line ended by "\n" or "\r\n" trims to its text |
| Frames.LineStep | anthropoki/src/lib.rs:596-604 | line 0 without "event: " is the assert! panic, else the frame moves to line 1; line 1 without "data: " is the unwrap panic, a payload that does not decode is Serde, else the frame moves to line 2 with the payload; line 2 returns the payload's event, or the end of the stream for null |
| Frames.ScanFrame | anthropoki/src/lib.rs:588-605 | reading a frame never grows the bytes; an undetermined frame leaves no complete line behind |
| Frames.ScanFrameLeavesSuffix | anthropoki/src/lib.rs:591-592 | what a frame leaves over is exactly the tail of its input, in order |
| Frames.EventLine | anthropoki/src/lib.rs:597 | an "event: " line moves a frame from line 0 to line 1 |
| Frames.DataLine | anthropoki/src/lib.rs:598 | a "data: " line whose payload decodes moves the frame to line 2 with that payload |
| Frames.ThirdLine | anthropoki/src/lib.rs:599 | any third line ends the frame with the decoded event, or with the end of the stream for a null payload |
| Frames.MalformedEventLine | anthropoki/src/lib.rs:597 | a frame whose first line is not an "event: " line ends in the assert! panic, consuming only that line |
| Frames.NextFrame | anthropoki/src/lib.rs:588-605 | the frame one call reads from the start of the bytes; `Frames.WellFormedFrame` gives a well-formed frame's event and leftover, `Frames.MalformedEventLine` the panic of a bad first line |
| Frames.WellFormedFrame | anthropoki/src/lib.rs:586-614 | a well-formed frame, with "\n" or "\r\n" line ends, decodes to its payload's event and leaves exactly the bytes after it |
| Frames.FrameStableUnderExtension | anthropoki/src/lib.rs:588-608 | once a frame is determined, later bytes only lengthen what remains buffered |
| Frames.ChunkBoundariesInvisible | anthropoki/src/lib.rs:588-611 | splitting one chunk into two never changes what recv returns |
| Frames.RecvResult | anthropoki/src/lib.rs:586-614 | the result recv promises for a buffer and the remaining chunks; `Frames.MessageStream.Recv` is proved to return it and `Frames.ChunkBoundariesInvisible` shows it ignores chunk boundaries |
| Frames.MessageStream.constructor | anthropoki/src/lib.rs:586-614 | a new stream has an empty buffer over the given chunks |
| Frames.MessageStream.DrainLines | anthropoki/src/lib.rs:591-605 | draining the buffered lines advances the frame exactly as the specification of the delivered bytes does |
| Frames.MessageStream.Recv | anthropoki/src/lib.rs:586-614 | recv returns the next frame of all bytes before the first transport failure; failing that, that failure; failing that, the end of the stream, even with a partial frame buffered; only the chunks it read are consumed |
| AnthropicAdapter.ConvertRole | kepoki-anthropic/src/lib.rs:114-119 | the role conversion; `AnthropicAdapter.ConvertRoleBijective` shows it maps User to User and Assistant to Assistant, one to one |
| AnthropicAdapter.ConvertRoleBijective | kepoki-anthropic/src/lib.rs:114-119 | roles map User to User and Assistant to Assistant, injectively and onto |
| AnthropicAdapter.ConvertMediaType | kepoki-anthropic/src/lib.rs:217-226 | the four media types to the wire's; `AnthropicAdapter.MediaTypeRoundTrip` shows it inverse to the reverse conversion |
| AnthropicAdapter.ReverseMediaType | kepoki-anthropic/src/lib.rs:228-237 | the wire's four media types back; inverse of the forward conversion by `AnthropicAdapter.MediaTypeRoundTrip` |
| AnthropicAdapter.MediaTypeRoundTrip | kepoki-anthropic/src/lib.rs:217-237 | the media-type conversions are inverse in both directions |
| AnthropicAdapter.ConvertSource | kepoki-anthropic/src/lib.rs:194-203 | a base64 source keeps its media type and data; recovered by `AnthropicAdapter.ContentBlockRoundTrip` |
| AnthropicAdapter.ReverseSource | kepoki-anthropic/src/lib.rs:205-215 | only a base64 source converts back, any other is the todo! panic (`AnthropicAdapter.ReversePanicsExactly`) |
| AnthropicAdapter.ConvertToolResultBlock | kepoki-anthropic/src/lib.rs:239-252 | one tool-result block to the wire's; `AnthropicAdapter.ToolResultBlocksRoundTrip` shows the reverse recovers it |
| AnthropicAdapter.ReverseToolResultBlock | kepoki-anthropic/src/lib.rs:254-267 | one wire tool-result block back; `AnthropicAdapter.ReverseToolResultBlocksExact` shows what converts back converts forward to itself |
| AnthropicAdapter.ConvertToolResultBlocks | kepoki-anthropic/src/lib.rs:150-154 | the element-wise conversion of a tool-result list; `AnthropicAdapter.ToolResultBlocksRoundTrip` and `AnthropicAdapter.ReverseToolResultBlocksExact` make it inverse to the reverse |
| AnthropicAdapter.ReverseToolResultBlocks | kepoki-anthropic/src/lib.rs:254-267 | a list converts back exactly when every element does, element by element |
| AnthropicAdapter.ToolResultBlocksRoundTrip | kepoki-anthropic/src/lib.rs:239-267 | converting tool-result blocks there and back gives them back |
| AnthropicAdapter.ConvertContentBlock | kepoki-anthropic/src/lib.rs:125-159 | a converted block has no cache control, a text block has no citations, and no document is produced |
| AnthropicAdapter.ReverseContentBlock | kepoki-anthropic/src/lib.rs:161-192 | a wire block back to a canonical one; `AnthropicAdapter.ReversePanicsExactly` gives its failures and `AnthropicAdapter.ReverseThenConvert` its results |
| AnthropicAdapter.ContentBlockRoundTrip | kepoki-anthropic/src/lib.rs:125-215 | reverse conversion of a converted canonical block is the block itself |
| AnthropicAdapter.ConvertContent | kepoki-anthropic/src/lib.rs:121-123 | content as a block list; `AnthropicAdapter.ConvertContentRecoverable` gives its shape |
| AnthropicAdapter.ConvertContentBlocks | kepoki-anthropic/src/lib.rs:121-123 | the element-wise conversion of a content list; `AnthropicAdapter.ConvertContentRecoverable` shows its length and that each element converts back in order |
| AnthropicAdapter.ConvertMessage | kepoki-anthropic/src/lib.rs:107-112 | a message keeps its role and content, each converted; `AnthropicAdapter.StreamingRequest` carries every message through it |
| AnthropicAdapter.ConvertContentRecoverable | kepoki-anthropic/src/lib.rs:121-123 | content always converts to a block list of the same length, each element recoverable in order |
| AnthropicAdapter.ReversePanicsExactly | kepoki-anthropic/src/lib.rs:161-215 | the reverse conversion fails exactly on documents and on non-base64 image sources |
| AnthropicAdapter.TodoIsTheOnlyPanic | kepoki-anthropic/src/lib.rs:205-215 | a tool-result list fails only by the todo! of an unsupported image source |
| AnthropicAdapter.ReverseToolResultBlocksExact | kepoki-anthropic/src/lib.rs:239-267 | a tool-result list that converts back converts forward to itself |
| AnthropicAdapter.ReverseThenConvert | kepoki-anthropic/src/lib.rs:125-192 | a wire block that converts back converts forward to itself without cache control and citations |
| AnthropicAdapter.ConvertToolChoice | kepoki-anthropic/src/lib.rs:269-289 | the tool-choice conversion; `AnthropicAdapter.ToolChoicePreserved` states what it keeps |
| AnthropicAdapter.ToolChoicePreserved | kepoki-anthropic/src/lib.rs:269-289 | tool choice keeps its variant, tool name and parallel-use flag |
| AnthropicAdapter.ConvertTool | kepoki-anthropic/src/lib.rs:291-298 | a tool keeps its name, description and schema and has no cache control |
| AnthropicAdapter.StreamingRequest | kepoki-anthropic/src/lib.rs:69-104 | the backend request always streams and carries the credentials, model, limits, system prompt, temperature and each message converted; a tool choice is present exactly when requested and is its `convert_tool_choice` image, and tools likewise, each converted in order by `convert_tool` |
| AnthropicAdapter.OpenStream | kepoki-anthropic/src/lib.rs:69-104 | opening the stream succeeds exactly on a 2xx exchange; any failure is the client's error as a custom error |
| AnthropicAdapter.StreamGuardNeverTrips | kepoki-anthropic/src/lib.rs:91 | the backend's requests never hit the "stream not enabled" guard |
| AnthropicAdapter.ApiErrorReachesAgent | kepoki-anthropic/src/lib.rs:69-104 | an API error returned by the server reaches the agent as "type - message" |
| AnthropicAdapter.ConvertEvent | kepoki-anthropic/src/lib.rs:16-53 | Ping and MessageStop keep their variants; message start and delta carry their converted payload; a text delta keeps its index and text and an input-JSON delta its index and partial JSON; block start and stop keep their index; a block start fails exactly on an unsupported block, with the todo! panic's fixed text (without the block's Debug rendering) |
| AnthropicAdapter.AdaptReceived | kepoki-anthropic/src/lib.rs:14-57 | a received event is delivered as its conversion, or as the conversion's panic; the end of a stream stays the end, a client error becomes a custom error with its display, a panic stays a panic |
| AnthropicAdapter.OverloadedMidStream | kepoki-anthropic/src/lib.rs:56 | an overloaded error mid-stream reaches the agent as "overloaded_error - busy" |
| Assembler.ApplyDelta | kepoki/src/runtime/agent.rs:138-154 | a message delta overwrites each present field and keeps absent ones and everything else |
| Assembler.DeltasCompose | kepoki/src/runtime/agent.rs:138-154 | two deltas act as their merge; a delta is idempotent; an empty delta changes nothing |
| Assembler.Step | kepoki/src/runtime/agent.rs:129-203 | each event fails exactly on its order violation (a second start, a delta or stop without a message, a start at a used index, a delta at a missing or mismatched block); ping and block stop never fail; a start records its message, a delta is applied to the open message, ping and message stop change nothing, a block start adds exactly its block; block events keep the message and message events keep the blocks |
| Assembler.StepTouchesOneIndex | kepoki/src/runtime/agent.rs:160-202 | a block event changes no other index |
| Assembler.StopThenRestart | kepoki/src/runtime/agent.rs:198-202 | a block stop always succeeds, removes the index, and lets it be started again |
| Assembler.Feed | kepoki/src/runtime/agent.rs:124-203 | a rejection names a position inside the stream |
| Assembler.FeedRejectsAtFirstViolation | kepoki/src/runtime/agent.rs:124-203 | the rejected position is the first event that fails, after an accepted prefix |
| Assembler.AcceptedPrefix | kepoki/src/runtime/agent.rs:124-203 | every prefix of an accepted stream is accepted |
| Assembler.AtMostOneStart | kepoki/src/runtime/agent.rs:131-137 | an accepted stream has at most one message start, and the message exists exactly when it had one |
| Assembler.MessageIsStartWithDeltas | kepoki/src/runtime/agent.rs:131-159 | after an accepted stream the message is the one its start carried, with every later message delta applied in order |
| Assembler.BlocksMatchLive | kepoki/src/runtime/agent.rs:160-202 | after an accepted stream the map holds exactly the started and not stopped blocks, with their deltas applied |
| Assembler.BagSize | kepoki/src/runtime/agent.rs:208 | the final content has one block per map entry |
| Assembler.BagMembers | kepoki/src/runtime/agent.rs:208 | a block is in the final content exactly when some map entry holds it |
| Assembler.BagRemove | kepoki/src/runtime/agent.rs:208 | the content multiset of a map is one entry plus the content of the rest |
| Assembler.FeedSnoc | kepoki/src/runtime/agent.rs:124-203 | feeding one more event steps the accepted assembly and keeps a rejection |
| Assembler.StoppedBlockLeavesNoContent | kepoki/src/runtime/agent.rs:198-208 | a complete text turn whose block is stopped is accepted with an empty block map and the delta's stop reason |
| AgentTask.DefaultState | kepoki/src/runtime/mod.rs:70-80 | the default state has the default agent, no history and is not paused (the derived default the source presumes) |
| AgentTask.FromResponseEvent | kepoki/src/runtime/agent.rs:53-65 | a relayed stream event is never a message, termination, completion or state dump |
| AgentTask.RelayIsFaithful | kepoki/src/runtime/agent.rs:53-65 | relaying is invertible: each stream event is recovered, and each event that reads back as a stream event was relayed from it |
| AgentTask.React | kepoki/src/runtime/agent.rs:222-255 | `handle_command` as a value; `AgentTask.CommandEffects` states each command's effect |
| AgentTask.TurnDue | kepoki/src/runtime/agent.rs:96-100 | the turn rule, last history entry from the user and not paused; `AgentTask.UserMessageMakesTurnDue` relates it to the commands |
| AgentTask.CommandEffects | kepoki/src/runtime/agent.rs:222-255 | pause and unpause set the flag; a user message appends one user text message and keeps the rest; exit is success; the task stops exactly on exit, terminate or a dump to a closed listener; only a delivered dump sends, and it sends the state |
| AgentTask.UserMessageMakesTurnDue | kepoki/src/runtime/agent.rs:96-100 | a user message makes a turn due unless paused; pausing suspends it and unpausing restores it |
| AgentTask.Drain | kepoki/src/runtime/agent.rs:88-109 | the drain takes at least one command of a non-empty queue, and takes all of them unless one stops the task |
| AgentTask.DrainCons | kepoki/src/runtime/agent.rs:88-109 | draining handles the first command, then the rest unless it stopped |
| AgentTask.DrainStopsAtFirst | kepoki/src/runtime/agent.rs:88-94 | no command before the last one taken stops the task, and the last one stops it exactly when the drain stopped |
| AgentTask.Forward | kepoki/src/runtime/agent.rs:124-127 | one event is relayed per stream event, and the i-th relayed event is the i-th stream event converted by `From` |
| AgentTask.EndOf | kepoki/src/runtime/agent.rs:124 | a recv result that is not an event ends the stream: the end of the stream, an error or a panic, each kept |
| AgentTask.StreamOf | kepoki/src/runtime/agent.rs:124 | the `while let` over recv results: the events read before the first non-event, which ends the stream; no stream while no result has ended it |
| AgentTask.Results | kepoki/src/runtime/agent.rs:124 | the recv results a stream is read from: one event result per event, then its end |
| AgentTask.StreamOfResults | kepoki/src/runtime/agent.rs:124 | reading a stream's recv results gives the stream back |
| AgentTask.ResultsOfStreamOf | kepoki/src/runtime/agent.rs:124 | the stream read from recv results is rebuilt from exactly the results up to its end; later results are never read |
| AgentTask.Relay | kepoki/src/runtime/agent.rs:124-203 | the turn's relay and fold as a value; `AgentTask.RelayedInOrder` states what it sends and returns |
| AgentTask.Finalised | kepoki/src/runtime/agent.rs:206-218 | one assistant message with the map's blocks appended, everything else kept; `AgentTask.Agent.Finish` establishes it |
| AgentTask.RelayedInOrder | kepoki/src/runtime/agent.rs:124-203 | with a listener, the turn's events are accepted exactly when the assembler accepts them; every event up to and including the rejected one is relayed, in order; a rejection is UnexpectedEvent |
| AgentTask.RejectionPersists | kepoki/src/runtime/agent.rs:124-203 | a rejected prefix fixes the outcome of the whole stream |
| AgentTask.Request | kepoki/src/runtime/agent.rs:112-120 | the request carries the model, the whole history, 8192 tokens, the prompt as system, the temperature, and no tools |
| AgentTask.Agent.constructor | kepoki/src/runtime/agent.rs:75-82 | a new agent has the default state, empty queues and open channels |
| AgentTask.Agent.HandleCommand | kepoki/src/runtime/agent.rs:222-255 | the new state, the events sent and the stop are those of the command's reaction |
| AgentTask.Agent.TakeCommand | kepoki/src/runtime/agent.rs:89-94 | taking one command pops it and leaves the drain of the rest equal to the drain of the whole |
| AgentTask.Agent.DrainQueue | kepoki/src/runtime/agent.rs:88-109 | the queue is drained exactly as the drain specification says |
| AgentTask.Agent.PollCommands | kepoki/src/runtime/agent.rs:88-109 | after the drain the task stops on a stopping command, ends in failure when the command channel is closed, starts a turn when one is due, and otherwise waits |
| AgentTask.Agent.Absorb | kepoki/src/runtime/agent.rs:129-203 | one event updates the open message and the block map exactly as the assembler's step, and fails exactly when it does |
| AgentTask.Agent.Pump | kepoki/src/runtime/agent.rs:124-203 | the turn's event loop relays and assembles exactly as the relay specification says |
| AgentTask.Agent.Collect | kepoki/src/runtime/agent.rs:208 | the final content holds the map's blocks as a multiset |
| AgentTask.Agent.Finish | kepoki/src/runtime/agent.rs:206-218 | without a message the turn fails with NoMessageReceived; otherwise exactly one assistant message with the map's blocks is appended and the message is sent, or the task fails when the listener is gone |
| AgentTask.Agent.RunTurn | kepoki/src/runtime/agent.rs:111-218 | a turn requests, relays, assembles and finalises as the turn specification says, including every error path |
| AgentTask.Agent.Iterate | kepoki/src/runtime/agent.rs:85-220 | one pass of the task loop drains the commands and, when a turn is due, runs it; the outcome is recorded exactly when the pass ends the task |
| Runtime.Completion | kepoki/src/runtime/mod.rs:127-133 | a task's result as the runtime reports it; `Runtime.CompletionReports` states the mapping |
| Runtime.CompletionReports | kepoki/src/runtime/mod.rs:127-133 | a task result is reported as Completed with the agent's handle exactly when it exited, and as Terminated otherwise, carrying the error's display |
| Runtime.Runtime.constructor | kepoki/src/runtime/mod.rs:47-53 | a new runtime has no agents and nothing pending |
| Runtime.Runtime.SpawnAgent | kepoki/src/runtime/mod.rs:55-102 | spawning registers exactly one new handle named after the definition, keeps all other agents, starts the agent from the default state, and adds exactly one pending completion and one pending receive for it |
| Runtime.Runtime.Send | kepoki/src/runtime/mod.rs:104-119 | terminate panics; an unknown or finished agent is AgentNotFound with nothing changed; otherwise exactly the command is queued |
| Runtime.Runtime.Recv | kepoki/src/runtime/mod.rs:121-150 | recv fails with NoRunningAgents exactly when nothing is pending; a completed task is reported and its entry removed; an agent event is delivered in order and its receive re-armed; a closed, empty channel is AgentNotFound and is not re-armed; agents are never removed |
| Runtime.Runtime.JoinThread | kepoki/src/runtime/mod.rs:127-133 | a finished task is reported once and its entry removed; otherwise nothing is ready |
| Runtime.Runtime.ReceiveEvent | kepoki/src/runtime/mod.rs:134-149 | the oldest event is delivered and the receive stays pending; a closed, empty channel is AgentNotFound and removed; nothing else changes |
| Runtime.ExitedAgentWindsDown | kepoki/src/runtime/mod.rs:121-150 | an agent told to exit is reported Completed, its receive then fails with AgentNotFound, and recv then answers NoRunningAgents |
| Runtime.DumpIsDeliveredAndRearmed | kepoki/src/runtime/mod.rs:134-149 | a state dump reaches the runtime as the agent's default state, and nothing further is ready |

## Left out

- HTTP transport: the reqwest client, headers and `send()`. The exchange (status and body text, or a transport error) is an input.
- JSON: serde encoding and decoding. Decoding is an abstract function parameter. `from_utf8_lossy` is the identity on the bytes, and the request bodies are not serialised.
- `kepoki/src/backend.rs` is not part of this model. Its canonical types are inferred from their use, and the `into` conversions of the client's message and delta are function parameters.
- Concurrency: threads, `JoinSet`, `select!`, channel delivery and `thread::sleep`. The choice `select!` makes is the `Pick` argument of `Recv`. The sleep of an idle agent is an `Idle` iteration. The endless `run` loop is repeated calls of `Agent.Iterate`. Channel capacity and wake-up order are not modelled.
- Tokio's `JoinError` display is abstracted as the panic's reason string.
- Randomness: a UUID becomes a counter, so handles are fresh and never reused.
- UUIDs are not 16 random bytes.
- Floating point: `f32` values are opaque bit patterns.
- Whitespace: trimming treats only ASCII whitespace as space, not the other Unicode space characters.
- Runtime.Runtime: all agents of one runtime share one model type parameter, whereas the Rust runtime accepts any backend type per agent.
- AnthropicAdapter.UnsupportedBlockPanic: the `todo!` message of an unsupported block is its fixed text only; the `{:?}` Debug rendering of the block that Rust appends is not carried, because derived Debug formatting is outside this model.
- Frames.MessageStream.Recv: the frame counter is written `phase + 1` instead of `(phase + 1) % 3`. The two agree, because the counter never wraps: line 2 always returns.
- AgentTask.DefaultState: assumes the derived `Default` of `AgentState`, which the source does not declare; a hand-written default elsewhere would not be captured.
- Agent definitions: the serde rename of the specification version (`"2027-07-20"`) is not modelled; only its `as_ref` string is.
- Bedrock backend, MCP servers, the CLI (`kepo` beyond `AgentIdentifier::from_str`) and the examples are not modelled.
- Hooks are not modelled.
- Logging (`tracing`) has no effect on the model.
