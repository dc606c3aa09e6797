/**
 * `KepokiError` (kepoki/src/error.rs) and the `AgentHandle` it mentions
 * (kepoki/src/runtime/mod.rs). Errors that wrap a foreign error carry that
 * error's display text.
 */
module Errors {

  /** A running agent's identity: its definition's name plus an identifier never reused. */
  datatype AgentHandle = AgentHandle(name: string, uuid: nat)

  /** `impl Display for AgentHandle`: only the name is shown, never the identifier. */
  function HandleDisplay(h: AgentHandle): string
  {
    h.name
  }

  /** Two instances of one definition are distinct handles that display alike. */
  lemma {:induction false} DisplayDoesNotIdentify(name: string, a: nat, b: nat)
    requires a != b
    ensures AgentHandle(name, a) != AgentHandle(name, b)
    ensures HandleDisplay(AgentHandle(name, a)) == HandleDisplay(AgentHandle(name, b)) == name
  {
  }

  /** The panic message of `todo!()`. */
  const TodoPanic: string := "not yet implemented"

  datatype KepokiError =
    | McpServerError(detail: string)
    | JoinFailed(detail: string)
    | NoRunningAgents
    | AgentNotFound(handle: AgentHandle)
    | AgentManuallyTerminated(handle: AgentHandle)
    | EventReceiverClosed(handle: AgentHandle)
    | UnexpectedEvent(handle: AgentHandle)
    | NoMessageReceived(handle: AgentHandle)
    | CustomError(detail: string)

  /** The `thiserror` messages; `CustomError` is transparent and shows the wrapped error. */
  function ErrorDisplay(e: KepokiError): (r: string)
    ensures e.CustomError? ==> r == e.detail
    ensures (e.AgentNotFound? || e.AgentManuallyTerminated? || e.EventReceiverClosed?
             || e.UnexpectedEvent? || e.NoMessageReceived?) ==>
           |HandleDisplay(e.handle)| <= |r| && r[|r| - |HandleDisplay(e.handle)|..] == HandleDisplay(e.handle)
  {
    match e
    case McpServerError(d) => "Error with MCP server: " + d
    case JoinFailed(d) => "Failed to join thread: " + d
    case NoRunningAgents => "Attempted to communicate with the runtime without running agents"
    case AgentNotFound(h) => "Agent does not exist: " + HandleDisplay(h)
    case AgentManuallyTerminated(h) => "Agent manually terminated: " + HandleDisplay(h)
    case EventReceiverClosed(h) => "Agent event receiver closed unexpectedly: " + HandleDisplay(h)
    case UnexpectedEvent(h) => "Unexpected event received for agent " + HandleDisplay(h)
    case NoMessageReceived(h) => "No message received from backend for agent: " + HandleDisplay(h)
    case CustomError(d) => d
  }
}
