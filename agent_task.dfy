/**
 * The agent's blocking thread (kepoki/src/runtime/agent.rs): a `class
 * Agent` whose methods drain the command queue, handle each command, and
 * run one conversation turn against the backend, relaying every streaming
 * event and assembling the assistant message.
 *
 * The two channels are fields: `commands` holds the commands sent but not
 * yet received, `emitted` the events sent but not yet received by the
 * runtime; `senderAlive` and `receiverAlive` say whether the other end of
 * each channel still exists. The backend is a function from the request
 * to the stream it answers with.
 */
module AgentTask {
  import opened Wrappers
  import opened Errors
  import K = Backend
  import D = AgentDefinition
  import S = Assembler

  datatype AgentCommand = Exit | Pause | Unpause | Terminate | DumpState | UserMessage(text: string)

  /** The agent's definition, its conversation history and whether it is paused. */
  datatype AgentState = AgentState(definition: D.Definition, messages: seq<K.InputMessage>, paused: bool)

  /** `AgentState::default()`: the default definition, no history, running. */
  function DefaultState(): (st: AgentState)
    ensures st.messages == [] && !st.paused && st.definition == D.DefaultDefinition()
  {
    AgentState(D.DefaultDefinition(), [], false)
  }

  datatype AgentEvent =
    | Ping
    | MessageStart(message: K.Message)
    | MessageDelta(delta: K.Delta)
    | MessageStop
    | Message(final: K.Message)
    | ContentBlockStart(index: nat, block: K.ContentBlock)
    | ContentBlockDelta(blockDelta: K.BlockDelta)
    | ContentBlockStop(blockIndex: nat)
    | Terminated(reason: string)
    | Completed(handle: AgentHandle)
    | StateDump(state: AgentState)

  /** `impl From<MessagesResponseEvent> for AgentEvent`: variant for variant. */
  function FromResponseEvent(e: K.ResponseEvent): (r: AgentEvent)
    ensures !r.Message? && !r.Terminated? && !r.Completed? && !r.StateDump?
  {
    match e
    case Ping => Ping
    case MessageStart(m) => MessageStart(m)
    case MessageDelta(d) => MessageDelta(d)
    case MessageStop => MessageStop
    case ContentBlockStart(i, b) => ContentBlockStart(i, b)
    case ContentBlockDelta(d) => ContentBlockDelta(d)
    case ContentBlockStop(i) => ContentBlockStop(i)
  }

  /** The inverse of `FromResponseEvent` on the events it produces. */
  function ToResponseEvent(e: AgentEvent): Option<K.ResponseEvent>
  {
    match e
    case Ping => Some(K.Ping)
    case MessageStart(m) => Some(K.MessageStart(m))
    case MessageDelta(d) => Some(K.MessageDelta(d))
    case MessageStop => Some(K.MessageStop)
    case ContentBlockStart(i, b) => Some(K.ContentBlockStart(i, b))
    case ContentBlockDelta(d) => Some(K.ContentBlockDelta(d))
    case ContentBlockStop(i) => Some(K.ContentBlockStop(i))
    case _ => None
  }

  /** Relaying loses nothing: the stream event can be read back from the agent event. */
  lemma RelayIsFaithful(e: K.ResponseEvent, a: AgentEvent)
    ensures ToResponseEvent(FromResponseEvent(e)) == Some(e)
    ensures ToResponseEvent(a).Some? ==> FromResponseEvent(ToResponseEvent(a).value) == a
  {
  }

  datatype ExitCode = Success | Failure

  /** What the thread's `run` ends with: `Ok(code)`, `Err(error)`, or a panic. */
  datatype TaskResult = Exited(code: ExitCode) | Errored(error: KepokiError) | Panicked(reason: string)

  /** The panic of `unreachable!` in `handle_command`, the only way to get there being `Terminate`. */
  const TerminatePanic: string :=
    "internal error: entered unreachable code: Command not intercepted by the runtime: Terminate"

  /** What one command does: whether `run` ends, the new state, the events it sends. */
  datatype Reaction = Reaction(stop: Option<TaskResult>, state: AgentState, sent: seq<AgentEvent>)

  /** `handle_command`, with `?` and `return` as `run` applies them; `alive` is whether the event receiver exists. */
  function React(st: AgentState, c: AgentCommand, alive: bool, h: AgentHandle): Reaction
  {
    match c
    case Exit => Reaction(Some(Exited(Success)), st, [])
    case Pause => Reaction(None, st.(paused := true), [])
    case Unpause => Reaction(None, st.(paused := false), [])
    case DumpState =>
      if alive then Reaction(None, st, [StateDump(st)]) else Reaction(Some(Errored(EventReceiverClosed(h))), st, [])
    case UserMessage(s) =>
      Reaction(None, st.(messages := st.messages + [K.InputMessage(K.User, [K.Text(s)])]), [])
    case Terminate => Reaction(Some(Panicked(TerminatePanic)), st, [])
  }

  /** The condition for a new turn: the last history entry is the user's and the agent is not paused. */
  predicate TurnDue(st: AgentState)
  {
    |st.messages| > 0 && st.messages[|st.messages| - 1].role == K.User && !st.paused
  }

  /**
   * `Pause` and `Unpause` touch only the flag; `UserMessage` appends exactly
   * one user message and keeps the history before it; only `Exit`,
   * `Terminate` and a failed `DumpState` end the agent, and only `DumpState`
   * sends an event.
   */
  lemma CommandEffects(st: AgentState, c: AgentCommand, alive: bool, h: AgentHandle)
    ensures var r := React(st, c, alive, h);
      && (c.Pause? ==> r.stop.None? && r.state == st.(paused := true))
      && (c.Unpause? ==> r.stop.None? && r.state == st.(paused := false))
      && (c.UserMessage? ==>
            && r.stop.None? && r.state.paused == st.paused && r.state.definition == st.definition
            && |r.state.messages| == |st.messages| + 1 && r.state.messages[..|st.messages|] == st.messages
            && r.state.messages[|st.messages|] == K.InputMessage(K.User, [K.Text(c.text)]))
      && (r.stop.Some? <==> c.Exit? || c.Terminate? || (c.DumpState? && !alive))
      && (c.Exit? ==> r.stop == Some(Exited(Success)))
      && (r.sent != [] <==> c.DumpState? && alive)
      && (c.DumpState? && alive ==> r.sent == [StateDump(st)] && r.state == st)
  {
    if c.UserMessage? {
      assert React(st, c, alive, h).state.messages[..|st.messages|] == st.messages;
    }
  }

  /** A user message makes a running agent due for a turn; pausing afterwards holds the turn back. */
  lemma UserMessageMakesTurnDue(st: AgentState, s: string, alive: bool, h: AgentHandle)
    ensures !st.paused ==> TurnDue(React(st, UserMessage(s), alive, h).state)
    ensures var st' := React(st, UserMessage(s), alive, h).state;
      !TurnDue(React(st', Pause, alive, h).state) && TurnDue(React(React(st', Pause, alive, h).state, Unpause, alive, h).state)
  {
  }

  /** Draining the queue: the command that stopped it (if any), the state, the events sent, how many commands were taken. */
  datatype Drained = Drained(stop: Option<TaskResult>, state: AgentState, sent: seq<AgentEvent>, taken: nat)

  /** The inner loop of `run` over the queued commands: handle each in order until one ends the agent. */
  function Drain(st: AgentState, cmds: seq<AgentCommand>, alive: bool, h: AgentHandle): (d: Drained)
    ensures d.taken <= |cmds|
    ensures cmds != [] ==> 0 < d.taken
    ensures d.stop.None? ==> d.taken == |cmds|
    decreases |cmds|
  {
    if cmds == [] then Drained(None, st, [], 0)
    else
      var r := React(st, cmds[0], alive, h);
      if r.stop.Some? then Drained(r.stop, r.state, r.sent, 1)
      else
        var d := Drain(r.state, cmds[1..], alive, h);
        Drained(d.stop, d.state, r.sent + d.sent, d.taken + 1)
  }

  /** Taking one command off the front of the queue. */
  lemma DrainCons(st: AgentState, c: AgentCommand, cmds: seq<AgentCommand>, alive: bool, h: AgentHandle)
    ensures var r := React(st, c, alive, h);
      Drain(st, [c] + cmds, alive, h) ==
        if r.stop.Some? then Drained(r.stop, r.state, r.sent, 1)
        else
          var d := Drain(r.state, cmds, alive, h);
          Drained(d.stop, d.state, r.sent + d.sent, d.taken + 1)
  {
    assert ([c] + cmds)[0] == c && ([c] + cmds)[1..] == cmds;
  }

  /**
   * The drain stops at the first command that ends the agent: every
   * command it took before the last one let the agent go on, and the last
   * one taken is the one that ended it, if any did.
   */
  lemma {:induction false} DrainStopsAtFirst(st: AgentState, cmds: seq<AgentCommand>, alive: bool, h: AgentHandle, n: nat)
    requires n < Drain(st, cmds, alive, h).taken
    ensures React(Drain(st, cmds[..n], alive, h).state, cmds[n], alive, h).stop ==
      (if n + 1 == Drain(st, cmds, alive, h).taken then Drain(st, cmds, alive, h).stop else None)
    decreases |cmds|
  {
    var r := React(st, cmds[0], alive, h);
    if n == 0 {
      assert cmds[..0] == [];
    } else {
      DrainStopsAtFirst(r.state, cmds[1..], alive, h, n - 1);
      assert cmds[..n] == [cmds[0]] + cmds[1..][..n - 1];
      DrainCons(st, cmds[0], cmds[1..][..n - 1], alive, h);
      assert cmds[1..][n - 1] == cmds[n];
    }
  }

  /** The stream a backend answers a request with: its events, then how it ended. */
  datatype Stream = Stream(events: seq<K.ResponseEvent>, end: StreamEnd)

  /** `recv` returning `Ok(None)`, an error, or panicking, after the last event. */
  datatype StreamEnd = Exhausted | Broken(error: KepokiError) | Crashed(reason: string)

  /** How one non-event `recv` result ends the stream. */
  function EndOf(received: K.Received): (e: StreamEnd)
    requires !received.Event?
    ensures received.EndOfStream? <==> e.Exhausted?
    ensures received.Error? <==> e.Broken?
    ensures received.Error? ==> e == Broken(received.error)
    ensures received.Panic? ==> e == Crashed(received.reason)
  {
    match received
    case EndOfStream => Exhausted
    case Error(err) => Broken(err)
    case Panic(why) => Crashed(why)
  }

  /** The inverse of `EndOf`: the `recv` result that ends a stream this way. */
  function EndResult(end: StreamEnd): K.Received
  {
    match end
    case Exhausted => K.EndOfStream
    case Broken(err) => K.Error(err)
    case Crashed(why) => K.Panic(why)
  }

  /**
   * The stream a turn sees from its successive `recv` results: the events
   * up to the first result that is not one, which ends it; `None` while no
   * result has ended it yet. Results after the end are never read.
   */
  function StreamOf(results: seq<K.Received>): (s: Option<Stream>)
    ensures s.Some? <==> exists i :: 0 <= i < |results| && !results[i].Event?
    ensures s.Some? ==>
      && |s.value.events| < |results|
      && (forall i :: 0 <= i < |s.value.events| ==> results[i] == K.Event(s.value.events[i]))
      && !results[|s.value.events|].Event?
      && s.value.end == EndOf(results[|s.value.events|])
  {
    if results == [] then None
    else match results[0]
      case Event(e) =>
        (match StreamOf(results[1..])
         case None => None
         case Some(rest) => Some(Stream([e] + rest.events, rest.end)))
      case _ => Some(Stream([], EndOf(results[0])))
  }

  /** The `recv` results a stream is read from: one per event, then its end. */
  function Results(s: Stream): (r: seq<K.Received>)
    ensures |r| == |s.events| + 1
    ensures forall i :: 0 <= i < |s.events| ==> r[i] == K.Event(s.events[i])
    ensures r[|s.events|] == EndResult(s.end)
  {
    seq(|s.events|, i requires 0 <= i < |s.events| => K.Event(s.events[i])) + [EndResult(s.end)]
  }

  /** Reading a stream's results gives the stream back. */
  lemma StreamOfResults(s: Stream)
    ensures StreamOf(Results(s)) == Some(s)
  {
    var rs := Results(s);
    var t := StreamOf(rs).value;
    assert !rs[|s.events|].Event? by { match s.end case Exhausted => case Broken(_) => case Crashed(_) => }
    assert t.events == s.events;
    match s.end case Exhausted => case Broken(_) => case Crashed(_) =>
  }

  /** Whatever ends a stream, its results are a prefix of what `recv` returned, and later results are ignored. */
  lemma ResultsOfStreamOf(results: seq<K.Received>)
    requires StreamOf(results).Some?
    ensures var s := StreamOf(results).value;
      Results(s) == results[..|s.events| + 1]
  {
    var s := StreamOf(results).value;
    var last := results[|s.events|];
    assert EndResult(EndOf(last)) == last by { match last case EndOfStream => case Error(_) => case Panic(_) => }
    assert Results(s) == results[..|s.events| + 1];
  }

  /** The events that `run` sends on, one per stream event, in order. */
  function Forward(events: seq<K.ResponseEvent>): (r: seq<AgentEvent>)
    ensures |r| == |events|
    ensures forall i :: 0 <= i < |events| ==> r[i] == FromResponseEvent(events[i])
  {
    if events == [] then []
    else Forward(events[..|events| - 1]) + [FromResponseEvent(events[|events| - 1])]
  }

  /** The relay loop's result: the assembly or the error that ended it, and the events sent. */
  datatype Relaying = Relaying(outcome: Result<S.Assembly, KepokiError>, sent: seq<AgentEvent>)

  /**
   * The `while let` loop over the stream's events: each event is sent on
   * first (which fails once the receiver is gone), then applied; the first
   * event the assembler refuses ends the turn with `UnexpectedEvent`, after
   * it was relayed.
   */
  function Relay(events: seq<K.ResponseEvent>, alive: bool, h: AgentHandle): Relaying
  {
    if events != [] && !alive then Relaying(Err(EventReceiverClosed(h)), [])
    else match S.Feed(events)
      case Rejected(k) => Relaying(Err(UnexpectedEvent(h)), Forward(events[..k + 1]))
      case Accepted(a) => Relaying(Ok(a), Forward(events))
  }

  /**
   * Every event the turn sends is the relayed counterpart of the stream
   * event at the same position; a refusal relays exactly the events up to
   * and including the refused one, and only a refusal gives `UnexpectedEvent`.
   */
  lemma RelayedInOrder(events: seq<K.ResponseEvent>, h: AgentHandle, i: nat)
    ensures var r := Relay(events, true, h);
      && (r.outcome.Ok? <==> S.Feed(events).Accepted?)
      && (r.outcome.Ok? ==> r.outcome.value == S.Feed(events).assembly && |r.sent| == |events|)
      && (r.outcome.Err? ==> r.outcome.error == UnexpectedEvent(h) && |r.sent| == S.Feed(events).at + 1)
      && (i < |r.sent| ==> r.sent[i] == FromResponseEvent(events[i]))
  {
  }

  /** The assembler's refusal of an event stays a refusal whatever follows it. */
  lemma {:induction false} RejectionPersists(events: seq<K.ResponseEvent>, n: nat)
    requires n <= |events|
    requires S.Feed(events[..n]).Rejected?
    ensures S.Feed(events) == S.Feed(events[..n])
    decreases |events|
  {
    if n < |events| {
      var init := events[..|events| - 1];
      assert init[..n] == events[..n];
      RejectionPersists(init, n);
    } else {
      assert events[..n] == events;
    }
  }

  /**
   * The end of a turn with a message: exactly one assistant message is
   * appended, holding the blocks still open (each once, in some order),
   * and nothing else in the state changes.
   */
  ghost predicate Finalised(st0: AgentState, a: S.Assembly, st1: AgentState)
  {
    && st1.definition == st0.definition && st1.paused == st0.paused
    && |st1.messages| == |st0.messages| + 1 && st1.messages[..|st0.messages|] == st0.messages
    && st1.messages[|st0.messages|].role == K.Assistant
    && multiset(st1.messages[|st0.messages|].content) == S.Bag(a.blocks)
  }

  /** The request of a turn: the whole history, 8192 tokens, the definition's prompt and temperature, no tools. */
  function Request<M>(st: AgentState, model: M): (r: K.MessagesRequest<M>)
    ensures r.model == model && r.messages == st.messages && r.maxTokens == 8192
    ensures r.system == Some(st.definition.prompt) && r.temperature == Some(st.definition.temperature)
    ensures r.toolChoice.None? && r.tools.None?
  {
    K.MessagesRequest(model, st.messages, 8192, Some(st.definition.prompt), Some(st.definition.temperature), None, None)
  }

  /** What the command poll found: nothing to do yet, a turn to run, or the end of `run`. */
  datatype Poll = Waiting | Due | Stopped(result: TaskResult)

  /** One pass of the outer loop: still waiting for commands, a turn completed, or `run` returned. */
  datatype Iteration = Idle | Turned | Ended(result: TaskResult)

  class Agent<M> {
    const handle: AgentHandle
    const model: M
    const backend: K.MessagesRequest<M> -> Result<Stream, KepokiError>
    var state: AgentState
    var commands: seq<AgentCommand>
    var senderAlive: bool
    var emitted: seq<AgentEvent>
    var receiverAlive: bool
    /** The thread's result once `run` has returned; the agent and its channel ends are dropped then. */
    var outcome: Option<TaskResult>

    /** The agent as `spawn_agent` starts it: default state, both channels open and empty. */
    constructor(handle: AgentHandle, model: M, backend: K.MessagesRequest<M> -> Result<Stream, KepokiError>)
      ensures this.handle == handle && this.model == model && this.backend == backend
      ensures state == DefaultState() && commands == [] && emitted == []
      ensures senderAlive && receiverAlive && outcome.None?
    {
      this.handle := handle;
      this.model := model;
      this.backend := backend;
      state := DefaultState();
      commands := [];
      senderAlive := true;
      emitted := [];
      receiverAlive := true;
      outcome := None;
    }

    /** `handle_command` for one command taken from the queue. */
    method HandleCommand(c: AgentCommand) returns (stop: Option<TaskResult>)
      modifies this`state, this`emitted
      ensures var r := React(old(state), c, receiverAlive, handle);
        stop == r.stop && state == r.state && emitted == old(emitted) + r.sent
    {
      stop := None;
      match c
      case Exit =>
        return Some(Exited(Success));
      case Pause =>
        state := state.(paused := true);
      case Unpause =>
        state := state.(paused := false);
      case DumpState =>
        if !receiverAlive {
          return Some(Errored(EventReceiverClosed(handle)));
        }
        emitted := emitted + [StateDump(state)];
      case UserMessage(s) =>
        state := state.(messages := state.messages + [K.InputMessage(K.User, [K.Text(s)])]);
      case Terminate =>
        return Some(Panicked(TerminatePanic));
    }

    /** One `try_recv` that finds a command, and `handle_command` on it. */
    method TakeCommand() returns (stop: Option<TaskResult>)
      requires commands != []
      modifies this`state, this`emitted, this`commands
      ensures commands == old(commands)[1..]
      ensures var d := Drain(old(state), old(commands), receiverAlive, handle);
        var e := Drain(state, commands, receiverAlive, handle);
        && (stop.Some? ==> stop == d.stop && state == d.state && emitted == old(emitted) + d.sent && d.taken == 1)
        && (stop.None? ==> e.stop == d.stop && e.state == d.state && old(emitted) + d.sent == emitted + e.sent && d.taken == e.taken + 1)
    {
      var c := commands[0];
      ghost var r := React(state, c, receiverAlive, handle);
      assert commands == [c] + commands[1..];
      DrainCons(state, c, commands[1..], receiverAlive, handle);
      commands := commands[1..];
      stop := HandleCommand(c);
    }

    /** The commands taken off the queue one at a time, until one ends the agent or the queue is empty. */
    method DrainQueue() returns (stop: Option<TaskResult>)
      modifies this`state, this`emitted, this`commands
      ensures var d := Drain(old(state), old(commands), receiverAlive, handle);
        stop == d.stop && state == d.state && emitted == old(emitted) + d.sent && commands == old(commands)[d.taken..]
    {
      ghost var d0 := Drain(state, commands, receiverAlive, handle);
      ghost var taken := 0;
      stop := None;
      while commands != []
        invariant taken <= |old(commands)| && commands == old(commands)[taken..] && stop.None?
        invariant var d := Drain(state, commands, receiverAlive, handle);
          && d.stop == d0.stop && d.state == d0.state && emitted + d.sent == old(emitted) + d0.sent
          && taken + d.taken == d0.taken
        decreases |commands|
      {
        stop := TakeCommand();
        taken := taken + 1;
        if stop.Some? {
          return;
        }
      }
    }

    /**
     * The inner loop of `run`: drain the queue; once it is empty, a dropped
     * sender ends the agent with `FAILURE`, a due turn breaks out, and
     * otherwise the thread sleeps and polls again.
     */
    method PollCommands() returns (p: Poll)
      modifies this`state, this`emitted, this`commands
      ensures var d := Drain(old(state), old(commands), receiverAlive, handle);
        && state == d.state && emitted == old(emitted) + d.sent && commands == old(commands)[d.taken..]
        && (d.stop.Some? ==> p == Stopped(d.stop.value))
        && (d.stop.None? ==> p == (if !senderAlive then Stopped(Exited(Failure)) else if TurnDue(d.state) then Due else Waiting))
    {
      var stop := DrainQueue();
      if stop.Some? {
        return Stopped(stop.value);
      }
      if !senderAlive {
        return Stopped(Exited(Failure));
      }
      if TurnDue(state) {
        return Due;
      }
      return Waiting;
    }

    /** The `match event` of the relay loop: one event applied to the turn's message and block map. */
    method Absorb(message: Option<K.Message>, blocks: map<nat, K.ContentBlock>, e: K.ResponseEvent)
      returns (message': Option<K.Message>, blocks': map<nat, K.ContentBlock>, ok: bool)
      ensures ok <==> S.Step(S.Assembly(message, blocks), e).Some?
      ensures ok ==> S.Step(S.Assembly(message, blocks), e) == Some(S.Assembly(message', blocks'))
    {
      message', blocks', ok := message, blocks, true;
      match e
      case Ping =>
      case MessageStart(start) =>
        if message.Some? {
          return message, blocks, false;
        }
        message' := Some(start);
      case MessageDelta(delta) =>
        if message.None? {
          return message, blocks, false;
        }
        var m := message.value;
        if delta.stopReason.Some? {
          m := m.(stopReason := delta.stopReason);
        }
        if delta.stopSequence.Some? {
          m := m.(stopSequence := delta.stopSequence);
        }
        if delta.usage.Some? {
          m := m.(usage := delta.usage);
        }
        message' := Some(m);
      case MessageStop =>
        if message.None? {
          return message, blocks, false;
        }
      case ContentBlockStart(index, block) =>
        if index in blocks {
          return message, blocks, false;
        }
        blocks' := blocks[index := block];
      case ContentBlockDelta(TextDelta(index, text)) =>
        if index !in blocks || !blocks[index].Text? {
          return message, blocks, false;
        }
        blocks' := blocks[index := K.Text(blocks[index].text + text)];
      case ContentBlockDelta(InputJsonDelta(index, partial)) =>
        if index !in blocks || !blocks[index].ToolUse? {
          return message, blocks, false;
        }
        blocks' := blocks[index := blocks[index].(input := blocks[index].input + partial)];
      case ContentBlockStop(index) =>
        if index in blocks {
          blocks' := blocks - {index};
        } else {
          assert blocks - {index} == blocks;
        }
    }

    /** The relay loop of a turn, over the events of the stream. */
    method Pump(events: seq<K.ResponseEvent>) returns (outcome: Result<S.Assembly, KepokiError>)
      modifies this`emitted
      ensures var r := Relay(events, receiverAlive, handle);
        outcome == r.outcome && emitted == old(emitted) + r.sent
    {
      var message: Option<K.Message> := None;
      var blocks: map<nat, K.ContentBlock> := map[];
      var i := 0;
      while i < |events|
        invariant i <= |events|
        invariant S.Feed(events[..i]) == S.Accepted(S.Assembly(message, blocks))
        invariant emitted == old(emitted) + Forward(events[..i])
        invariant i > 0 ==> receiverAlive
      {
        if !receiverAlive {
          return Err(EventReceiverClosed(handle));
        }
        var e := events[i];
        assert events[..i + 1][..i] == events[..i];
        emitted := emitted + [FromResponseEvent(e)];
        var ok;
        message, blocks, ok := Absorb(message, blocks, e);
        S.FeedSnoc(events[..i], e);
        assert events[..i + 1] == events[..i] + [e];
        if !ok {
          RejectionPersists(events, i + 1);
          return Err(UnexpectedEvent(handle));
        }
        i := i + 1;
      }
      assert events[..i] == events;
      return Ok(S.Assembly(message, blocks));
    }

    /** `blocks.into_values().collect()`: every value of the map once, in an order the map chooses. */
    method Collect(blocks: map<nat, K.ContentBlock>) returns (content: seq<K.ContentBlock>)
      ensures multiset(content) == S.Bag(blocks)
    {
      content := [];
      var rest := blocks;
      while rest != map[]
        invariant multiset(content) + S.Bag(rest) == S.Bag(blocks)
        decreases |rest|
      {
        var k :| k in rest;
        S.BagRemove(rest, k);
        S.RemoveShrinks(rest, k);
        content := content + [rest[k]];
        rest := rest - {k};
      }
    }

    /**
     * The end of a turn's stream: with no message, `NoMessageReceived`;
     * otherwise the open blocks, taken out of the map in no particular
     * order, become the content of an assistant message appended to the
     * history, and the finished message is sent on.
     */
    method Finish(a: S.Assembly) returns (stop: Option<TaskResult>)
      modifies this`state, this`emitted
      ensures a.message.None? ==> stop == Some(Errored(NoMessageReceived(handle))) && state == old(state) && emitted == old(emitted)
      ensures a.message.Some? ==> Finalised(old(state), a, state)
      ensures a.message.Some? && receiverAlive ==>
        && stop.None?
        && emitted == old(emitted) + [Message(a.message.value.(content := state.messages[|old(state.messages)|].content))]
      ensures a.message.Some? && !receiverAlive ==> stop == Some(Errored(EventReceiverClosed(handle))) && emitted == old(emitted)
    {
      if a.message.None? {
        return Some(Errored(NoMessageReceived(handle)));
      }
      var content := Collect(a.blocks);
      var msg := a.message.value.(content := content);
      state := state.(messages := state.messages + [K.InputMessage(K.Assistant, content)]);
      assert state.messages[..|old(state.messages)|] == old(state.messages);
      if !receiverAlive {
        return Some(Errored(EventReceiverClosed(handle)));
      }
      emitted := emitted + [Message(msg)];
      return None;
    }

    /**
     * One turn, run on the state `st0` with `em0` already sent: how its
     * result (`None` when the loop goes on), its state and its sent events
     * follow from the backend's answer to the request.
     */
    ghost predicate TurnSpec(alive: bool, st0: AgentState, em0: seq<AgentEvent>,
                             st1: AgentState, em1: seq<AgentEvent>, stop: Option<TaskResult>)
    {
      match backend(Request(st0, model))
      case Err(e) => stop == Some(Errored(e)) && st1 == st0 && em1 == em0
      case Ok(stream) =>
        var r := Relay(stream.events, alive, handle);
        match r.outcome
        case Err(e) => stop == Some(Errored(e)) && st1 == st0 && em1 == em0 + r.sent
        case Ok(a) =>
          match stream.end
          case Broken(e) => stop == Some(Errored(e)) && st1 == st0 && em1 == em0 + r.sent
          case Crashed(why) => stop == Some(Panicked(why)) && st1 == st0 && em1 == em0 + r.sent
          case Exhausted =>
            if a.message.None? then stop == Some(Errored(NoMessageReceived(handle))) && st1 == st0 && em1 == em0 + r.sent
            else
              && Finalised(st0, a, st1)
              && (alive ==> stop.None? && em1 == em0 + r.sent + [Message(a.message.value.(content := st1.messages[|st0.messages|].content))])
              && (!alive ==> stop == Some(Errored(EventReceiverClosed(handle))) && em1 == em0 + r.sent)
    }

    /** "Continue conversation": request, relay the stream, finish the message. */
    method RunTurn() returns (stop: Option<TaskResult>)
      modifies this`state, this`emitted
      ensures TurnSpec(receiverAlive, old(state), old(emitted), state, emitted, stop)
    {
      var answer := backend(Request(state, model));
      if answer.Err? {
        return Some(Errored(answer.error));
      }
      var stream := answer.value;
      var assembled := Pump(stream.events);
      if assembled.Err? {
        return Some(Errored(assembled.error));
      }
      match stream.end
      case Broken(e) =>
        return Some(Errored(e));
      case Crashed(why) =>
        return Some(Panicked(why));
      case Exhausted =>
        stop := Finish(assembled.value);
    }

    /**
     * One pass of `run`'s outer loop from where it stands: drain the
     * commands; a turn runs only when the queue is empty, the sender is
     * still there, and the state is due for one. When `run` returns, its
     * result is recorded as the thread's outcome.
     */
    method Iterate() returns (it: Iteration)
      requires outcome.None?
      modifies this`state, this`emitted, this`commands, this`outcome
      ensures outcome == (if it.Ended? then Some(it.result) else None)
      ensures var d := Drain(old(state), old(commands), receiverAlive, handle);
        !(d.stop.None? && senderAlive && TurnDue(d.state)) ==>
          && state == d.state && emitted == old(emitted) + d.sent && commands == old(commands)[d.taken..]
          && it == (if d.stop.Some? then Ended(d.stop.value) else if !senderAlive then Ended(Exited(Failure)) else Idle)
      ensures var d := Drain(old(state), old(commands), receiverAlive, handle);
        d.stop.None? && senderAlive && TurnDue(d.state) ==>
          && commands == [] && (it.Turned? || it.Ended?)
          && TurnSpec(receiverAlive, d.state, old(emitted) + d.sent, state, emitted, if it.Ended? then Some(it.result) else None)
    {
      var p := PollCommands();
      match p
      case Waiting =>
        return Idle;
      case Stopped(r) =>
        outcome := Some(r);
        return Ended(r);
      case Due =>
        var stop := RunTurn();
        if stop.Some? {
          outcome := stop;
          return Ended(stop.value);
        }
        return Turned;
    }
  }
}
