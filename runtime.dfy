/**
 * The runtime's bookkeeping (kepoki/src/runtime/mod.rs): the command
 * channel of every agent ever spawned, a join set of agent threads, and a
 * join set of pending event receives, one per agent whose events have not
 * ended.
 *
 * `command_emitters` is the map `agents`: the agent object stands for the
 * receiving end of its channels. The two join sets are sets of handles:
 * an agent has at most one task in each. `tokio::select!` and
 * `JoinSet::join_next` decide which ready task completes; that choice is
 * the `Pick` parameter of `Recv`.
 * `Uuid::new_v4` is a counter, so handles are never reused.
 */
module Runtime {
  import opened Wrappers
  import opened Errors
  import K = Backend
  import D = AgentDefinition
  import T = AgentTask

  /** Which branch of `select!` completes, and for which agent's task. */
  datatype Pick = JoinTask(agent: AgentHandle) | JoinRecv(agent: AgentHandle)

  /** What `recv` gives: an event, an error, or nothing yet because the picked task is still running. */
  datatype Delivery = Delivered(event: T.AgentEvent) | Failed(error: KepokiError) | NotReady

  /** What `send` gives: `Ok(())`, an error, or a panic. */
  datatype Sending = Sent | Refused(error: KepokiError) | Panicked(reason: string)

  /**
   * The event for a joined thread: `Ok(_)` is `Completed`, `Err(err)` is
   * `Terminated(err.to_string())`, and a panicked thread comes back from
   * `spawn_blocking` as `JoinFailed`.
   */
  function Completion(h: AgentHandle, r: T.TaskResult): T.AgentEvent
  {
    match r
    case Exited(_) => T.Completed(h)
    case Errored(err) => T.Terminated(ErrorDisplay(err))
    case Panicked(why) => T.Terminated(ErrorDisplay(JoinFailed(why)))
  }

  /**
   * Any exit code counts as completion, even the `FAILURE` of a dropped
   * command channel; every error or panic is a termination, and one that
   * names the agent ends its reason with the agent's name.
   */
  lemma CompletionReports(h: AgentHandle, r: T.TaskResult)
    ensures Completion(h, r).Completed? <==> r.Exited?
    ensures Completion(h, r).Completed? ==> Completion(h, r).handle == h
    ensures !r.Exited? ==> Completion(h, r).Terminated?
    ensures r.Errored? && r.error.UnexpectedEvent? ==>
      var s := Completion(h, r).reason; var n := HandleDisplay(r.error.handle);
      |n| <= |s| && s[|s| - |n|..] == n
    ensures r.Panicked? ==> Completion(h, r) != Completion(h, T.Errored(CustomError(r.reason)))
  {
    if r.Panicked? {
      var p := ErrorDisplay(JoinFailed(r.reason));
      assert |p| > |r.reason|;
    }
  }

  class Runtime<M> {
    var agents: map<AgentHandle, T.Agent<M>>
    var taskJoins: set<AgentHandle>
    var recvJoins: set<AgentHandle>
    var nextUuid: nat

    /** Every agent is registered under its own handle; the join sets hold registered handles only. */
    ghost predicate Valid()
      reads this
    {
      && (forall h :: h in agents ==> agents[h].handle == h && h.uuid < nextUuid)
      && taskJoins <= agents.Keys && recvJoins <= agents.Keys
    }

    /** `Runtime::new`: no agents, empty join sets. */
    constructor()
      ensures Valid()
      ensures agents == map[] && taskJoins == {} && recvJoins == {}
    {
      agents := map[];
      taskJoins := {};
      recvJoins := {};
      nextUuid := 0;
    }

    /**
     * `spawn_agent`: a new handle named after the definition, a thread
     * running the agent from the default state, one thread join and one
     * pending receive for it, and its command channel registered.
     */
    method SpawnAgent(definition: D.Definition, model: M, backend: K.MessagesRequest<M> -> Result<T.Stream, KepokiError>)
      returns (h: AgentHandle)
      requires Valid()
      modifies this
      ensures Valid()
      ensures h.name == definition.name && h !in old(agents)
      ensures agents.Keys == old(agents).Keys + {h}
      ensures forall g :: g in old(agents) ==> agents[g] == old(agents)[g]
      ensures fresh(agents[h])
      ensures agents[h].model == model && agents[h].backend == backend
      ensures agents[h].state == T.DefaultState() && agents[h].commands == [] && agents[h].emitted == []
      ensures agents[h].senderAlive && agents[h].receiverAlive && agents[h].outcome.None?
      ensures taskJoins == old(taskJoins) + {h} && recvJoins == old(recvJoins) + {h}
    {
      h := AgentHandle(definition.name, nextUuid);
      assert h !in agents && h !in taskJoins && h !in recvJoins;
      nextUuid := nextUuid + 1;
      var agent := new T.Agent(h, model, backend);
      agents := agents[h := agent];
      taskJoins := taskJoins + {h};
      recvJoins := recvJoins + {h};
    }

    /**
     * `send`: `Terminate` is not implemented and panics; an unknown handle,
     * or an agent whose thread has returned and dropped its receiver, is
     * `AgentNotFound`; otherwise the command joins the agent's queue.
     */
    method Send(h: AgentHandle, c: T.AgentCommand) returns (r: Sending)
      requires Valid()
      modifies if h in agents then {agents[h]} else {}
      ensures c.Terminate? ==> r == Panicked(TodoPanic)
      ensures !c.Terminate? && (h !in agents || agents[h].outcome.Some?) ==> r == Refused(AgentNotFound(h))
      ensures !c.Terminate? && h in agents && agents[h].outcome.None? ==> r == Sent
      ensures h in agents ==>
        && agents[h].commands == (if r.Sent? then old(agents[h].commands) + [c] else old(agents[h].commands))
        && agents[h].state == old(agents[h].state) && agents[h].emitted == old(agents[h].emitted)
        && agents[h].outcome == old(agents[h].outcome)
        && agents[h].senderAlive == old(agents[h].senderAlive) && agents[h].receiverAlive == old(agents[h].receiverAlive)
    {
      if c.Terminate? {
        return Panicked(TodoPanic);
      }
      if h !in agents {
        return Refused(AgentNotFound(h));
      }
      var agent := agents[h];
      if agent.outcome.Some? {
        return Refused(AgentNotFound(h));
      }
      agent.commands := agent.commands + [c];
      return Sent;
    }

    /**
     * `recv`: with both join sets empty, `NoRunningAgents`. A joined thread
     * gives its completion event. A pending receive that finds an event
     * delivers the oldest one and is re-armed for the same agent; one that
     * finds the channel closed gives `AgentNotFound` and is not re-armed.
     */
    method Recv(pick: Pick) returns (d: Delivery)
      requires Valid()
      modifies this, if pick.agent in agents then {agents[pick.agent]} else {}
      ensures Valid()
      ensures agents == old(agents) && nextUuid == old(nextUuid)
      ensures d == Failed(NoRunningAgents) <==> old(taskJoins) == {} && old(recvJoins) == {}
      ensures d == Failed(NoRunningAgents) ==> taskJoins == old(taskJoins) && recvJoins == old(recvJoins)
      ensures pick.agent in agents ==>
        && agents[pick.agent].state == old(agents[pick.agent].state)
        && agents[pick.agent].commands == old(agents[pick.agent].commands)
        && agents[pick.agent].outcome == old(agents[pick.agent].outcome)
        && agents[pick.agent].senderAlive == old(agents[pick.agent].senderAlive)
        && agents[pick.agent].receiverAlive == old(agents[pick.agent].receiverAlive)
      ensures pick.agent in agents && !(pick.JoinRecv? && d.Delivered?) ==>
        agents[pick.agent].emitted == old(agents[pick.agent].emitted)
      ensures d != Failed(NoRunningAgents) && pick.JoinTask? ==>
        && recvJoins == old(recvJoins)
        && (pick.agent in old(taskJoins) && agents[pick.agent].outcome.Some? ==>
              && d == Delivered(Completion(pick.agent, agents[pick.agent].outcome.value))
              && taskJoins == old(taskJoins) - {pick.agent})
        && (!(pick.agent in old(taskJoins) && agents[pick.agent].outcome.Some?) ==> d.NotReady? && taskJoins == old(taskJoins))
      ensures d != Failed(NoRunningAgents) && pick.JoinRecv? ==>
        && taskJoins == old(taskJoins)
        && (pick.agent in old(recvJoins) && old(agents[pick.agent].emitted) != [] ==>
              && d == Delivered(old(agents[pick.agent].emitted)[0])
              && agents[pick.agent].emitted == old(agents[pick.agent].emitted)[1..]
              && recvJoins == old(recvJoins))
        && (pick.agent in old(recvJoins) && old(agents[pick.agent].emitted) == [] && old(agents[pick.agent].outcome).Some? ==>
              d == Failed(AgentNotFound(pick.agent)) && recvJoins == old(recvJoins) - {pick.agent})
        && (!(pick.agent in old(recvJoins) && (old(agents[pick.agent].emitted) != [] || old(agents[pick.agent].outcome).Some?)) ==>
              d.NotReady? && recvJoins == old(recvJoins))
    {
      if taskJoins == {} && recvJoins == {} {
        return Failed(NoRunningAgents);
      }
      match pick
      case JoinTask(h) =>
        d := JoinThread(h);
      case JoinRecv(h) =>
        d := ReceiveEvent(h);
    }

    /** The `thread_join_set.join_next()` branch: a thread that has returned is joined and reported. */
    method JoinThread(h: AgentHandle) returns (d: Delivery)
      requires Valid()
      modifies this`taskJoins
      ensures Valid()
      ensures h in old(taskJoins) && agents[h].outcome.Some? ==>
        d == Delivered(Completion(h, agents[h].outcome.value)) && taskJoins == old(taskJoins) - {h}
      ensures !(h in old(taskJoins) && agents[h].outcome.Some?) ==> d.NotReady? && taskJoins == old(taskJoins)
    {
      if h !in taskJoins || agents[h].outcome.None? {
        return NotReady;
      }
      taskJoins := taskJoins - {h};
      return Delivered(Completion(h, agents[h].outcome.value));
    }

    /**
     * The `recv_join_set.join_next()` branch: the agent's oldest pending
     * event is taken and the receive re-armed; a closed and empty channel
     * ends the receive.
     */
    method ReceiveEvent(h: AgentHandle) returns (d: Delivery)
      requires Valid()
      modifies this`recvJoins, if h in agents then {agents[h]} else {}
      ensures Valid()
      ensures h in agents ==>
        && agents[h].state == old(agents[h].state) && agents[h].commands == old(agents[h].commands)
        && agents[h].outcome == old(agents[h].outcome)
        && agents[h].senderAlive == old(agents[h].senderAlive) && agents[h].receiverAlive == old(agents[h].receiverAlive)
      ensures h in old(recvJoins) && old(agents[h].emitted) != [] ==>
        && d == Delivered(old(agents[h].emitted)[0]) && agents[h].emitted == old(agents[h].emitted)[1..]
        && recvJoins == old(recvJoins)
      ensures h in old(recvJoins) && old(agents[h].emitted) == [] && old(agents[h].outcome).Some? ==>
        d == Failed(AgentNotFound(h)) && recvJoins == old(recvJoins) - {h}
      ensures !(h in old(recvJoins) && (old(agents[h].emitted) != [] || old(agents[h].outcome).Some?)) ==>
        d.NotReady? && recvJoins == old(recvJoins)
      ensures !d.Delivered? && h in agents ==> agents[h].emitted == old(agents[h].emitted)
    {
      if h !in recvJoins {
        return NotReady;
      }
      var agent := agents[h];
      if agent.emitted != [] {
        var event := agent.emitted[0];
        agent.emitted := agent.emitted[1..];
        return Delivered(event);
      }
      if agent.outcome.None? {
        return NotReady;
      }
      recvJoins := recvJoins - {h};
      return Failed(AgentNotFound(h));
    }
  }

  /**
   * An agent told to exit: its thread joins as `Completed`, its closed
   * event channel then gives `AgentNotFound`, and with both join sets
   * empty the runtime reports `NoRunningAgents`.
   */
  method ExitedAgentWindsDown<M>(definition: D.Definition, model: M, backend: K.MessagesRequest<M> -> Result<T.Stream, KepokiError>)
    returns (h: AgentHandle, first: Delivery, second: Delivery, third: Delivery)
    ensures h.name == definition.name
    ensures first == Delivered(T.Completed(h))
    ensures second == Failed(AgentNotFound(h))
    ensures third == Failed(NoRunningAgents)
  {
    var rt := new Runtime<M>();
    h := rt.SpawnAgent(definition, model, backend);
    var sent := rt.Send(h, T.Exit);
    var agent := rt.agents[h];
    assert agent.commands == [T.Exit];
    assert T.Drain(T.DefaultState(), [T.Exit], true, h) == T.Drained(Some(T.Exited(T.Success)), T.DefaultState(), [], 1);
    var it := agent.Iterate();
    first := rt.Recv(JoinTask(h));
    second := rt.Recv(JoinRecv(h));
    third := rt.Recv(JoinTask(h));
  }

  /**
   * A state dump is delivered through the agent's pending receive, which
   * is re-armed: the next receive for the still running agent waits.
   */
  method DumpIsDeliveredAndRearmed<M>(definition: D.Definition, model: M, backend: K.MessagesRequest<M> -> Result<T.Stream, KepokiError>)
    returns (first: Delivery, second: Delivery)
    ensures first == Delivered(T.StateDump(T.DefaultState()))
    ensures second.NotReady?
  {
    var rt := new Runtime<M>();
    var h := rt.SpawnAgent(definition, model, backend);
    var sent := rt.Send(h, T.DumpState);
    var agent := rt.agents[h];
    assert agent.commands == [T.DumpState];
    assert T.Drain(T.DefaultState(), [T.DumpState], true, h) == T.Drained(None, T.DefaultState(), [T.StateDump(T.DefaultState())], 1);
    assert !T.TurnDue(T.DefaultState());
    var it := agent.Iterate();
    first := rt.Recv(JoinRecv(h));
    second := rt.Recv(JoinRecv(h));
  }
}
