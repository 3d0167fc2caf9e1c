/** The tracing decorator for agents: it forwards every call to the agent it
    wraps, unchanged, and logs one record per call with the data collector. */
module Tracing {
  import opened Values
  import opened Collector

  /** What one call of the wrapped agent does: how it ends (a returned result
      object or a thrown error), the state it leaves the agent in, and the
      records that its own run logs with the collector meanwhile (traced agents
      nested inside it, such as a sub-agent used as a tool, log there too). */
  datatype Turn = Turn(outcome: Fallible<Handle>, next: Value, logged: seq<AgentCall>)

  /** The agent behind the decorator, reduced to what the decorator can
      observe: what a call answers in each of its states, and whether it
      implements a reset (and what that reset does to its state). */
  class Agent {
    var state: Value
    const respond: (Value, Value, Value) -> Turn
    const resetState: Option<Value -> Value>

    constructor (state: Value, respond: (Value, Value, Value) -> Turn, resetState: Option<Value -> Value>)
      ensures this.state == state && this.respond == respond && this.resetState == resetState
    {
      this.state := state;
      this.respond := respond;
      this.resetState := resetState;
    }

    /** The undecorated call, with a message bag and an options array (empty
        unless given). Whatever its run logs is appended to the shared
        collector's log. */
    method Call(collector: DataCollector, messages: Value, options: Value := Arr(map[])) returns (o: Fallible<Handle>)
      modifies this`state, collector`collectedCalls
      ensures var turn := respond(old(state), messages, options);
        o == turn.outcome && state == turn.next
        && collector.collectedCalls == old(collector.collectedCalls) + turn.logged
      ensures collector.data == old(collector.data)
    {
      var turn := respond(state, messages, options);
      o, state := turn.outcome, turn.next;
      collector.collectedCalls := collector.collectedCalls + turn.logged;
    }

    /** The agent's own reset; only agents that implement one have it. */
    method Reset()
      requires resetState.Some?
      modifies this`state
      ensures state == resetState.value(old(state))
    {
      state := resetState.value(state);
    }
  }

  class TraceableAgent {
    const decorated: Agent
    const collector: DataCollector

    constructor (decorated: Agent, collector: DataCollector)
      ensures this.decorated == decorated && this.collector == collector
    {
      this.decorated := decorated;
      this.collector := collector;
    }

    /** Forwards the call and logs it. The clock readings taken before and
        after the forwarded call are passed in. The outcome, a returned result
        or a thrown error, is exactly the wrapped agent's, and this call's
        record comes after everything the wrapped agent logged meanwhile. */
    method Call(startTime: real, endTime: real, messages: Value, options: Value := Arr(map[])) returns (o: Fallible<Handle>)
      modifies decorated`state, collector`collectedCalls
      ensures var turn := decorated.respond(old(decorated.state), messages, options);
        o == turn.outcome && decorated.state == turn.next
        && collector.collectedCalls == old(collector.collectedCalls) + turn.logged + [
          match o
          case Ok(r) =>
            AgentCall("call", endTime - startTime, collector.cloneVar(messages), collector.cloneVar(Obj(r)), collector.cloneVar(Null))
          case Thrown(e) =>
            AgentCall("call", endTime - startTime, collector.cloneVar(messages), collector.cloneVar(Null), collector.cloneVar(Obj(e)))]
      ensures collector.data == old(collector.data)
    {
      var error := Null;
      var response := Null;
      o := decorated.Call(collector, messages, options);
      match o {
        case Ok(r) => response := Obj(r);
        case Thrown(e) => error := Obj(e);
      }
      collector.CollectAgentCall("call", endTime - startTime, messages, response, error);
    }

    /** Resets the wrapped agent when it implements a reset; otherwise does
        nothing. The collector is left alone. */
    method Reset()
      modifies decorated`state
      ensures decorated.resetState.Some? ==> decorated.state == decorated.resetState.value(old(decorated.state))
      ensures decorated.resetState.None? ==> decorated.state == old(decorated.state)
      ensures unchanged(collector)
    {
      if decorated.resetState.Some? {
        decorated.Reset();
      }
    }

    function GetName(): (name: string)
      ensures name == "TraceableAgent"
    {
      "TraceableAgent"
    }
  }
}
