/** The agent loop as the program runs it: one conversation state mutated turn by turn. */
module AgentRun {
  import opened Vocabulary
  import opened Fallback
  import opened AgentTurns
  import Chain = FallbackChain

  class ToolRegistry {
    var tools: map<string, Tool>

    constructor ()
      ensures tools == map[]
    {
      tools := map[];
    }

    method Register(tool: Tool)
      modifies this
      ensures tools == old(tools)[tool.spec.name := tool]
    {
      tools := tools[tool.spec.name := tool];
    }
  }

  class ToolExecutor {
    const registry: ToolRegistry
    const outcome: nat -> ToolOutcome
    var runs: nat

    constructor (registry: ToolRegistry, outcome: nat -> ToolOutcome)
      ensures this.registry == registry && this.outcome == outcome && runs == 0
    {
      this.registry, this.outcome, runs := registry, outcome, 0;
    }

    method Execute(call: ToolCall) returns (result: ToolResult)
      modifies `runs
      ensures (result, runs) == ExecuteTool(registry.tools, outcome, old(runs), call)
    {
      if call.name !in registry.tools {
        return ToolResult(call.id, "unknown tool: " + call.name, true);
      }
      if !registry.tools[call.name].hasHandler {
        return ToolResult(call.id, "tool " + call.name + " has no synchronous handler", true);
      }
      var returned := outcome(runs);
      runs := runs + 1;
      match returned {
        case Gives(content) => return ToolResult(call.id, content, false);
        case Raises(detail) => return ToolResult(call.id, "tool error: " + detail, true);
      }
    }
  }

  class ConversationState {
    const tenant: string
    const tools: seq<ToolSpec>
    var messages: seq<Message>
    var usage: Usage
    var iterations: int

    constructor (tenant: string, tools: seq<ToolSpec>, messages: seq<Message>)
      ensures this.tenant == tenant && this.tools == tools && this.messages == messages
      ensures usage == Usage(0, 0) && iterations == 0
    {
      this.tenant, this.tools, this.messages, usage, iterations := tenant, tools, messages, Usage(0, 0), 0;
    }

    method Append(message: Message)
      modifies `messages
      ensures messages == old(messages) + [message]
    {
      messages := messages + [message];
    }

    method AddUsage(more: Usage)
      modifies `usage
      ensures usage == old(usage).Plus(more)
    {
      usage := usage.Plus(more);
    }

    function ToRequest(): Request
      reads this
    {
      Request(messages, tenant, tools, None)
    }
  }

  class AgentLoop {
    const maxIterations: nat

    constructor (maxIterations: nat)
      ensures this.maxIterations == maxIterations
    {
      this.maxIterations := maxIterations;
    }

    /** The arguments of a run, as the specification takes them. */
    static ghost function AgentOf(state: ConversationState, tenant: Tenant, executor: ToolExecutor,
                                  chain: Chain.FallbackChain, candidates: seq<Provider>, late: nat -> bool): Agent
      reads executor.registry
    {
      Agent(chain.host.env, chain.handlers, tenant, candidates, state.tenant, state.tools, executor.registry.tools,
            executor.outcome, late)
    }

    static ghost function View(state: ConversationState, executor: ToolExecutor, chain: Chain.FallbackChain,
                               steps: seq<StepResult>, turns: seq<Answered>): AgentTurns.Run
      reads state, executor, chain.host, chain.manager.store
    {
      AgentTurns.Run.Run(state.messages, state.usage, state.iterations, steps, executor.runs, turns, chain.WorldView())
    }

    method Run(state: ConversationState, tenant: Tenant, executor: ToolExecutor, chain: Chain.FallbackChain,
               candidates: seq<Provider>, late: nat -> bool)
      returns (outcome: RunOutcome, ghost turns: seq<Answered>, steps: seq<StepResult>)
      requires chain.Valid()
      modifies state, executor, chain.host, chain.manager.store
      ensures chain.Valid()
      ensures (outcome, View(state, executor, chain, steps, turns))
              == Loop(AgentOf(state, tenant, executor, chain, candidates, late), maxIterations, 0,
                      old(View(state, executor, chain, [], [])))
    {
      ghost var a := AgentOf(state, tenant, executor, chain, candidates, late);
      ghost var start := View(state, executor, chain, [], []);
      ghost var r := start;
      steps := [];
      for i := 0 to maxIterations
        invariant chain.Valid()
        invariant AgentOf(state, tenant, executor, chain, candidates, late) == a
        invariant r == View(state, executor, chain, steps, r.turns)
        invariant Loop(a, maxIterations, i, r) == Loop(a, maxIterations, 0, start)
      {
        if late(i) {
          var result := Finish(state, steps, Deadline, r);
          return Finished(result), r.turns, steps;
        }
        var dispatched;
        dispatched, steps, r := TakeTurn(state, tenant, executor, chain, candidates, late, steps, r);
        if dispatched.Raised? { return Failed(dispatched.error), r.turns, steps; }
        var response := dispatched.response;
        if response.message.toolCalls == [] {
          var result := Finish(state, steps, Completed, r);
          return Finished(result), r.turns, steps;
        }
        RunToolCalls(state, executor, response.message);
        r := RunTools(a, r, response.message.toolCalls);
      }
      var result := Finish(state, steps, MaxIterations, r);
      return Finished(result), r.turns, steps;
    }

    /** One model turn, absorbed if it was answered. */
    method TakeTurn(state: ConversationState, tenant: Tenant, executor: ToolExecutor, chain: Chain.FallbackChain,
                    candidates: seq<Provider>, ghost late: nat -> bool, steps: seq<StepResult>,
                    ghost before: AgentTurns.Run)
      returns (dispatched: Outcome, more: seq<StepResult>, ghost after: AgentTurns.Run)
      requires chain.Valid() && before == View(state, executor, chain, steps, before.turns)
      modifies state, chain.host, chain.manager.store
      ensures chain.Valid() && after == View(state, executor, chain, more, after.turns)
      ensures var a := AgentOf(state, tenant, executor, chain, candidates, late);
              var (outcome, s) := Dispatch(a, before);
              && dispatched == outcome
              && after == match outcome
                          case Raised(_) => before.(world := s.world)
                          case Returned(response) => Absorb(a, before, response, s)
    {
      ghost var a := AgentOf(state, tenant, executor, chain, candidates, late);
      var context;
      dispatched, context := DispatchTurn(state, tenant, chain, candidates);
      ghost var s := chain.Snapshot(context);
      assert (dispatched, s) == Dispatch(a, before);
      if dispatched.Raised? { return dispatched, steps, before.(world := s.world); }
      more := AbsorbResponse(state, steps, context, dispatched.response);
      after := Absorb(a, before, dispatched.response, s);
    }

    /** One model turn on a context of its own, holding its own copy of the candidates. */
    method DispatchTurn(state: ConversationState, tenant: Tenant, chain: Chain.FallbackChain, candidates: seq<Provider>)
      returns (outcome: Outcome, context: Chain.InvocationContext)
      requires chain.Valid()
      modifies chain.host, chain.manager.store
      ensures chain.Valid() && fresh(context)
      ensures (outcome, chain.Snapshot(context))
              == Execute(Job(chain.host.env, Request(state.messages, state.tenant, state.tools, None), tenant),
                         chain.handlers,
                         State(FreshCtx(candidates), old(chain.WorldView())))
    {
      context := new Chain.InvocationContext(state.ToRequest(), tenant, candidates);
      outcome := chain.Execute(context);
    }

    method AbsorbResponse(state: ConversationState, steps: seq<StepResult>, context: Chain.InvocationContext,
                          response: Response)
      returns (more: seq<StepResult>)
      modifies state
      ensures state.messages == old(state.messages) + [response.message]
      ensures state.usage == old(state.usage).Plus(response.usage) && state.iterations == old(state.iterations) + 1
      ensures more == steps + [StepResult(response.message, response.usage, context.attempts)]
    {
      state.Append(response.message);
      state.AddUsage(response.usage);
      state.iterations := state.iterations + 1;
      more := steps + [StepResult(response.message, response.usage, context.attempts)];
    }

    method RunToolCalls(state: ConversationState, executor: ToolExecutor, message: Message)
      modifies state`messages, executor`runs
      ensures (state.messages, executor.runs)
              == var (messages, runs) := ToolMessages(executor.registry.tools, executor.outcome, old(executor.runs),
                                                      message.toolCalls, |message.toolCalls|);
                 (old(state.messages) + messages, runs)
    {
      ghost var before, runs, done := state.messages, executor.runs, [];
      for i := 0 to |message.toolCalls|
        invariant state.messages == before + done
        invariant (done, executor.runs)
                  == ToolMessages(executor.registry.tools, executor.outcome, runs, message.toolCalls, i)
      {
        var result := executor.Execute(message.toolCalls[i]);
        state.Append(ToolMessage(result));
        done := done + [ToolMessage(result)];
      }
    }

    method Finish(state: ConversationState, steps: seq<StepResult>, reason: StopReason, ghost r: AgentTurns.Run)
      returns (result: RunResult)
      requires r.messages == state.messages && r.usage == state.usage && r.steps == steps
      ensures result == Finalize(r, reason)
    {
      var final := NO_ANSWER;
      var i := |state.messages|;
      assert state.messages[..i] == state.messages;
      while i > 0 && state.messages[i - 1].role != Assistant
        invariant 0 <= i <= |state.messages|
        invariant LastAssistant(state.messages[..i]) == LastAssistant(state.messages)
      {
        i := i - 1;
        assert state.messages[..i + 1][..i] == state.messages[..i];
      }
      if i > 0 { final := state.messages[i - 1]; }
      return RunResult(final, state.messages, state.usage, reason, steps);
    }
  }
}
