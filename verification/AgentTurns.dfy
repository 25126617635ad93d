/** The agent loop: model turns through the fallback chain, tool calls in between, as a function on the
    evolving run; the classes of AgentRun are proved against it. */
module AgentTurns {
  import opened Vocabulary
  import opened QuotaStore
  import opened Fallback
  import opened Conservation
  import AttemptTrail

  datatype ToolOutcome = Gives(content: string) | Raises(detail: string)

  datatype Tool = Tool(spec: ToolSpec, hasHandler: bool)

  datatype StopReason = Completed | MaxIterations | Deadline

  datatype StepResult = StepResult(message: Message, usage: Usage, attempts: seq<AttemptRecord>)

  datatype RunResult = RunResult(finalMessage: Message, transcript: seq<Message>, usage: Usage, stopReason: StopReason,
                                 steps: seq<StepResult>)

  datatype RunOutcome = Finished(result: RunResult) | Failed(error: Error)

  /** What a run is given: the world, the chain's links, who pays, the routed candidates, the tools, what the
      n-th tool execution does, and whether the deadline has passed when turn i begins. */
  datatype Agent = Agent(env: Env, handlers: seq<HandlerKind>, tenant: Tenant, candidates: seq<Provider>,
                         tenantId: string, specs: seq<ToolSpec>, tools: map<string, Tool>,
                         toolOutcome: nat -> ToolOutcome, late: nat -> bool)

  /** An answered turn: what it asked for and the calls it took. */
  datatype Answered = Answered(request: Request, trail: seq<Record>)

  /** The run so far. */
  datatype Run = Run(messages: seq<Message>, usage: Usage, iterations: int, steps: seq<StepResult>, toolRuns: nat,
                     turns: seq<Answered>, world: World)

  // ---- tools ----------------------------------------------------------------------------

  /** Total: every call yields a result carrying its own id. */
  function ExecuteTool(tools: map<string, Tool>, outcome: nat -> ToolOutcome, runs: nat, call: ToolCall)
    : (r: (ToolResult, nat))
    ensures r.0.callId == call.id
  {
    if call.name !in tools then (ToolResult(call.id, "unknown tool: " + call.name, true), runs)
    else if !tools[call.name].hasHandler then
      (ToolResult(call.id, "tool " + call.name + " has no synchronous handler", true), runs)
    else
      match outcome(runs)
      case Gives(content) => (ToolResult(call.id, content, false), runs + 1)
      case Raises(detail) => (ToolResult(call.id, "tool error: " + detail, true), runs + 1)
  }

  function ToolMessage(result: ToolResult): Message { Message(Role.Tool, None, [], Some(result)) }

  /** Results of the first n calls of a message, and the tool executions they took. */
  function ToolMessages(tools: map<string, Tool>, outcome: nat -> ToolOutcome, runs: nat, calls: seq<ToolCall>, n: nat)
    : (seq<Message>, nat)
    requires n <= |calls|
  {
    if n == 0 then ([], runs)
    else
      var (messages, before) := ToolMessages(tools, outcome, runs, calls, n - 1);
      var (result, after) := ExecuteTool(tools, outcome, before, calls[n - 1]);
      (messages + [ToolMessage(result)], after)
  }

  // ---- the loop -------------------------------------------------------------------------

  function Snapshot(a: Agent, r: Run): Request { Request(r.messages, a.tenantId, a.specs, None) }

  function JobOf(a: Agent, r: Run): Job { Job(a.env, Snapshot(a, r), a.tenant) }

  /** Every turn starts from a fresh context holding its own copy of the candidates. */
  function Dispatch(a: Agent, r: Run): (Outcome, State) {
    Execute(JobOf(a, r), a.handlers, State(FreshCtx(a.candidates), r.world))
  }

  function Absorb(a: Agent, r: Run, response: Response, s: State): Run {
    r.(messages := r.messages + [response.message],
       usage := r.usage.Plus(response.usage),
       iterations := r.iterations + 1,
       steps := r.steps + [StepResult(response.message, response.usage, s.ctx.attempts)],
       turns := r.turns + [Answered(Snapshot(a, r), s.ctx.trail)],
       world := s.world)
  }

  function RunTools(a: Agent, r: Run, calls: seq<ToolCall>): Run {
    var (messages, runs) := ToolMessages(a.tools, a.toolOutcome, r.toolRuns, calls, |calls|);
    r.(messages := r.messages + messages, toolRuns := runs)
  }

  const NO_ANSWER: Message := Message(Assistant, Some(""), [], None)

  function LastAssistant(messages: seq<Message>): Message {
    if |messages| == 0 then NO_ANSWER
    else if messages[|messages| - 1].role == Assistant then messages[|messages| - 1]
    else LastAssistant(messages[..|messages| - 1])
  }

  function Finalize(r: Run, reason: StopReason): RunResult {
    RunResult(LastAssistant(r.messages), r.messages, r.usage, reason, r.steps)
  }

  /** Turns i, i + 1, ... of at most `max`. */
  function Loop(a: Agent, max: nat, i: nat, r: Run): (RunOutcome, Run)
    requires i <= max
    decreases max - i
  {
    if i == max then (Finished(Finalize(r, MaxIterations)), r)
    else if a.late(i) then (Finished(Finalize(r, Deadline)), r)
    else
      var (outcome, s) := Dispatch(a, r);
      match outcome
      case Raised(error) => (Failed(error), r.(world := s.world))
      case Returned(response) =>
        var r' := Absorb(a, r, response, s);
        if response.message.toolCalls == [] then (Finished(Finalize(r', Completed)), r')
        else Loop(a, max, i + 1, RunTools(a, r', response.message.toolCalls))
  }

  // ---- transcript grammar ---------------------------------------------------------------

  ghost predicate Answers(m: Message, call: ToolCall) {
    m.role == Role.Tool && m.toolCalls == [] && m.toolResult.Some? && m.toolResult.value.callId == call.id
  }

  /** An assistant message and exactly its tool results, in call order. */
  ghost predicate IsTurn(message: Message, segment: seq<Message>) {
    && |segment| == 1 + |message.toolCalls| && segment[0] == message
    && forall i :: 0 <= i < |message.toolCalls| ==> Answers(segment[i + 1], message.toolCalls[i])
  }

  function TurnLength(step: StepResult): nat { 1 + |step.message.toolCalls| }

  /** A transcript tail made of exactly these steps, turn by turn. */
  ghost predicate MadeOf(tail: seq<Message>, steps: seq<StepResult>) {
    if |steps| == 0 then tail == []
    else
      var n := TurnLength(steps[|steps| - 1]);
      && |tail| >= n
      && MadeOf(tail[..|tail| - n], steps[..|steps| - 1])
      && IsTurn(steps[|steps| - 1].message, tail[|tail| - n..])
  }

  function UsageOf(steps: seq<StepResult>): Usage {
    if |steps| == 0 then Usage(0, 0) else UsageOf(steps[..|steps| - 1]).Plus(steps[|steps| - 1].usage)
  }

  ghost predicate Asking(step: StepResult) { step.message.toolCalls != [] }

  /** A run in progress grown out of `start`, which had no steps yet. */
  ghost predicate Grown(start: Run, r: Run) {
    && start.messages <= r.messages
    && MadeOf(r.messages[|start.messages|..], r.steps)
    && r.usage == start.usage.Plus(UsageOf(r.steps))
    && r.iterations == start.iterations + |r.steps|
    && |r.turns| == |r.steps|
  }

  lemma {:induction false} MadeOfSnoc(tail: seq<Message>, steps: seq<StepResult>, segment: seq<Message>,
                                      step: StepResult)
    requires MadeOf(tail, steps) && IsTurn(step.message, segment)
    ensures MadeOf(tail + segment, steps + [step])
  {
    var all := tail + segment;
    assert (steps + [step])[..|steps|] == steps;
    assert all[..|all| - |segment|] == tail && all[|all| - |segment|..] == segment;
  }

  lemma {:induction false} ToolMessagesAnswer(tools: map<string, Tool>, outcome: nat -> ToolOutcome, runs: nat,
                                               calls: seq<ToolCall>, n: nat)
    requires n <= |calls|
    ensures var messages := ToolMessages(tools, outcome, runs, calls, n).0;
            |messages| == n && forall i :: 0 <= i < n ==> Answers(messages[i], calls[i])
  {
    if n > 0 { ToolMessagesAnswer(tools, outcome, runs, calls, n - 1); }
  }

  ghost predicate AllAnswered(messages: seq<Message>, calls: seq<ToolCall>) {
    |messages| == |calls| && forall i :: 0 <= i < |calls| ==> Answers(messages[i], calls[i])
  }

  lemma {:induction false} TurnMakes(tail: seq<Message>, messages: seq<Message>, steps: seq<StepResult>,
                                     step: StepResult)
    requires MadeOf(tail, steps) && AllAnswered(messages, step.message.toolCalls)
    ensures MadeOf(tail + [step.message] + messages, steps + [step])
  {
    assert IsTurn(step.message, [step.message] + messages);
    MadeOfSnoc(tail, steps, [step.message] + messages, step);
    assert tail + [step.message] + messages == tail + ([step.message] + messages);
  }

  lemma TurnGrows(a: Agent, start: Run, r: Run, response: Response, s: State)
    requires Grown(start, r)
    ensures Grown(start, RunTools(a, Absorb(a, r, response, s), response.message.toolCalls))
  {
    var step := StepResult(response.message, response.usage, s.ctx.attempts);
    var calls := response.message.toolCalls;
    var messages := ToolMessages(a.tools, a.toolOutcome, r.toolRuns, calls, |calls|).0;
    ToolMessagesAnswer(a.tools, a.toolOutcome, r.toolRuns, calls, |calls|);
    TurnMakes(r.messages[|start.messages|..], messages, r.steps, step);
    GrownSnoc(start, r, step, messages, RunTools(a, Absorb(a, r, response, s), calls));
  }

  lemma {:induction false} GrownSnoc(start: Run, r: Run, step: StepResult, messages: seq<Message>, r': Run)
    requires Grown(start, r)
    requires MadeOf(r.messages[|start.messages|..] + [step.message] + messages, r.steps + [step])
    requires r'.messages == r.messages + [step.message] + messages && r'.steps == r.steps + [step]
    requires r'.usage == r.usage.Plus(step.usage) && r'.iterations == r.iterations + 1 && |r'.turns| == |r.turns| + 1
    ensures Grown(start, r')
  {
    assert r'.messages[|start.messages|..] == r.messages[|start.messages|..] + [step.message] + messages;
    assert r'.steps[..|r.steps|] == r.steps;
  }

  /** What a finished run's transcript, usage and stop reason are. */
  ghost predicate RunLaws(max: nat, start: Run, result: RunResult) {
    var steps := result.steps;
    && start.messages <= result.transcript
    && MadeOf(result.transcript[|start.messages|..], steps)
    && result.usage == start.usage.Plus(UsageOf(steps))
    && |steps| <= max
    && (forall i :: 0 <= i < |steps| - 1 ==> Asking(steps[i]))
    && (result.stopReason == Completed <==> steps != [] && !Asking(steps[|steps| - 1]))
    && (result.stopReason == MaxIterations <==> |steps| == max && (forall i :: 0 <= i < max ==> Asking(steps[i])))
  }

  ghost predicate AllAsking(steps: seq<StepResult>) { forall j :: 0 <= j < |steps| ==> Asking(steps[j]) }

  /** A run that stops here meets the laws if its stop reason fits. */
  lemma StopLaws(max: nat, start: Run, r: Run, reason: StopReason)
    requires Grown(start, r) && |r.steps| <= max
    requires forall j :: 0 <= j < |r.steps| - 1 ==> Asking(r.steps[j])
    requires reason == Completed <==> r.steps != [] && !Asking(r.steps[|r.steps| - 1])
    requires reason == MaxIterations <==> reason != Completed && |r.steps| == max
    ensures RunLaws(max, start, Finalize(r, reason))
  {}

  lemma NoTools(a: Agent, r: Run)
    ensures RunTools(a, r, []) == r
  {}

  /** A turn without tool calls ends the run lawfully. */
  lemma LastTurnLaws(a: Agent, max: nat, start: Run, r: Run, response: Response, s: State)
    requires Grown(start, r) && |r.steps| < max && AllAsking(r.steps) && response.message.toolCalls == []
    ensures RunLaws(max, start, Finalize(Absorb(a, r, response, s), Completed))
  {
    TurnGrows(a, start, r, response, s);
    NoTools(a, Absorb(a, r, response, s));
    StopLaws(max, start, Absorb(a, r, response, s), Completed);
  }

  lemma {:induction false} LoopLaws(a: Agent, max: nat, i: nat, start: Run, r: Run)
    requires Grown(start, r) && i == |r.steps| <= max && AllAsking(r.steps)
    ensures var (outcome, final) := Loop(a, max, i, r);
            outcome.Finished? ==> RunLaws(max, start, outcome.result)
    decreases max - i
  {
    if i == max {
      StopLaws(max, start, r, MaxIterations);
    } else if a.late(i) {
      StopLaws(max, start, r, Deadline);
    } else {
      var (outcome, s) := Dispatch(a, r);
      if outcome.Returned? {
        var calls := outcome.response.message.toolCalls;
        if calls == [] {
          LastTurnLaws(a, max, start, r, outcome.response, s);
        } else {
          TurnGrows(a, start, r, outcome.response, s);
          LoopLaws(a, max, i + 1, start, RunTools(a, Absorb(a, r, outcome.response, s), calls));
        }
      }
    }
  }

  lemma {:induction false} LoopSteps(a: Agent, max: nat, i: nat, r: Run)
    requires i <= max
    ensures var (outcome, final) := Loop(a, max, i, r); outcome.Finished? ==> outcome.result.steps == final.steps
    decreases max - i
  {
    if i < max && !a.late(i) {
      var (outcome, s) := Dispatch(a, r);
      if outcome.Returned? && outcome.response.message.toolCalls != [] {
        LoopSteps(a, max, i + 1, RunTools(a, Absorb(a, r, outcome.response, s), outcome.response.message.toolCalls));
      }
    }
  }

  /** The transcript theorem. */
  lemma {:induction false} TranscriptTheorem(a: Agent, max: nat, start: Run)
    requires start.steps == [] && start.turns == []
    ensures var (outcome, final) := Loop(a, max, 0, start);
            outcome.Finished? ==> RunLaws(max, start, outcome.result)
  {
    assert start.messages[|start.messages|..] == [];
    LoopLaws(a, max, 0, start, start);
  }

  // ---- final message --------------------------------------------------------------------

  lemma {:induction false} LastAssistantPast(messages: seq<Message>, more: seq<Message>)
    requires forall i :: 0 <= i < |more| ==> more[i].role != Assistant
    ensures LastAssistant(messages + more) == LastAssistant(messages)
  {
    if more == [] {
      assert messages + more == messages;
    } else {
      var all := messages + more;
      assert all[..|all| - 1] == messages + more[..|more| - 1];
      LastAssistantPast(messages, more[..|more| - 1]);
    }
  }

  lemma {:induction false} LastAssistantOfTurn(before: seq<Message>, message: Message, segment: seq<Message>)
    requires IsTurn(message, segment) && message.role == Assistant
    ensures LastAssistant(before + segment) == message
  {
    var results := segment[1..];
    forall i | 0 <= i < |results| ensures results[i].role != Assistant {
      assert Answers(segment[i + 1], message.toolCalls[i]);
    }
    assert before + segment == (before + [message]) + results;
    LastAssistantPast(before + [message], results);
  }

  /** The final message is the last turn's answer. */
  lemma {:induction false} FinalMessageIsLast(initial: seq<Message>, tail: seq<Message>, steps: seq<StepResult>)
    requires MadeOf(tail, steps) && steps != []
    requires steps[|steps| - 1].message.role == Assistant
    ensures LastAssistant(initial + tail) == steps[|steps| - 1].message
  {
    var last := steps[|steps| - 1];
    var cut := |tail| - TurnLength(last);
    assert initial + tail == initial + tail[..cut] + tail[cut..];
    LastAssistantOfTurn(initial + tail[..cut], last.message, tail[cut..]);
  }

  // ---- calls and quota of a whole run ---------------------------------------------------

  /** At most `max` turns, each within its own budget of calls. */
  lemma {:induction false} RunBudget(a: Agent, max: nat, i: nat, r: Run)
    requires i <= max && a.handlers == GATEWAY
    ensures |Loop(a, max, i, r).1.world.log|
            <= |r.world.log| + (max - i) * AttemptTrail.Budget(JobOf(a, r), a.candidates)
    decreases max - i
  {
    var budget := AttemptTrail.Budget(JobOf(a, r), a.candidates);
    NoTurn(max - i, budget);
    if i < max && !a.late(i) {
      AttemptTrail.TurnBudget(JobOf(a, r), a.candidates, r.world);
      var (outcome, s) := Dispatch(a, r);
      OneTurn(|r.world.log|, |s.world.log|, max - i, budget);
      if outcome.Returned? && outcome.response.message.toolCalls != [] {
        var r' := RunTools(a, Absorb(a, r, outcome.response, s), outcome.response.message.toolCalls);
        BudgetSame(JobOf(a, r), JobOf(a, r'), a.candidates);
        RunBudget(a, max, i + 1, r');
        OneMoreTurn(|r.world.log|, |s.world.log|, |Loop(a, max, i + 1, r').1.world.log|, max - i, budget);
      }
    }
  }

  lemma NoTurn(turns: nat, budget: nat)
    ensures turns * budget >= 0
  {}

  lemma OneTurn(before: nat, after: nat, turns: nat, budget: nat)
    requires turns > 0 && after <= before + budget
    ensures after <= before + turns * budget
  {}

  lemma OneMoreTurn(before: nat, after: nat, last: nat, turns: nat, budget: nat)
    requires turns > 0 && after <= before + budget && last <= after + (turns - 1) * budget
    ensures last <= before + turns * budget
  {}

  lemma {:induction false} BudgetSame(one: Job, two: Job, candidates: seq<Provider>)
    requires one.env == two.env && one.tenant == two.tenant
    ensures AttemptTrail.Budget(one, candidates) == AttemptTrail.Budget(two, candidates)
  {
    if candidates != [] { BudgetSame(one, two, candidates[1..]); }
  }

  ghost predicate AllOnRoute(candidates: seq<Provider>, turns: seq<Answered>) {
    forall i :: 0 <= i < |turns| ==> OnRoute(candidates, Visited(turns[i].trail))
  }

  /** The estimates of all candidates that were called on and left behind, turn by turn. */
  function AbandonedCost(a: Agent, turns: seq<Answered>): int
    requires AllOnRoute(a.candidates, turns)
  {
    if |turns| == 0 then 0
    else
      var last := turns[|turns| - 1];
      AbandonedCost(a, turns[..|turns| - 1])
      + Estimates(a.env, last.request, a.candidates, Abandoned(Visited(last.trail)))
  }

  /** How many candidates were called on, turn by turn. */
  function CalledOn(turns: seq<Answered>): nat {
    if |turns| == 0 then 0 else CalledOn(turns[..|turns| - 1]) + |Visited(turns[|turns| - 1].trail)|
  }

  /** What the answered turns cost in one window. */
  function Bill(a: Agent, r: Run, window: Window): int
    requires AllOnRoute(a.candidates, r.turns)
  {
    if window == RequestsPerMin then CalledOn(r.turns)
    else UsageOf(r.steps).Total() + AbandonedCost(a, r.turns)
  }

  ghost predicate Billed(a: Agent, start: Run, r: Run, window: Window, period: nat) {
    && AllOnRoute(a.candidates, r.turns)
    && Logged(r.world.history, a.tenant.id, window, period)
       == Logged(start.world.history, a.tenant.id, window, period) + Bill(a, r, window)
  }

  lemma BillSnoc(a: Agent, r: Run, r': Run, step: StepResult, turn: Answered, window: Window)
    requires r'.steps == r.steps + [step] && r'.turns == r.turns + [turn]
    requires AllOnRoute(a.candidates, r.turns) && OnRoute(a.candidates, Visited(turn.trail))
    ensures AllOnRoute(a.candidates, r'.turns)
    ensures Bill(a, r', window)
            == Bill(a, r, window) + if window == RequestsPerMin then |Visited(turn.trail)|
                                    else step.usage.Total()
                                         + Estimates(a.env, turn.request, a.candidates, Abandoned(Visited(turn.trail)))
  {
    assert r'.turns[..|r.turns|] == r.turns && r'.steps[..|r.steps|] == r.steps;
  }

  lemma TurnBilled(a: Agent, start: Run, r: Run, window: Window, period: nat)
    requires a.handlers == GATEWAY && Billed(a, start, r, window, period) && Dispatch(a, r).0.Returned?
    requires Steady(a.env, r.world.readings, Dispatch(a, r).1.world.readings, window, period)
    ensures var (outcome, s) := Dispatch(a, r);
            Billed(a, start, Absorb(a, r, outcome.response, s), window, period)
  {
    var (outcome, s) := Dispatch(a, r);
    TurnConservation(JobOf(a, r), a.candidates, r.world, window, period);
    AnswerWasCalledFor(JobOf(a, r), a.candidates, r.world);
    BillSnoc(a, r, Absorb(a, r, outcome.response, s), StepResult(outcome.response.message, outcome.response.usage,
             s.ctx.attempts), Answered(Snapshot(a, r), s.ctx.trail), window);
  }

  /** What the vendors saw in these turns. */
  function LogOf(turns: seq<Answered>): seq<VendorCall> {
    if |turns| == 0 then []
    else LogOf(turns[..|turns| - 1]) + Calls(turns[|turns| - 1].request, turns[|turns| - 1].trail)
  }

  /** The trails of a finished run are no invention: together they are what the vendors saw, each is what its
      step's audit log records, and each ends with the answer of its step. */
  ghost predicate Told(start: Run, r: Run) {
    && r.world.log == start.world.log + LogOf(r.turns)
    && |r.turns| == |r.steps|
    && forall i :: 0 <= i < |r.turns| ==> TurnTold(r.turns[i], r.steps[i])
  }

  ghost predicate TurnTold(turn: Answered, step: StepResult) {
    && step.attempts == Entries(turn.trail)
    && turn.trail != []
    && var last := turn.trail[|turn.trail| - 1].reply;
    && last.Answer? && last.response.message == step.message && last.response.usage == step.usage
  }

  lemma ToldSnoc(start: Run, r: Run, r': Run, turn: Answered, step: StepResult)
    requires Told(start, r) && r'.turns == r.turns + [turn] && r'.steps == r.steps + [step]
    requires TurnTold(turn, step) && r'.world.log == r.world.log + Calls(turn.request, turn.trail)
    ensures Told(start, r')
  {
    assert r'.turns[..|r.turns|] == r.turns;
  }

  lemma {:induction false} LoopTold(a: Agent, max: nat, i: nat, start: Run, r: Run)
    requires a.handlers == GATEWAY && i <= max && Told(start, r)
    ensures var (outcome, final) := Loop(a, max, i, r);
            outcome.Finished? ==> Told(start, final) && outcome.result.steps == final.steps
    decreases max - i
  {
    if i < max && !a.late(i) {
      AttemptTrail.TrailTheorem(JobOf(a, r), a.candidates, r.world);
      var (outcome, s) := Dispatch(a, r);
      if outcome.Returned? {
        var response := outcome.response;
        var step := StepResult(response.message, response.usage, s.ctx.attempts);
        ToldSnoc(start, r, Absorb(a, r, response, s), Answered(Snapshot(a, r), s.ctx.trail), step);
        if response.message.toolCalls != [] {
          LoopTold(a, max, i + 1, start, RunTools(a, Absorb(a, r, response, s), response.message.toolCalls));
        }
      }
    }
  }

  /** The calls of a finished run, turn by turn. */
  lemma {:induction false} CallsTheorem(a: Agent, max: nat, start: Run)
    requires a.handlers == GATEWAY && start.steps == [] && start.turns == []
    ensures var (outcome, final) := Loop(a, max, 0, start);
            outcome.Finished? ==> Told(start, final) && outcome.result.steps == final.steps
  {
    LoopTold(a, max, 0, start, start);
  }

  lemma {:induction false} LoopReadings(a: Agent, max: nat, i: nat, r: Run)
    requires a.handlers == GATEWAY && i <= max
    ensures Loop(a, max, i, r).1.world.readings >= r.world.readings
    decreases max - i
  {
    if i < max && !a.late(i) {
      TurnReadings(JobOf(a, r), a.candidates, r.world);
      var (outcome, s) := Dispatch(a, r);
      if outcome.Returned? && outcome.response.message.toolCalls != [] {
        LoopReadings(a, max, i + 1, RunTools(a, Absorb(a, r, outcome.response, s), outcome.response.message.toolCalls));
      }
    }
  }

  lemma {:induction false} LoopBilled(a: Agent, max: nat, i: nat, start: Run, r: Run, window: Window, period: nat)
    requires a.handlers == GATEWAY && i <= max && Billed(a, start, r, window, period)
    requires Steady(a.env, r.world.readings, Loop(a, max, i, r).1.world.readings, window, period)
    ensures var (outcome, final) := Loop(a, max, i, r);
            outcome.Finished? ==> Billed(a, start, final, window, period)
    decreases max - i
  {
    if i < max && !a.late(i) {
      TurnReadings(JobOf(a, r), a.candidates, r.world);
      var (outcome, s) := Dispatch(a, r);
      if outcome.Returned? {
        var r' := Absorb(a, r, outcome.response, s);
        if outcome.response.message.toolCalls == [] {
          TurnBilled(a, start, r, window, period);
        } else {
          var r'' := RunTools(a, r', outcome.response.message.toolCalls);
          LoopReadings(a, max, i + 1, r'');
          TurnBilled(a, start, r, window, period);
          LoopBilled(a, max, i + 1, start, r'', window, period);
        }
      }
    }
  }

  lemma {:induction false} LoopUpToDate(a: Agent, max: nat, i: nat, r: Run)
    requires a.handlers == GATEWAY && i <= max && ClockForward(a.env) && UpToDate(a.env, r.world)
    ensures UpToDate(a.env, Loop(a, max, i, r).1.world)
    decreases max - i
  {
    if i < max && !a.late(i) {
      TurnUpToDate(JobOf(a, r), a.candidates, r.world);
      var (outcome, s) := Dispatch(a, r);
      if outcome.Returned? && outcome.response.message.toolCalls != [] {
        LoopUpToDate(a, max, i + 1, RunTools(a, Absorb(a, r, outcome.response, s), outcome.response.message.toolCalls));
      }
    }
  }

  /** From `start` to the end of the run no window rolls over, nor at the next reading of the clock. */
  ghost predicate NoRollover(a: Agent, max: nat, start: Run, window: Window) {
    var first, last := start.world.readings, Loop(a, max, 0, start).1.world.readings;
    Steady(a.env, first, last + 1, window, Period(window, a.env.clock(first)))
  }

  /** What the tenant's counter for this window shows by the end of the run over what it showed before. */
  function Rise(a: Agent, max: nat, start: Run, window: Window): int {
    var final, clock := Loop(a, max, 0, start).1, a.env.clock;
    Shown(Replay(final.world.history), a.tenant.id, window, clock(final.world.readings))
    - Shown(Replay(start.world.history), a.tenant.id, window, clock(start.world.readings))
  }

  /** Whole-run conservation: with no rollover and nobody else dispatching for the tenant, a run that returns
      raises the token counters by the reported usage plus the estimates of the candidates that were called
      on and left behind, and the request counter by the number of candidates called on. */
  lemma {:induction false} RunConservation(a: Agent, max: nat, start: Run, window: Window)
    requires a.handlers == GATEWAY && start.steps == [] && start.turns == [] && start.usage == Usage(0, 0)
    requires ClockForward(a.env) && UpToDate(a.env, start.world) && NoRollover(a, max, start, window)
    requires Loop(a, max, 0, start).0.Finished?
    ensures var (outcome, final) := Loop(a, max, 0, start);
            && AllOnRoute(a.candidates, final.turns)
            && Rise(a, max, start, window)
               == if window == RequestsPerMin then CalledOn(final.turns)
                  else outcome.result.usage.Total() + AbandonedCost(a, final.turns)
  {
    RiseIsLogged(a, max, start, window);
    LoopBilled(a, max, 0, start, start, window, Period(window, a.env.clock(start.world.readings)));
    UsageOfRun(a, max, start);
  }

  lemma {:induction false} RiseIsLogged(a: Agent, max: nat, start: Run, window: Window)
    requires a.handlers == GATEWAY
    requires ClockForward(a.env) && UpToDate(a.env, start.world) && NoRollover(a, max, start, window)
    ensures var period := Period(window, a.env.clock(start.world.readings));
            Rise(a, max, start, window)
            == Logged(Loop(a, max, 0, start).1.world.history, a.tenant.id, window, period)
               - Logged(start.world.history, a.tenant.id, window, period)
  {
    var final := Loop(a, max, 0, start).1;
    LoopReadings(a, max, 0, start);
    LoopUpToDate(a, max, 0, start);
    ReadIsLoggedSum(start.world.history, a.tenant.id, window, a.env.clock(start.world.readings));
    ReadIsLoggedSum(final.world.history, a.tenant.id, window, a.env.clock(final.world.readings));
  }

  lemma {:induction false} UsageOfRun(a: Agent, max: nat, start: Run)
    requires start.steps == [] && start.turns == [] && start.usage == Usage(0, 0)
    ensures var (outcome, final) := Loop(a, max, 0, start);
            outcome.Finished? ==> outcome.result.usage == UsageOf(final.steps) && outcome.result.steps == final.steps
  {
    assert start.messages[|start.messages|..] == [];
    LoopLaws(a, max, 0, start, start);
    LoopSteps(a, max, 0, start);
  }

  /** A run that fails: the turns answered before are charged as above, and every candidate the failing turn
      called on keeps its estimate charged. */
  lemma {:induction false} FailedRunConservation(a: Agent, max: nat, start: Run, window: Window) returns (before: Run)
    requires a.handlers == GATEWAY && start.steps == [] && start.turns == []
    requires ClockForward(a.env) && UpToDate(a.env, start.world) && NoRollover(a, max, start, window)
    requires Loop(a, max, 0, start).0.Failed?
    ensures FailsAfter(a, before, Loop(a, max, 0, start)) && AllOnRoute(a.candidates, before.turns)
    ensures var (outcome, s) := Dispatch(a, before);
            var holders := Holders(a.env.config, s);
            && OnRoute(a.candidates, holders)
            && Rise(a, max, start, window)
               == Bill(a, before, window)
                  + TurnCost(a.env, Snapshot(a, before), a.candidates, holders, outcome, window)
  {
    var period := Period(window, a.env.clock(start.world.readings));
    RiseIsLogged(a, max, start, window);
    LoopReadings(a, max, 0, start);
    before := FailingTurn(a, max, 0, start, start, window, period);
    TurnConservation(JobOf(a, before), a.candidates, before.world, window, period);
  }

  /** The run ended when the turn after `before` failed. */
  ghost predicate FailsAfter(a: Agent, before: Run, ended: (RunOutcome, Run)) {
    var (outcome, s) := Dispatch(a, before);
    outcome.Raised? && ended == (Failed(outcome.error), before.(world := s.world))
  }

  lemma {:induction false} FailingTurn(a: Agent, max: nat, i: nat, start: Run, r: Run, window: Window, period: nat)
    returns (before: Run)
    requires a.handlers == GATEWAY && i <= max && Billed(a, start, r, window, period)
    requires start.world.readings <= r.world.readings
    requires Steady(a.env, r.world.readings, Loop(a, max, i, r).1.world.readings, window, period)
    requires Loop(a, max, i, r).0.Failed?
    ensures FailsAfter(a, before, Loop(a, max, i, r)) && Billed(a, start, before, window, period)
    ensures Steady(a.env, before.world.readings, Loop(a, max, i, r).1.world.readings, window, period)
    decreases max - i
  {
    var (outcome, s) := Dispatch(a, r);
    if outcome.Raised? {
      before := r;
    } else {
      TurnReadings(JobOf(a, r), a.candidates, r.world);
      var r' := RunTools(a, Absorb(a, r, outcome.response, s), outcome.response.message.toolCalls);
      LoopReadings(a, max, i + 1, r');
      TurnBilled(a, start, r, window, period);
      before := FailingTurn(a, max, i + 1, start, r', window, period);
    }
  }

  // ---- exact accounting -----------------------------------------------------------------

  /** All calls went to one candidate. */
  ghost predicate OneCandidate(trail: seq<Record>) {
    forall i, j :: 0 <= i < j < |trail| ==> trail[i].left == trail[j].left
  }

  lemma {:induction false} OneSnoc(trail: seq<Record>)
    requires |trail| > 1
    ensures var n := |trail| - 1;
            OneCandidate(trail) <==> OneCandidate(trail[..n]) && trail[n - 1].left == trail[n].left
  {
    var n := |trail| - 1;
    if OneCandidate(trail) {
      forall i, j | 0 <= i < j < n ensures trail[..n][i].left == trail[..n][j].left {
        assert trail[i].left == trail[j].left;
      }
    }
    if OneCandidate(trail[..n]) && trail[n - 1].left == trail[n].left {
      forall i, j | 0 <= i < j < |trail| ensures trail[i].left == trail[j].left {
        assert i < n - 1 ==> trail[..n][i].left == trail[..n][n - 1].left;
        assert j < n ==> trail[..n][i].left == trail[..n][j].left;
      }
    }
  }

  lemma {:induction false} VisitedOne(trail: seq<Record>)
    requires trail != []
    ensures |Visited(trail)| >= 1 && (|Visited(trail)| == 1 <==> OneCandidate(trail))
  {
    if |trail| > 1 {
      VisitedOne(trail[..|trail| - 1]);
      OneSnoc(trail);
    }
  }

  /** Every candidate estimates more than nothing for every request that was answered. */
  ghost predicate AllEstimated(a: Agent, turns: seq<Answered>) {
    forall i, p :: 0 <= i < |turns| && p in a.candidates ==> a.env.estimate(p, turns[i].request) > 0
  }

  lemma {:induction false} EstimatesPositive(env: Env, request: Request, candidates: seq<Provider>, lefts: seq<nat>)
    requires OnRoute(candidates, lefts) && forall p :: p in candidates ==> env.estimate(p, request) > 0
    ensures Estimates(env, request, candidates, lefts) >= 0
    ensures Estimates(env, request, candidates, lefts) == 0 <==> lefts == []
  {
    if lefts != [] { EstimatesPositive(env, request, candidates, lefts[..|lefts| - 1]); }
  }

  ghost predicate OneCandidateEach(turns: seq<Answered>) {
    forall i :: 0 <= i < |turns| ==> OneCandidate(turns[i].trail)
  }

  lemma {:induction false} OneRequestEach(turns: seq<Answered>)
    requires forall i :: 0 <= i < |turns| ==> turns[i].trail != []
    ensures CalledOn(turns) >= |turns| && (CalledOn(turns) == |turns| <==> OneCandidateEach(turns))
  {
    if turns != [] {
      var before := turns[..|turns| - 1];
      OneRequestEach(before);
      VisitedOne(turns[|turns| - 1].trail);
      assert OneCandidateEach(turns) <==> OneCandidateEach(before) && OneCandidate(turns[|turns| - 1].trail) by {
        EachSnoc(turns);
      }
    }
  }

  lemma {:induction false} EachSnoc(turns: seq<Answered>)
    requires turns != []
    ensures OneCandidateEach(turns)
            <==> OneCandidateEach(turns[..|turns| - 1]) && OneCandidate(turns[|turns| - 1].trail)
  {
    var before := turns[..|turns| - 1];
    if OneCandidateEach(turns) {
      forall i | 0 <= i < |before| ensures OneCandidate(before[i].trail) { assert OneCandidate(turns[i].trail); }
    } else {
      var i :| 0 <= i < |turns| && !OneCandidate(turns[i].trail);
      assert i < |before| ==> before[i] == turns[i];
    }
  }

  lemma {:induction false} EstimatedBefore(a: Agent, turns: seq<Answered>)
    requires turns != [] && AllEstimated(a, turns)
    ensures AllEstimated(a, turns[..|turns| - 1])
  {
    var before := turns[..|turns| - 1];
    forall i, p | 0 <= i < |before| && p in a.candidates ensures a.env.estimate(p, before[i].request) > 0 {
      assert before[i] == turns[i];
    }
  }

  lemma {:induction false} NoCostNoFallback(a: Agent, turns: seq<Answered>)
    requires AllOnRoute(a.candidates, turns) && forall i :: 0 <= i < |turns| ==> turns[i].trail != []
    ensures OneCandidateEach(turns) ==> AbandonedCost(a, turns) == 0
    ensures AllEstimated(a, turns) ==>
              AbandonedCost(a, turns) >= 0 && (AbandonedCost(a, turns) == 0 ==> OneCandidateEach(turns))
  {
    if turns != [] {
      var before, last := turns[..|turns| - 1], turns[|turns| - 1];
      NoCostNoFallback(a, before);
      VisitedOne(last.trail);
      EachSnoc(turns);
      if AllEstimated(a, turns) {
        EstimatedBefore(a, turns);
        EstimatesPositive(a.env, last.request, a.candidates, Abandoned(Visited(last.trail)));
      }
    }
  }

  /** What reservations reconciled without drift would come to: the reported usage, and a request per turn. */
  function Exact(result: RunResult, window: Window): int {
    if window == RequestsPerMin then |result.steps| else result.usage.Total()
  }

  /** The counters rise by exactly that if no turn called on a second candidate; for the request counter, and
      for the token counters where estimates are positive, only then. */
  lemma {:induction false} NothingAbandoned(a: Agent, max: nat, start: Run, window: Window)
    requires a.handlers == GATEWAY && start.steps == [] && start.turns == [] && start.usage == Usage(0, 0)
    requires ClockForward(a.env) && UpToDate(a.env, start.world) && NoRollover(a, max, start, window)
    requires Loop(a, max, 0, start).0.Finished?
    ensures var (outcome, final) := Loop(a, max, 0, start);
            var exact := Rise(a, max, start, window) == Exact(outcome.result, window);
            && (OneCandidateEach(final.turns) ==> exact)
            && (window == RequestsPerMin || AllEstimated(a, final.turns) ==>
                  (exact <==> OneCandidateEach(final.turns)))
  {
    var turns := Loop(a, max, 0, start).1.turns;
    RunConservation(a, max, start, window);
    CallsTheorem(a, max, start);
    TurnsHaveCalls(start, Loop(a, max, 0, start).1);
    OneRequestEach(turns);
    NoCostNoFallback(a, turns);
  }

  lemma {:induction false} TurnsHaveCalls(start: Run, r: Run)
    requires Told(start, r)
    ensures forall i :: 0 <= i < |r.turns| ==> r.turns[i].trail != []
  {
    forall i | 0 <= i < |r.turns| ensures r.turns[i].trail != [] { assert TurnTold(r.turns[i], r.steps[i]); }
  }
}
