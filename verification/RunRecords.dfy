/** A finished agent run in terms of its inputs: what every model call was asked, what every tool call came to,
    what the run cost and why it stopped. */
module RunRecords {
  import opened Vocabulary
  import opened Fallback
  import opened AgentTurns

  // ---- tool results ---------------------------------------------------------------------

  /** This call reaches a tool that can be run. */
  predicate Runs(tools: map<string, Tool>, call: ToolCall) { call.name in tools && tools[call.name].hasHandler }

  /** How many of the first n calls do. */
  function RunsBefore(tools: map<string, Tool>, calls: seq<ToolCall>, n: nat): nat
    requires n <= |calls|
  {
    if n == 0 then 0 else RunsBefore(tools, calls, n - 1) + if Runs(tools, calls[n - 1]) then 1 else 0
  }

  /** The message that answers a call, n tools having been run before: an error naming a tool that is unknown or has
      no handler, what the tool returned, or an error telling what it raised. */
  ghost predicate RightResult(tools: map<string, Tool>, outcome: nat -> ToolOutcome, n: nat, call: ToolCall, m: Message)
  {
    && m.role == Role.Tool && m.content == None && m.toolCalls == [] && m.toolResult.Some?
    && var result := m.toolResult.value;
    && result.callId == call.id
    && if call.name !in tools then result.isError && result.content == "unknown tool: " + call.name
       else if !tools[call.name].hasHandler then
         result.isError && result.content == "tool " + call.name + " has no synchronous handler"
       else match outcome(n)
            case Gives(content) => !result.isError && result.content == content
            case Raises(detail) => result.isError && result.content == "tool error: " + detail
  }

  lemma {:induction false} ResultRight(tools: map<string, Tool>, outcome: nat -> ToolOutcome, runs: nat, call: ToolCall)
    ensures var (result, after) := ExecuteTool(tools, outcome, runs, call);
            && RightResult(tools, outcome, runs, call, ToolMessage(result))
            && after == runs + if Runs(tools, call) then 1 else 0
  {}

  /** These messages answer these calls, n tools having been run before. */
  ghost predicate AllRight(tools: map<string, Tool>, outcome: nat -> ToolOutcome, n: nat, calls: seq<ToolCall>,
                           results: seq<Message>)
  {
    && |results| == |calls|
    && forall i {:trigger results[i]} :: 0 <= i < |results| ==>
         RightResult(tools, outcome, n + RunsBefore(tools, calls, i), calls[i], results[i])
  }

  lemma {:induction false} ToolMessagesRight(tools: map<string, Tool>, outcome: nat -> ToolOutcome, runs: nat,
                                             calls: seq<ToolCall>, n: nat)
    requires n <= |calls|
    ensures var (messages, after) := ToolMessages(tools, outcome, runs, calls, n);
            && |messages| == n && after == runs + RunsBefore(tools, calls, n)
            && forall i {:trigger messages[i]} :: 0 <= i < n ==>
                 RightResult(tools, outcome, runs + RunsBefore(tools, calls, i), calls[i], messages[i])
  {
    if n > 0 {
      ToolMessagesRight(tools, outcome, runs, calls, n - 1);
      ResultRight(tools, outcome, ToolMessages(tools, outcome, runs, calls, n - 1).1, calls[n - 1]);
    }
  }

  // ---- the transcript -------------------------------------------------------------------

  /** Tools run in the first k turns. */
  function RunsIn(tools: map<string, Tool>, steps: seq<StepResult>, k: nat): nat
    requires k <= |steps|
  {
    if k == 0 then 0
    else
      var calls := steps[k - 1].message.toolCalls;
      RunsIn(tools, steps, k - 1) + RunsBefore(tools, calls, |calls|)
  }

  /** Messages the first k turns add to the transcript. */
  function Added(steps: seq<StepResult>, k: nat): nat
    requires k <= |steps|
  {
    if k == 0 then 0 else Added(steps, k - 1) + 1 + |steps[k - 1].message.toolCalls|
  }

  function Prompts(steps: seq<StepResult>, k: nat): int
    requires k <= |steps|
  {
    if k == 0 then 0 else Prompts(steps, k - 1) + steps[k - 1].usage.prompt
  }

  function Completions(steps: seq<StepResult>, k: nat): int
    requires k <= |steps|
  {
    if k == 0 then 0 else Completions(steps, k - 1) + steps[k - 1].usage.completion
  }

  lemma {:induction false} SumsKeep(tools: map<string, Tool>, steps: seq<StepResult>, step: StepResult, k: nat)
    requires k <= |steps|
    ensures RunsIn(tools, steps + [step], k) == RunsIn(tools, steps, k)
    ensures Added(steps + [step], k) == Added(steps, k)
    ensures Prompts(steps + [step], k) == Prompts(steps, k)
    ensures Completions(steps + [step], k) == Completions(steps, k)
  {
    if k > 0 { SumsKeep(tools, steps, step, k - 1); }
  }

  lemma {:induction false} AddedGrows(steps: seq<StepResult>, k: nat, l: nat)
    requires k <= l <= |steps|
    ensures Added(steps, k) <= Added(steps, l)
  {
    if k < l { AddedGrows(steps, k, l - 1); }
  }

  /** The k-th turn's message stands where the turns before it end, and its results right after it. */
  ghost predicate TurnAt(a: Agent, start: Run, messages: seq<Message>, steps: seq<StepResult>, k: nat)
    requires k < |steps|
  {
    var at, calls := |start.messages| + Added(steps, k), steps[k].message.toolCalls;
    && at + 1 + |calls| <= |messages| && messages[at] == steps[k].message
    && AllRight(a.tools, a.toolOutcome, start.toolRuns + RunsIn(a.tools, steps, k), calls,
                messages[at + 1..at + 1 + |calls|])
  }

  /** The opening messages, then turn after turn. */
  ghost predicate Story(a: Agent, start: Run, messages: seq<Message>, steps: seq<StepResult>) {
    && start.messages <= messages
    && |messages| == |start.messages| + Added(steps, |steps|)
    && forall k :: 0 <= k < |steps| ==> TurnAt(a, start, messages, steps, k)
  }

  /** The k-th model call is asked the whole conversation so far, with the run's own tenant and tools. */
  ghost predicate AskedAt(a: Agent, start: Run, messages: seq<Message>, steps: seq<StepResult>, request: Request,
                          k: nat)
    requires k < |steps|
  {
    && |start.messages| + Added(steps, k) <= |messages|
    && request.messages == messages[..|start.messages| + Added(steps, k)]
    && request.tenant == a.tenantId && request.tools == a.specs && request.tierHint == None
  }

  ghost predicate AllAsked(a: Agent, start: Run, messages: seq<Message>, turns: seq<Answered>, steps: seq<StepResult>) {
    && |turns| == |steps|
    && forall k :: 0 <= k < |turns| ==> AskedAt(a, start, messages, steps, turns[k].request, k)
  }

  /** The counters of a run that has come this far. */
  ghost predicate Sums(a: Agent, start: Run, r: Run) {
    var n := |r.steps|;
    && r.toolRuns == start.toolRuns + RunsIn(a.tools, r.steps, n)
    && r.usage.prompt == start.usage.prompt + Prompts(r.steps, n)
    && r.usage.completion == start.usage.completion + Completions(r.steps, n)
    && r.iterations == start.iterations + n
    && forall i :: 0 <= i < n ==> !a.late(i)
  }

  ghost predicate SoFar(a: Agent, start: Run, r: Run) {
    && Story(a, start, r.messages, r.steps)
    && AllAsked(a, start, r.messages, r.turns, r.steps)
    && Sums(a, start, r)
  }

  lemma SliceStands(messages: seq<Message>, i: nat, j: nat, more: seq<Message>)
    requires i <= j <= |messages|
    ensures (messages + more)[i..j] == messages[i..j]
  {}

  lemma TailStands(messages: seq<Message>, m: Message, results: seq<Message>)
    ensures var all, n := messages + [m] + results, |messages| + 1;
            |all| == n + |results| && all[n - 1] == m && all[n..n + |results|] == results
  {}

  lemma {:induction false} TurnStands(a: Agent, start: Run, messages: seq<Message>, steps: seq<StepResult>,
                                      more: seq<Message>, step: StepResult, k: nat)
    requires k < |steps| && TurnAt(a, start, messages, steps, k)
    ensures TurnAt(a, start, messages + more, steps + [step], k)
  {
    SumsKeep(a.tools, steps, step, k);
    var at, n := |start.messages| + Added(steps, k) + 1, |steps[k].message.toolCalls|;
    SliceStands(messages, at, at + n, more);
  }

  lemma {:induction false} TurnAdded(a: Agent, start: Run, messages: seq<Message>, steps: seq<StepResult>,
                                     results: seq<Message>, step: StepResult)
    requires |messages| == |start.messages| + Added(steps, |steps|)
    requires AllRight(a.tools, a.toolOutcome, start.toolRuns + RunsIn(a.tools, steps, |steps|), step.message.toolCalls,
                      results)
    ensures TurnAt(a, start, messages + [step.message] + results, steps + [step], |steps|)
  {
    SumsKeep(a.tools, steps, step, |steps|);
    TailStands(messages, step.message, results);
  }

  lemma {:induction false} StoryGoesOn(a: Agent, start: Run, messages: seq<Message>, steps: seq<StepResult>,
                                       results: seq<Message>, step: StepResult)
    requires Story(a, start, messages, steps)
    requires AllRight(a.tools, a.toolOutcome, start.toolRuns + RunsIn(a.tools, steps, |steps|), step.message.toolCalls,
                      results)
    ensures Story(a, start, messages + [step.message] + results, steps + [step])
  {
    SumsKeep(a.tools, steps, step, |steps|);
    forall k | 0 <= k < |steps| + 1
      ensures TurnAt(a, start, messages + [step.message] + results, steps + [step], k)
    {
      if k < |steps| {
        TurnStands(a, start, messages, steps, [step.message] + results, step, k);
        assert messages + [step.message] + results == messages + ([step.message] + results);
      } else {
        TurnAdded(a, start, messages, steps, results, step);
      }
    }
  }

  lemma {:induction false} AskedGoesOn(a: Agent, start: Run, messages: seq<Message>, turns: seq<Answered>,
                                       steps: seq<StepResult>, more: seq<Message>, turn: Answered, step: StepResult)
    requires AllAsked(a, start, messages, turns, steps)
    requires |messages| == |start.messages| + Added(steps, |steps|)
    requires turn.request.messages == messages && turn.request.tenant == a.tenantId
    requires turn.request.tools == a.specs && turn.request.tierHint == None
    ensures AllAsked(a, start, messages + more, turns + [turn], steps + [step])
  {
    forall k | 0 <= k < |turns| + 1
      ensures AskedAt(a, start, messages + more, steps + [step], (turns + [turn])[k].request, k)
    {
      SumsKeep(a.tools, steps, step, k);
      var n := |start.messages| + Added(steps, k);
      if k < |turns| { assert AskedAt(a, start, messages, steps, turns[k].request, k); }
      assert n <= |messages| && (messages + more)[..n] == messages[..n];
    }
  }

  lemma {:induction false} TurnSums(a: Agent, start: Run, r: Run, response: Response, s: State)
    requires Sums(a, start, r) && !a.late(|r.steps|)
    ensures Sums(a, start, RunTools(a, Absorb(a, r, response, s), response.message.toolCalls))
  {
    var calls := response.message.toolCalls;
    ToolMessagesRight(a.tools, a.toolOutcome, r.toolRuns, calls, |calls|);
    SumsKeep(a.tools, r.steps, StepResult(response.message, response.usage, s.ctx.attempts), |r.steps|);
  }

  lemma {:induction false} TurnSoFar(a: Agent, start: Run, r: Run, response: Response, s: State)
    requires SoFar(a, start, r) && !a.late(|r.steps|)
    ensures SoFar(a, start, RunTools(a, Absorb(a, r, response, s), response.message.toolCalls))
  {
    var calls := response.message.toolCalls;
    var step := StepResult(response.message, response.usage, s.ctx.attempts);
    var results := ToolMessages(a.tools, a.toolOutcome, r.toolRuns, calls, |calls|).0;
    TurnSums(a, start, r, response, s);
    ToolMessagesRight(a.tools, a.toolOutcome, r.toolRuns, calls, |calls|);
    StoryGoesOn(a, start, r.messages, r.steps, results, step);
    AskedGoesOn(a, start, r.messages, r.turns, r.steps, [response.message] + results,
                Answered(Snapshot(a, r), s.ctx.trail), step);
    assert r.messages + [response.message] + results == r.messages + ([response.message] + results);
  }

  lemma {:induction false} LoopSoFar(a: Agent, max: nat, i: nat, start: Run, r: Run)
    requires SoFar(a, start, r) && i == |r.steps| <= max
    ensures var (outcome, final) := Loop(a, max, i, r);
            outcome.Finished? ==>
              && SoFar(a, start, final)
              && outcome.result == Finalize(final, outcome.result.stopReason)
              && (outcome.result.stopReason == Deadline ==> |final.steps| < max && a.late(|final.steps|))
    decreases max - i
  {
    if i < max && !a.late(i) {
      var (outcome, s) := Dispatch(a, r);
      if outcome.Returned? {
        var calls := outcome.response.message.toolCalls;
        TurnSoFar(a, start, r, outcome.response, s);
        if calls == [] {
          NoTools(a, Absorb(a, r, outcome.response, s));
        } else {
          LoopSoFar(a, max, i + 1, start, RunTools(a, Absorb(a, r, outcome.response, s), calls));
        }
      }
    }
  }

  // ---- the record of a run --------------------------------------------------------------

  /** The last assistant message, or an empty one if there is none. */
  ghost predicate LastWord(messages: seq<Message>, m: Message) {
    || (exists k :: 0 <= k < |messages| && messages[k] == m && m.role == Assistant
          && forall j :: k < j < |messages| ==> messages[j].role != Assistant)
    || (&& m == Message(Assistant, Some(""), [], None)
        && forall j :: 0 <= j < |messages| ==> messages[j].role != Assistant)
  }

  lemma {:induction false} LastAssistantIsLastWord(messages: seq<Message>)
    ensures LastWord(messages, LastAssistant(messages))
  {
    if messages != [] {
      var n := |messages| - 1;
      if messages[n].role == Assistant {
        assert messages[n] == LastAssistant(messages);
      } else {
        LastAssistantIsLastWord(messages[..n]);
        LastWordStands(messages, LastAssistant(messages));
      }
    }
  }

  lemma {:induction false} LastWordStands(messages: seq<Message>, m: Message)
    requires messages != [] && messages[|messages| - 1].role != Assistant
    requires LastWord(messages[..|messages| - 1], m)
    ensures LastWord(messages, m)
  {
    var before := messages[..|messages| - 1];
    assert forall j :: 0 <= j < |before| ==> before[j] == messages[j];
    if k :| 0 <= k < |before| && before[k] == m && m.role == Assistant
            && forall j :: k < j < |before| ==> before[j].role != Assistant {
      assert messages[k] == m;
      forall j | k < j < |messages| ensures messages[j].role != Assistant {
        if j < |before| { assert before[j].role != Assistant; }
      }
    } else {
      forall j | 0 <= j < |messages| ensures messages[j].role != Assistant {
        if j < |before| { assert before[j].role != Assistant; }
      }
    }
  }

  /** A finished run's transcript, tool results, requests, usage, final message and deadline, from its inputs. */
  ghost predicate Recorded(a: Agent, max: nat, start: Run, result: RunResult, turns: seq<Answered>) {
    && Story(a, start, result.transcript, result.steps)
    && AllAsked(a, start, result.transcript, turns, result.steps)
    && result.usage.prompt == start.usage.prompt + Prompts(result.steps, |result.steps|)
    && result.usage.completion == start.usage.completion + Completions(result.steps, |result.steps|)
    && LastWord(result.transcript, result.finalMessage)
    && (forall i :: 0 <= i < |result.steps| ==> !a.late(i))
    && (result.stopReason == Deadline ==> |result.steps| < max && a.late(|result.steps|))
  }

  /** The record of every finished run; its model calls are what the vendors saw and the audit logs tell of. */
  lemma {:induction false} RecordTheorem(a: Agent, max: nat, start: Run)
    requires start.steps == [] && start.turns == []
    ensures var (outcome, final) := Loop(a, max, 0, start);
            outcome.Finished? ==>
              && Recorded(a, max, start, outcome.result, final.turns)
              && final.iterations == start.iterations + |outcome.result.steps|
              && (a.handlers == GATEWAY ==> Told(start, final) && final.steps == outcome.result.steps)
  {
    LoopSoFar(a, max, 0, start, start);
    if a.handlers == GATEWAY { CallsTheorem(a, max, start); }
    LastAssistantIsLastWord(Loop(a, max, 0, start).1.messages);
  }
}
