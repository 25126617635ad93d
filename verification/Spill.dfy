/** A run that shows what a fallback leaves charged. */
module Spill {
  import opened Vocabulary
  import opened QuotaStore
  import opened QuotaManager
  import opened Fallback
  import opened Conservation
  import opened AgentTurns

  const FIRST := Provider("first", FREE, {})
  const SECOND := Provider("second", FREE, {})

  const ANSWER := Response(NO_ANSWER, Usage(20, 10), "second", FREE)

  const TENANT := Tenant("t", TenantQuota(10, 1000, 1000, 1.0), false, map[])

  /** The first call finds the vendor's quota used up, every later one is answered. */
  function Reply(n: nat): Fallback.Reply { if n == 0 then VendorError(Quota, "", None) else Answer(ANSWER) }

  const ENV := Env(Reply, (n: nat) => 0, (p: Provider, r: Request) => 100,
                   (t: Tenant, p: Provider) => Some([]), (r: Request, t: Tenant) => true,
                   Config(3, 0.0, 0.0, 3, 0.0))

  const AGENT := Agent(ENV, GATEWAY, TENANT, [FIRST, SECOND], "t", [], map[], (n: nat) => Raises(""), (n: nat) => false)

  const START := Run([], Usage(0, 0), 0, [], 0, [], World([], [], [], 0))

  /** A store in which this tenant has reserved 100 tokens n times, all at time 0. */
  ghost predicate Reserved(history: seq<StoreOp>, n: nat) {
    && MonotoneUpTo(history, 0)
    && Logged(history, "t", RequestsPerMin, 0) == n
    && Logged(history, "t", TokensPerMin, 0) == Logged(history, "t", TokensPerDay, 0) == 100 * n
  }

  lemma ReservedAllows(job: Job, s: State, n: nat)
    requires job.env == ENV && job.tenant == TENANT && s.ctx.candidates != [] && Reserved(s.world.history, n) && n < 2
    ensures !Denied(Replay(s.world.history), AskFor(job, s))
    ensures Reserved(s.world.history + ReserveOps(Replay(s.world.history), AskFor(job, s)), n + 1)
  {
    var history, ask := s.world.history, AskFor(job, s);
    var ops := ReserveOps(Replay(history), ask);
    forall w ensures Shown(Replay(history), "t", w, 0) == Logged(history, "t", w, 0) {
      ReadIsLoggedSum(history, "t", w, 0);
    }
    forall w ensures Logged(history + ops, "t", w, 0) == Logged(history, "t", w, 0) + Cost(ask, w) {
      LoggedAppend(history, ops, "t", w, 0);
      ReserveLogged(Replay(history), ask, "t", w, 0);
    }
    MonotoneAppend(history, ops, 0, 0);
  }

  /** One round of the run: its call and where it leaves the store. */
  lemma {:induction false} SpillRound(job: Job, s: State, n: nat)
    requires job.env == ENV && job.tenant == TENANT && Reserved(s.world.history, n) && n < 2
    requires s.ctx.candidates != [] && |s.world.log| == n && |s.ctx.candidates| == 2 - n
    ensures var (v, s') := Walk(job, GATEWAY, s);
            && s'.ctx.candidates == s.ctx.candidates && |s'.world.log| == n + 1
            && |s'.ctx.trail| == |s.ctx.trail| + 1 && s.ctx.trail <= s'.ctx.trail
            && s'.ctx.trail[|s.ctx.trail|].left == 2 - n
            && if n == 0 then v == Fallback && Reserved(s'.world.history, 1)
               else v == Success && s'.ctx.response == Some(ANSWER)
  {
    ReservedAllows(job, s, n);
    LetThroughRound(job, s);
    InvocationShape(job, Prepared(job, s));
    InvocationMoves(job, Prepared(job, s));
    var site := SiteHere(job, s);
    var r := RecordAt(site, 0, 1, Reply(n), None);
    assert TryHere(job, s) == Trail([r], if n == 0 then GaveUp else Won(ANSWER));
  }

  lemma SpillTurn()
    ensures var (outcome, s) := Dispatch(AGENT, START);
            && outcome == Returned(ANSWER)
            && |s.ctx.trail| == 2 && s.ctx.trail[0].left == 2 && s.ctx.trail[1].left == 1
  {
    var job := JobOf(AGENT, START);
    var s0 := State(FreshCtx(AGENT.candidates), START.world);
    SpillRound(job, s0, 0);
    var s1 := DropCandidate(Walk(job, GATEWAY, s0).1);
    SpillRound(job, s1, 1);
    assert Execute(job, GATEWAY, s0) == Rounds(job, GATEWAY, s0) == Rounds(job, GATEWAY, s1);
    assert Rounds(job, GATEWAY, s1) == (Returned(ANSWER), Walk(job, GATEWAY, s1).1);
  }

  /** What a turn with these two calls leaves behind. */
  lemma SpillCost(turn: Answered)
    requires |turn.trail| == 2 && turn.trail[0].left == 2 && turn.trail[1].left == 1
    ensures AllOnRoute(AGENT.candidates, [turn]) && AbandonedCost(AGENT, [turn]) == 100
  {
    var trail, before := turn.trail, turn.trail[..1];
    assert before[..0] == [] && Visited(before) == [2];
    assert Visited(trail) == [2, 1];
    assert [2, 1][..1] == [2] && [2][..0] == [];
    assert Estimates(ENV, turn.request, AGENT.candidates, [2]) == 100;
    assert [turn][..0] == [] && AbandonedCost(AGENT, []) == 0;
  }

  /** The first vendor's quota is used up and the second answers for 30 tokens: the tenant's token counters rise
      by 130, because the 100 reserved for the first are never returned. */
  lemma AbandonedStaysCharged(window: Window)
    requires window != RequestsPerMin
    ensures var (outcome, final) := Loop(AGENT, 1, 0, START);
            && outcome.Finished? && outcome.result.usage.Total() == 30
            && Rise(AGENT, 1, START, window) == 130
  {
    SpillTurn();
    var (outcome, s) := Dispatch(AGENT, START);
    var final := Absorb(AGENT, START, ANSWER, s);
    assert Loop(AGENT, 1, 0, START) == (Finished(Finalize(final, Completed)), final);
    assert final.turns == [Answered(Snapshot(AGENT, START), s.ctx.trail)];
    SpillCost(final.turns[0]);
    RunConservation(AGENT, 1, START, window);
  }
}
