/** What one model turn does to the quota counters, whatever its outcome. */
module Conservation {
  import opened Vocabulary
  import opened QuotaStore
  import opened QuotaManager
  import opened Fallback
  import opened AttemptTrail

  /** Cost of some grants in one window: one request each, or their estimates. */
  function GrantCost(grants: seq<Grant>, window: Window): int {
    if |grants| == 0 then 0
    else GrantCost(grants[..|grants| - 1], window)
         + if window == RequestsPerMin then 1 else grants[|grants| - 1].reserved
  }

  lemma {:induction false} RequestCostIsCount(grants: seq<Grant>)
    ensures GrantCost(grants, RequestsPerMin) == |grants|
  {
    if grants != [] { RequestCostIsCount(grants[..|grants| - 1]); }
  }

  lemma {:induction false} GrantCostAppend(a: seq<Grant>, b: seq<Grant>, window: Window)
    ensures GrantCost(a + b, window) == GrantCost(a, window) + GrantCost(b, window)
  {
    if b == [] {
      assert a + b == a;
    } else {
      GrantCostAppend(a, b[..|b| - 1], window);
      assert (a + b)[..|a + b| - 1] == a + b[..|b| - 1];
    }
  }

  /** No window rolls over between two readings of the clock. */
  ghost predicate Steady(env: Env, from: nat, to: nat, window: Window, period: nat) {
    forall k :: from <= k < to ==> Period(window, env.clock(k)) == period
  }

  /** What a round does to quota: nothing, a reservation, or a reservation settled at once. */
  ghost predicate QuotaMoves(job: Job, s: State, v: Verdict, s': State)
    requires s.ctx.candidates != []
  {
    var ask, counts := AskFor(job, s), Replay(s.world.history);
    || (!v.Success? && s'.ctx.grants == s.ctx.grants && s'.world.history == s.world.history
        && s.world.readings <= s'.world.readings <= s.world.readings + 1)
    || (!Denied(counts, ask)
        && s'.ctx.grants == s.ctx.grants + [Grant(|s.ctx.candidates|, ask.estimate)]
        && if v.Success? && s'.ctx.response.Some?
           then s'.world.history == s.world.history + ReserveOps(counts, ask)
                                    + CommitOps(job.tenant.id, ask.estimate, s'.ctx.response.value.usage.Total(),
                                                job.env.clock(s.world.readings + 1))
                && s'.world.readings == s.world.readings + 2
           else s'.world.history == s.world.history + ReserveOps(counts, ask)
                && s'.world.readings == s.world.readings + 1)
  }

  lemma {:induction false} RoundMoves(job: Job, s: State)
    requires s.ctx.candidates != []
    ensures var (v, s') := Walk(job, GATEWAY, s);
            QuotaMoves(job, s, v, s') && s'.ctx.candidates == s.ctx.candidates
  {
    if LetThrough(job, s) {
      LetThroughRound(job, s);
      InvocationMoves(job, Prepared(job, s));
    } else {
      HeldBackRound(job, s);
    }
  }

  /** Calling the provider leaves quota alone unless it answers; then its reservation is settled. */
  lemma InvocationMoves(job: Job, s: State)
    requires s.ctx.candidates != [] && s.ctx.reservation.Some?
    ensures var (v, s') := HandleInvocation(job, s);
            && s'.ctx.grants == s.ctx.grants
            && if v.Success? && s'.ctx.response.Some?
               then s'.world.history == s.world.history
                                        + CommitOps(job.tenant.id, s.ctx.reservation.value.reserved,
                                                    s'.ctx.response.value.usage.Total(),
                                                    job.env.clock(s.world.readings))
                    && s'.world.readings == s.world.readings + 1
               else s'.world.history == s.world.history && s'.world.readings == s.world.readings
  {}

  /** The counters account for the grants since the start of the turn. */
  ghost predicate Accounted(job: Job, start: World, s: State, window: Window, period: nat, correction: int) {
    Logged(s.world.history, job.tenant.id, window, period)
    == Logged(start.history, job.tenant.id, window, period) + GrantCost(s.ctx.grants, window) + correction
  }

  /** On success the last grant is replaced by what the answer cost; every other grant stays charged. */
  function Correction(s: State, outcome: Outcome, window: Window): int {
    if outcome.Returned? && window != RequestsPerMin && s.ctx.grants != []
    then outcome.response.usage.Total() - s.ctx.grants[|s.ctx.grants| - 1].reserved
    else 0
  }

  lemma RoundAccounted(job: Job, start: World, s: State, v: Verdict, s': State, window: Window, period: nat)
    requires s.ctx.candidates != [] && QuotaMoves(job, s, v, s')
    requires Steady(job.env, s.world.readings, s'.world.readings, window, period)
    requires Accounted(job, start, s, window, period, 0)
    ensures v.Success? && s'.ctx.response.Some? ==>
      Accounted(job, start, s', window, period, Correction(s', Returned(s'.ctx.response.value), window))
      && s'.ctx.grants != []
    ensures !v.Success? ==> Accounted(job, start, s', window, period, 0)
  {
    var ask, counts, id := AskFor(job, s), Replay(s.world.history), job.tenant.id;
    var reserve := ReserveOps(counts, ask);
    LoggedAppend(s.world.history, reserve, id, window, period);
    ReserveLogged(counts, ask, id, window, period);
    GrantCostAppend(s.ctx.grants, [Grant(|s.ctx.candidates|, ask.estimate)], window);
    assert GrantCost([Grant(|s.ctx.candidates|, ask.estimate)], window) == Cost(ask, window);
    if v.Success? && s'.ctx.response.Some? {
      var actual, now := s'.ctx.response.value.usage.Total(), job.env.clock(s.world.readings + 1);
      LoggedAppend(s.world.history + reserve, CommitOps(id, ask.estimate, actual, now), id, window, period);
      CommitLogged(id, ask.estimate, actual, now, id, window, period);
    }
  }

  /** Nobody else's counters move. */
  lemma {:induction false} RoundOthers(job: Job, s: State, v: Verdict, s': State, other: string,
                                       window: Window, period: nat)
    requires s.ctx.candidates != [] && QuotaMoves(job, s, v, s') && other != job.tenant.id
    ensures Logged(s'.world.history, other, window, period) == Logged(s.world.history, other, window, period)
  {
    var ask, counts := AskFor(job, s), Replay(s.world.history);
    var reserve := ReserveOps(counts, ask);
    LoggedAppend(s.world.history, reserve, other, window, period);
    ReserveLogged(counts, ask, other, window, period);
    if v.Success? && s'.ctx.response.Some? {
      var actual, now := s'.ctx.response.value.usage.Total(), job.env.clock(s.world.readings + 1);
      var commit := CommitOps(job.tenant.id, ask.estimate, actual, now);
      LoggedAppend(s.world.history + reserve, commit, other, window, period);
      CommitLogged(job.tenant.id, ask.estimate, actual, now, other, window, period);
    }
  }

  ghost predicate ClockForward(env: Env) {
    forall i, j :: i <= j ==> env.clock(i) <= env.clock(j)
  }

  /** The store has seen no reading later than the next one. */
  ghost predicate UpToDate(env: Env, w: World) {
    MonotoneUpTo(w.history, env.clock(w.readings))
  }

  lemma RoundUpToDate(job: Job, s: State, v: Verdict, s': State)
    requires s.ctx.candidates != [] && QuotaMoves(job, s, v, s')
    requires ClockForward(job.env) && UpToDate(job.env, s.world)
    ensures UpToDate(job.env, s'.world)
  {
    var ask, counts, clock := AskFor(job, s), Replay(s.world.history), job.env.clock;
    var first, second := clock(s.world.readings), clock(s.world.readings + 1);
    var reserve := ReserveOps(counts, ask);
    MonotoneAppend(s.world.history, reserve, first, first);
    if v.Success? && s'.ctx.response.Some? {
      var commit := CommitOps(job.tenant.id, ask.estimate, s'.ctx.response.value.usage.Total(), second);
      MonotoneAppend(s.world.history + reserve, commit, first, second);
      MonotoneLater(s.world.history + reserve + commit, second, clock(s'.world.readings));
    } else {
      MonotoneLater(s.world.history + reserve, first, clock(s'.world.readings));
      MonotoneLater(s.world.history, first, clock(s'.world.readings));
    }
  }

  lemma {:induction false} RoundsAccounted(job: Job, start: World, s: State, window: Window, period: nat)
    requires s.ctx.candidates != [] && Accounted(job, start, s, window, period, 0)
    requires Steady(job.env, s.world.readings, Rounds(job, GATEWAY, s).1.world.readings, window, period)
    ensures var (outcome, final) := Rounds(job, GATEWAY, s);
            && Accounted(job, start, final, window, period, Correction(final, outcome, window))
            && (outcome.Returned? ==> final.ctx.grants != [])
    decreases |s.ctx.candidates|
  {
    var (v, s') := Walk(job, GATEWAY, s);
    RoundMoves(job, s);
    if v.Fallback? && |s.ctx.candidates| > 1 {
      var next := DropCandidate(s');
      RoundsReadings(job, next);
      RoundAccounted(job, start, s, v, s', window, period);
      RoundsAccounted(job, start, next, window, period);
    } else {
      RoundAccounted(job, start, s, v, s', window, period);
    }
  }

  lemma {:induction false} RoundsReadings(job: Job, s: State)
    requires s.ctx.candidates != []
    ensures Rounds(job, GATEWAY, s).1.world.readings >= s.world.readings
    decreases |s.ctx.candidates|
  {
    var (v, s') := Walk(job, GATEWAY, s);
    RoundMoves(job, s);
    if v.Fallback? && |s.ctx.candidates| > 1 { RoundsReadings(job, DropCandidate(s')); }
  }

  lemma {:induction false} RoundsOthers(job: Job, s: State, other: string, window: Window, period: nat)
    requires s.ctx.candidates != [] && other != job.tenant.id
    ensures Logged(Rounds(job, GATEWAY, s).1.world.history, other, window, period)
            == Logged(s.world.history, other, window, period)
    decreases |s.ctx.candidates|
  {
    var (v, s') := Walk(job, GATEWAY, s);
    RoundMoves(job, s);
    RoundOthers(job, s, v, s', other, window, period);
    if v.Fallback? && |s.ctx.candidates| > 1 { RoundsOthers(job, DropCandidate(s'), other, window, period); }
  }

  lemma {:induction false} RoundsUpToDate(job: Job, s: State)
    requires s.ctx.candidates != [] && ClockForward(job.env) && UpToDate(job.env, s.world)
    ensures UpToDate(job.env, Rounds(job, GATEWAY, s).1.world)
    decreases |s.ctx.candidates|
  {
    var (v, s') := Walk(job, GATEWAY, s);
    RoundMoves(job, s);
    RoundUpToDate(job, s, v, s');
    if v.Fallback? && |s.ctx.candidates| > 1 { RoundsUpToDate(job, DropCandidate(s')); }
  }

  // ---- whose reservations ---------------------------------------------------------------

  /** The positions, counted from the end of the route, of the candidates granted a reservation. */
  function Lefts(grants: seq<Grant>): seq<nat> {
    seq(|grants|, i requires 0 <= i < |grants| => grants[i].left)
  }

  /** The positions of the candidates called on, in the order of the calls. */
  function Visited(trail: seq<Record>): (lefts: seq<nat>)
    ensures trail != [] ==> lefts != [] && lefts[|lefts| - 1] == trail[|trail| - 1].left
  {
    if |trail| == 0 then []
    else
      var before, left := Visited(trail[..|trail| - 1]), trail[|trail| - 1].left;
      if before != [] && before[|before| - 1] == left then before else before + [left]
  }

  ghost predicate OnRoute(candidates: seq<Provider>, lefts: seq<nat>) {
    forall i :: 0 <= i < |lefts| ==> 1 <= lefts[i] <= |candidates|
  }

  /** In route order, nobody twice. */
  ghost predicate Falling(lefts: seq<nat>) { forall i, j :: 0 <= i < j < |lefts| ==> lefts[i] > lefts[j] }

  /** What the candidates at some positions estimate for a request. */
  function Estimates(env: Env, request: Request, candidates: seq<Provider>, lefts: seq<nat>): int
    requires OnRoute(candidates, lefts)
  {
    if |lefts| == 0 then 0
    else Estimates(env, request, candidates, lefts[..|lefts| - 1])
         + env.estimate(candidates[|candidates| - lefts[|lefts| - 1]], request)
  }

  /** All but the last: the candidates that a fallback left behind. */
  function Abandoned(lefts: seq<nat>): seq<nat> { if lefts == [] then [] else lefts[..|lefts| - 1] }

  /** A round grants at most its own candidate a reservation, at the candidate's estimate, and calls exactly
      the candidate it granted one. */
  ghost predicate RoundGrants(job: Job, s: State, s': State)
    requires s.ctx.candidates != []
  {
    || (s'.ctx.grants == s.ctx.grants && s'.ctx.trail == s.ctx.trail)
    || (&& s'.ctx.grants
           == s.ctx.grants + [Grant(|s.ctx.candidates|, job.env.estimate(s.ctx.candidates[0], job.request))]
        && job.env.resolve(job.tenant, s.ctx.candidates[0]).Some?
        && s'.ctx.trail == s.ctx.trail + TryHere(job, s).records)
  }

  lemma {:induction false} RoundGrantsHold(job: Job, s: State)
    requires s.ctx.candidates != []
    ensures RoundGrants(job, s, Walk(job, GATEWAY, s).1)
  {
    if LetThrough(job, s) {
      LetThroughRound(job, s);
      InvocationShape(job, Prepared(job, s));
    } else {
      HeldBackRound(job, s);
    }
  }

  /** Every grant is one routed candidate's, at that candidate's own estimate. */
  ghost predicate OwnEstimates(env: Env, request: Request, candidates: seq<Provider>, grants: seq<Grant>) {
    forall i :: 0 <= i < |grants| ==>
      1 <= grants[i].left <= |candidates|
      && grants[i].reserved == env.estimate(candidates[|candidates| - grants[i].left], request)
  }

  /** Grants and calls made so far, all by candidates beyond the last `least` of the route. */
  ghost predicate Matched(job: Job, all: seq<Provider>, grants: seq<Grant>, trail: seq<Record>, least: nat) {
    && OwnEstimates(job.env, job.request, all, grants)
    && (forall i :: 0 <= i < |grants| ==> grants[i].left > least)
    && Falling(Lefts(grants))
    && (job.env.config.maxAttempts >= 1 ==> Lefts(grants) == Visited(trail))
    && (job.env.config.maxAttempts == 0 ==> trail == [])
  }

  lemma {:induction false} VisitedOneMore(trail: seq<Record>, more: seq<Record>, left: nat)
    requires more != [] && forall i :: 0 <= i < |more| ==> more[i].left == left
    requires trail != [] ==> trail[|trail| - 1].left != left
    ensures Visited(trail + more) == Visited(trail) + [left]
  {
    var last := |more| - 1;
    assert (trail + more)[..|trail + more| - 1] == trail + more[..last];
    if last == 0 {
      assert trail + more[..last] == trail;
    } else {
      VisitedOneMore(trail, more[..last], left);
    }
  }

  lemma {:induction false} NoAttemptsNoCalls(env: Env, n: nat, site: Site, k: nat)
    requires env.config.maxAttempts == 0
    ensures Try(env, n, site, k, 1).records == []
    decreases |site.pool| - k
  {
    if k < |site.pool| { NoAttemptsNoCalls(env, n, site, k + 1); }
  }

  lemma RecordsHere(job: Job, s: State)
    requires s.ctx.candidates != [] && job.env.resolve(job.tenant, s.ctx.candidates[0]).Some?
    ensures var records := TryHere(job, s).records;
            && (records == [] <==> job.env.config.maxAttempts == 0)
            && forall i :: 0 <= i < |records| ==> records[i].left == |s.ctx.candidates|
  {
    var site, records := SiteHere(job, s), TryHere(job, s).records;
    if job.env.config.maxAttempts == 0 {
      NoAttemptsNoCalls(job.env, |s.world.log|, site, 0);
    } else {
      CandidateTrail(job.env, |s.world.log|, site, 0, 1);
      forall i | 0 <= i < |records| ensures records[i].left == |s.ctx.candidates| {
        assert Placed(job.env, site, |s.world.log| + i, records[i]);
      }
    }
  }

  lemma MatchedOneMore(job: Job, all: seq<Provider>, grants: seq<Grant>, trail: seq<Record>, left: nat,
                       records: seq<Record>)
    requires 1 <= left <= |all| && Matched(job, all, grants, trail, left)
    requires records == [] <==> job.env.config.maxAttempts == 0
    requires forall i :: 0 <= i < |records| ==> records[i].left == left
    ensures var grant := Grant(left, job.env.estimate(all[|all| - left], job.request));
            Matched(job, all, grants + [grant], trail + records, left - 1)
  {
    var grant := Grant(left, job.env.estimate(all[|all| - left], job.request));
    assert Lefts(grants + [grant]) == Lefts(grants) + [left];
    OwnOneMore(job.env, job.request, all, grants, grant);
    FallingFurther(grants, left);
    if job.env.config.maxAttempts >= 1 { VisitedFurther(grants, trail, left, records); }
  }

  lemma OwnOneMore(env: Env, request: Request, all: seq<Provider>, grants: seq<Grant>, grant: Grant)
    requires OwnEstimates(env, request, all, grants) && 1 <= grant.left <= |all|
    requires grant.reserved == env.estimate(all[|all| - grant.left], request)
    requires forall i :: 0 <= i < |grants| ==> grants[i].left > grant.left
    ensures OwnEstimates(env, request, all, grants + [grant])
    ensures forall i :: 0 <= i < |grants + [grant]| ==> (grants + [grant])[i].left > grant.left - 1
  {}

  lemma {:induction false} VisitedFurther(grants: seq<Grant>, trail: seq<Record>, left: nat, records: seq<Record>)
    requires Lefts(grants) == Visited(trail) && forall i :: 0 <= i < |grants| ==> grants[i].left > left
    requires records != [] && forall i :: 0 <= i < |records| ==> records[i].left == left
    ensures Visited(trail + records) == Lefts(grants) + [left]
  {
    if trail != [] { assert Lefts(grants)[|grants| - 1] == trail[|trail| - 1].left; }
    VisitedOneMore(trail, records, left);
  }

  lemma FallingFurther(grants: seq<Grant>, left: nat)
    requires Falling(Lefts(grants)) && forall i :: 0 <= i < |grants| ==> grants[i].left > left
    ensures Falling(Lefts(grants) + [left])
  {
    var lefts := Lefts(grants) + [left];
    forall i, j | 0 <= i < j < |lefts| ensures lefts[i] > lefts[j] {
      assert i < |grants| && lefts[i] == grants[i].left;
    }
  }

  lemma {:induction false} RoundMatched(job: Job, all: seq<Provider>, s: State, ctx: Ctx)
    requires 1 <= |s.ctx.candidates| <= |all| && s.ctx.candidates == all[|all| - |s.ctx.candidates|..]
    requires Matched(job, all, s.ctx.grants, s.ctx.trail, |s.ctx.candidates|)
    requires ctx == Walk(job, GATEWAY, s).1.ctx
    ensures Matched(job, all, ctx.grants, ctx.trail, |s.ctx.candidates| - 1)
  {
    RoundGrantsHold(job, s);
    if ctx.grants != s.ctx.grants {
      RecordsHere(job, s);
      MatchedOneMore(job, all, s.ctx.grants, s.ctx.trail, |s.ctx.candidates|, TryHere(job, s).records);
    }
  }

  lemma {:induction false} RoundsMatched(job: Job, all: seq<Provider>, s: State)
    requires 1 <= |s.ctx.candidates| <= |all| && s.ctx.candidates == all[|all| - |s.ctx.candidates|..]
    requires Matched(job, all, s.ctx.grants, s.ctx.trail, |s.ctx.candidates|)
    ensures var ctx := Rounds(job, GATEWAY, s).1.ctx; Matched(job, all, ctx.grants, ctx.trail, 0)
    decreases |s.ctx.candidates|
  {
    var (v, s') := Walk(job, GATEWAY, s);
    RoundMatched(job, all, s, s'.ctx);
    if v.Fallback? && |s.ctx.candidates| > 1 { RoundsMatched(job, all, DropCandidate(s')); }
  }

  lemma AnswerWasCalledFor(job: Job, candidates: seq<Provider>, start: World)
    ensures var (outcome, s) := Execute(job, GATEWAY, State(FreshCtx(candidates), start));
            outcome.Returned? ==> s.ctx.trail != [] && job.env.config.maxAttempts >= 1
  {
    TrailTheorem(job, candidates, start);
    var trail := Execute(job, GATEWAY, State(FreshCtx(candidates), start)).1.ctx.trail;
    if trail != [] { assert CallOk(job, candidates, |start.log| + 0, trail[0]); }
  }

  /** Every reservation of a turn is one candidate's own, at that candidate's estimate, in route order, no
      candidate having two; where at least one attempt is allowed, the candidates with a reservation are
      exactly the candidates called on, in order, so the last one of an answered turn is the answerer's. */
  lemma GrantsTheorem(job: Job, candidates: seq<Provider>, start: World)
    ensures var (outcome, s) := Execute(job, GATEWAY, State(FreshCtx(candidates), start));
            var grants, trail := s.ctx.grants, s.ctx.trail;
            && OwnEstimates(job.env, job.request, candidates, grants)
            && Falling(Lefts(grants))
            && (job.env.config.maxAttempts >= 1 ==> Lefts(grants) == Visited(trail))
            && (outcome.Returned? ==> job.env.config.maxAttempts >= 1 && trail != [] && grants != []
                                      && grants[|grants| - 1].left == trail[|trail| - 1].left)
  {
    var s0 := State(FreshCtx(candidates), start);
    if candidates != [] { RoundsMatched(job, candidates, s0); }
    AnswerWasCalledFor(job, candidates, start);
    var (outcome, s) := Execute(job, GATEWAY, s0);
    if outcome.Returned? { LastGrantIsLastCall(s.ctx.grants, s.ctx.trail); }
  }

  lemma {:induction false} LastGrantIsLastCall(grants: seq<Grant>, trail: seq<Record>)
    requires Lefts(grants) == Visited(trail) && trail != []
    ensures grants != [] && grants[|grants| - 1].left == trail[|trail| - 1].left
  {
    assert Lefts(grants)[|grants| - 1] == grants[|grants| - 1].left;
  }

  // ---- the bill -------------------------------------------------------------------------

  lemma {:induction false} GrantsCostEstimates(env: Env, request: Request, candidates: seq<Provider>,
                                                grants: seq<Grant>, window: Window)
    requires OwnEstimates(env, request, candidates, grants) && window != RequestsPerMin
    ensures OnRoute(candidates, Lefts(grants))
    ensures GrantCost(grants, window) == Estimates(env, request, candidates, Lefts(grants))
  {
    if grants != [] {
      var before := grants[..|grants| - 1];
      assert Lefts(grants)[..|grants| - 1] == Lefts(before);
      GrantsCostEstimates(env, request, candidates, before, window);
    }
  }

  /** What a turn costs its tenant in one window if the candidates at these positions held a reservation: a
      request each, or their estimates, the last one's being replaced by what its answer cost. */
  function TurnCost(env: Env, request: Request, candidates: seq<Provider>, lefts: seq<nat>, outcome: Outcome,
                    window: Window): int
    requires OnRoute(candidates, lefts)
  {
    if window == RequestsPerMin then |lefts|
    else if outcome.Returned?
    then outcome.response.usage.Total() + Estimates(env, request, candidates, Abandoned(lefts))
    else Estimates(env, request, candidates, lefts)
  }

  /** Who holds a reservation when a turn ends: the candidates called on, unless no attempt was allowed. */
  function Holders(config: Config, s: State): seq<nat> {
    if config.maxAttempts >= 1 then Visited(s.ctx.trail) else Lefts(s.ctx.grants)
  }

  /** One turn, no rollover: an answered turn charges the answer's usage plus the estimate of every candidate
      called on and left behind; a failed turn keeps the estimate of every candidate called on charged; each of
      them costs one request. */
  lemma {:induction false} TurnConservation(job: Job, candidates: seq<Provider>, start: World,
                                            window: Window, period: nat)
    requires var final := Execute(job, GATEWAY, State(FreshCtx(candidates), start)).1.world;
             Steady(job.env, start.readings, final.readings, window, period)
    ensures var (outcome, s) := Execute(job, GATEWAY, State(FreshCtx(candidates), start));
            var holders := Holders(job.env.config, s);
            && OnRoute(candidates, holders)
            && Logged(s.world.history, job.tenant.id, window, period)
               == Logged(start.history, job.tenant.id, window, period)
                  + TurnCost(job.env, job.request, candidates, holders, outcome, window)
  {
    var s0 := State(FreshCtx(candidates), start);
    if candidates != [] { RoundsAccounted(job, start, s0, window, period); }
    GrantsTheorem(job, candidates, start);
    var (outcome, s) := Execute(job, GATEWAY, s0);
    GrantsCost(job.env, job.request, candidates, s, outcome, window);
  }

  lemma {:induction false} GrantsCost(env: Env, request: Request, candidates: seq<Provider>, s: State,
                                      outcome: Outcome, window: Window)
    requires OwnEstimates(env, request, candidates, s.ctx.grants) && (outcome.Returned? ==> s.ctx.grants != [])
    ensures OnRoute(candidates, Lefts(s.ctx.grants))
    ensures GrantCost(s.ctx.grants, window) + Correction(s, outcome, window)
            == TurnCost(env, request, candidates, Lefts(s.ctx.grants), outcome, window)
  {
    var grants := s.ctx.grants;
    if window == RequestsPerMin {
      RequestCostIsCount(grants);
    } else {
      GrantsCostEstimates(env, request, candidates, grants, window);
      if outcome.Returned? {
        var before := grants[..|grants| - 1];
        assert Lefts(before) == Abandoned(Lefts(grants));
        GrantsCostEstimates(env, request, candidates, before, window);
      }
    }
  }

  lemma {:induction false} TurnFrame(job: Job, candidates: seq<Provider>, start: World, other: string,
                                     window: Window, period: nat)
    requires other != job.tenant.id
    ensures Logged(Execute(job, GATEWAY, State(FreshCtx(candidates), start)).1.world.history, other, window, period)
            == Logged(start.history, other, window, period)
  {
    if candidates != [] { RoundsOthers(job, State(FreshCtx(candidates), start), other, window, period); }
  }

  lemma TurnReadings(job: Job, candidates: seq<Provider>, start: World)
    ensures Execute(job, GATEWAY, State(FreshCtx(candidates), start)).1.world.readings >= start.readings
  {
    if candidates != [] { RoundsReadings(job, State(FreshCtx(candidates), start)); }
  }

  lemma TurnUpToDate(job: Job, candidates: seq<Provider>, start: World)
    requires ClockForward(job.env) && UpToDate(job.env, start)
    ensures UpToDate(job.env, Execute(job, GATEWAY, State(FreshCtx(candidates), start)).1.world)
  {
    if candidates != [] { RoundsUpToDate(job, State(FreshCtx(candidates), start)); }
  }
}
