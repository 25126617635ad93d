/** A tenant riding the shared key that hits its quota is never moved onto a paid model. */
module Denial {
  import opened Vocabulary
  import opened QuotaStore
  import opened QuotaManager
  import opened Credentials
  import opened Fallback

  /** The perimeter comes first: a routed request is refused exactly when the perimeter does not admit it, and
      then no provider is called, nothing is reserved and no candidate is consumed. */
  lemma PerimeterComesFirst(job: Job, candidates: seq<Provider>, start: World)
    ensures var s0 := State(FreshCtx(candidates), start);
            var (outcome, s) := Execute(job, GATEWAY, s0);
            && (outcome == Raised(PerimeterViolation)
                <==> candidates != [] && !job.env.admits(job.request, job.tenant))
            && (outcome == Raised(PerimeterViolation) ==> s == s0)
  {
    if candidates != [] {
      var s0 := State(FreshCtx(candidates), start);
      if job.env.admits(job.request, job.tenant) {
        AdmittedIsNotRefused(job, s0);
      } else {
        UnresolvedRound(job, s0);
      }
    }
  }

  lemma {:induction false} AdmittedIsNotRefused(job: Job, s: State)
    requires s.ctx.candidates != [] && job.env.admits(job.request, job.tenant)
    ensures Rounds(job, GATEWAY, s).0 != Raised(PerimeterViolation)
    decreases |s.ctx.candidates|
  {
    var (v, s') := Walk(job, GATEWAY, s);
    if LetThrough(job, s) {
      LetThroughRound(job, s);
      InvocationShape(job, Prepared(job, s));
    } else {
      HeldBackRound(job, s);
    }
    if v.Fallback? && |s.ctx.candidates| > 1 { AdmittedIsNotRefused(job, DropCandidate(s')); }
  }

  /** A round whose reservation is denied either raises or moves from one free candidate to another. */
  lemma {:induction false} DenialStaysFree(job: Job, s: State)
    requires s.ctx.candidates != [] && CheapestFirst(s.ctx.candidates)
    requires Denied(Replay(s.world.history), AskFor(job, s))
    ensures var (v, s') := Walk(job, GATEWAY, s);
            && s'.world.log == s.world.log && s'.world.history == s.world.history
            && s'.ctx.candidates == s.ctx.candidates
            && ((v.Fallback? && job.tenant.isZeroSetup && |s.ctx.candidates| > 1
                 && s.ctx.candidates[0].tier == FREE && s.ctx.candidates[1].tier == FREE)
                || v.Raise?)
  {
    HeldBackRound(job, s);
    if FreeRemains(s.ctx.candidates) { FreeComesNext(s.ctx.candidates); }
  }

  lemma FreeComesNext(candidates: seq<Provider>)
    requires CheapestFirst(candidates) && FreeRemains(candidates)
    ensures |candidates| > 1 && candidates[0].tier == candidates[1].tier == FREE
  {
    var i :| 1 <= i < |candidates| && candidates[i].tier == FREE;
    assert candidates[0].tier <= candidates[i].tier;
    assert i > 1 ==> candidates[1].tier <= candidates[i].tier;
  }

  /** The candidate a denial ends up naming: the last free one, or the first if none is free. */
  ghost predicate Named(candidates: seq<Provider>, k: nat) {
    && k < |candidates|
    && (forall j :: k < j < |candidates| ==> candidates[j].tier != FREE)
    && (candidates[k].tier == FREE || k == 0)
  }

  predicate PerMinute(window: Option<Window>) { window == Some(RequestsPerMin) || window == Some(TokensPerMin) }

  /** All candidates estimate alike, pass the perimeter, and no window rolls over meanwhile. */
  ghost predicate Uniform(job: Job, s: State, e: int) {
    && job.env.admits(job.request, job.tenant)
    && (forall p :: p in s.ctx.candidates ==> job.env.estimate(p, job.request) == e)
    && (forall k :: s.world.readings <= k < s.world.readings + |s.ctx.candidates| ==>
          Period(TokensPerMin, job.env.clock(k)) == Period(TokensPerMin, job.env.clock(s.world.readings)))
  }

  lemma SameVerdict(counts: Counts, one: Ask, two: Ask)
    requires one.(provider := two.provider, now := two.now) == two
    requires Period(TokensPerMin, one.now) == Period(TokensPerMin, two.now)
    ensures Decide(counts, one).(provider := two.provider) == Decide(counts, two)
  {
    assert one.now / 86_400 == (one.now / 60) / 1440 && two.now / 86_400 == (two.now / 60) / 1440;
    forall w ensures Prospective(counts, one, w) == Prospective(counts, two, w) {
      assert Period(w, one.now) == Period(w, two.now);
    }
  }

  /** A hand-off naming the last free candidate (or the first, if none is free), with status 429 exactly
      when the breached window is a per-minute one. */
  ghost predicate HandedOff(candidates: seq<Provider>, breached: Option<Window>, outcome: Outcome) {
    && outcome.Raised? && outcome.error.QuotaExceeded?
    && outcome.error.handoff.httpStatus == (if PerMinute(breached) then 429 else 402)
    && exists k: nat :: Named(candidates, k) && outcome.error.handoff.provider == candidates[k].name
  }

  lemma HandedOffEarlier(candidates: seq<Provider>, breached: Option<Window>, outcome: Outcome)
    requires |candidates| > 1 && candidates[1].tier == FREE && HandedOff(candidates[1..], breached, outcome)
    ensures HandedOff(candidates, breached, outcome)
  {
    var k: nat :| Named(candidates[1..], k) && outcome.error.handoff.provider == candidates[1..][k].name;
    assert Named(candidates, k + 1);
  }

  lemma UniformNext(job: Job, s: State, next: State, e: int)
    requires |s.ctx.candidates| > 1 && Uniform(job, s, e)
    requires next.ctx.candidates == s.ctx.candidates[1..] && next.world == s.world.(readings := s.world.readings + 1)
    ensures Uniform(job, next, e)
    ensures Decide(Replay(s.world.history), AskFor(job, s)).breached
            == Decide(Replay(s.world.history), AskFor(job, next)).breached
    ensures Denied(Replay(s.world.history), AskFor(job, s)) == Denied(Replay(s.world.history), AskFor(job, next))
  {
    assert s.ctx.candidates[1] in s.ctx.candidates && s.ctx.candidates[0] in s.ctx.candidates;
    SameVerdict(Replay(s.world.history), AskFor(job, s), AskFor(job, next));
  }

  /** Where a denied round that moves on leaves the turn. */
  function AfterDenial(s: State): State
    requires s.ctx.candidates != []
  {
    State(s.ctx.(candidates := s.ctx.candidates[1..], credentials := [], reservation := None),
          s.world.(readings := s.world.readings + 1))
  }

  lemma DeniedMovesOn(job: Job, s: State)
    requires |s.ctx.candidates| > 1 && FreeRemains(s.ctx.candidates) && job.tenant.isZeroSetup
    requires job.env.admits(job.request, job.tenant) && Denied(Replay(s.world.history), AskFor(job, s))
    requires job.env.resolve(job.tenant, s.ctx.candidates[0]).Some?
    ensures Execute(job, GATEWAY, s) == Execute(job, GATEWAY, AfterDenial(s))
  {
    DeniedRound(job, s);
    assert DropCandidate(Walk(job, GATEWAY, s).1) == AfterDenial(s);
  }

  lemma HandedOffHere(job: Job, s: State)
    requires s.ctx.candidates != [] && !FreeRemains(s.ctx.candidates)
    requires job.env.admits(job.request, job.tenant) && Denied(Replay(s.world.history), AskFor(job, s))
    requires job.env.resolve(job.tenant, s.ctx.candidates[0]).Some?
    ensures var (outcome, final) := Execute(job, GATEWAY, s);
            && final.world.log == s.world.log && final.world.history == s.world.history
            && HandedOff(s.ctx.candidates, Decide(Replay(s.world.history), AskFor(job, s)).breached, outcome)
  {
    DeniedRound(job, s);
    assert Named(s.ctx.candidates, 0);
  }

  /** The first denial of a zero-setup tenant settles the turn: no provider is called, no counter moves, and
      the tenant is handed off. */
  lemma {:induction false} DenialEndsInHandoff(job: Job, s: State, e: int)
    requires s.ctx.candidates != [] && CheapestFirst(s.ctx.candidates) && Uniform(job, s, e)
    requires job.tenant.isZeroSetup
    requires forall p :: job.env.resolve(job.tenant, p) == ResolveCandidates(job.tenant, p)
    requires Denied(Replay(s.world.history), AskFor(job, s))
    ensures var (outcome, final) := Execute(job, GATEWAY, s);
            && final.world.log == s.world.log && final.world.history == s.world.history
            && HandedOff(s.ctx.candidates, Decide(Replay(s.world.history), AskFor(job, s)).breached, outcome)
    decreases |s.ctx.candidates|
  {
    if FreeRemains(s.ctx.candidates) {
      FreeComesNext(s.ctx.candidates);
      var next := AfterDenial(s);
      DeniedMovesOn(job, s);
      UniformNext(job, s, next, e);
      DenialEndsInHandoff(job, next, e);
      var breached := Decide(Replay(s.world.history), AskFor(job, s)).breached;
      HandedOffEarlier(s.ctx.candidates, breached, Execute(job, GATEWAY, next).0);
    } else {
      HandedOffHere(job, s);
    }
  }

  /** A denial that does not move on ends the turn with a hand-off naming the current candidate: for a while if a
      per-minute cap is what the reservation would exceed, else for good. */
  lemma DenialHandsOff(job: Job, s: State)
    requires s.ctx.candidates != [] && job.env.admits(job.request, job.tenant)
    requires job.env.resolve(job.tenant, s.ctx.candidates[0]).Some?
    ensures var counts, now := Replay(s.world.history), job.env.clock(s.world.readings);
            var quota, id, head := job.tenant.quota, job.tenant.id, s.ctx.candidates[0];
            var estimate := job.env.estimate(head, job.request);
            var overMinute := Shown(counts, id, RequestsPerMin, now) + 1 > quota.requestsPerMin
                              || Shown(counts, id, TokensPerMin, now) + estimate > quota.tokensPerMin;
            var overDay := Shown(counts, id, TokensPerDay, now) + estimate > quota.tokensPerDay;
            var free := exists i :: 1 <= i < |s.ctx.candidates| && s.ctx.candidates[i].tier == FREE;
            (overMinute || overDay) && !(job.tenant.isZeroSetup && free) ==>
              Execute(job, GATEWAY, s).0
              == Raised(QuotaExceeded(Handoff(head.name, if overMinute then 429 else 402,
                   if job.tenant.isZeroSetup then "Free usage limit reached. Add your own API key to continue."
                   else "Quota exceeded. Add or upgrade your API key to continue.")))
  {
    var ask := AskFor(job, s);
    DecideIsRight(Replay(s.world.history), ask);
    if Denied(Replay(s.world.history), ask) && !(job.tenant.isZeroSetup && FreeRemains(s.ctx.candidates)) {
      DeniedEnds(job, s);
    }
  }

  lemma DeniedEnds(job: Job, s: State)
    requires s.ctx.candidates != [] && job.env.admits(job.request, job.tenant)
    requires job.env.resolve(job.tenant, s.ctx.candidates[0]).Some?
    requires Denied(Replay(s.world.history), AskFor(job, s))
    requires !(job.tenant.isZeroSetup && FreeRemains(s.ctx.candidates))
    ensures var breached := Decide(Replay(s.world.history), AskFor(job, s)).breached;
            Execute(job, GATEWAY, s).0
            == Raised(QuotaExceeded(Handoff(s.ctx.candidates[0].name, if PerMinute(breached) then 429 else 402,
                 if job.tenant.isZeroSetup then "Free usage limit reached. Add your own API key to continue."
                 else "Quota exceeded. Add or upgrade your API key to continue.")))
  {
    DeniedRound(job, s);
  }

  /** A candidate without a credential ends the turn at once, nothing having been called, reserved or changed. */
  lemma NoCredentialStops(job: Job, s: State)
    requires s.ctx.candidates != [] && job.env.admits(job.request, job.tenant)
    requires job.env.resolve(job.tenant, s.ctx.candidates[0]) == None
    ensures Execute(job, GATEWAY, s) == (Raised(NoCredential(s.ctx.candidates[0].name)), s)
  {
    UnresolvedRound(job, s);
  }

  /** A reservation that takes a window past its soft limit leaves a warning naming the last such window. */
  lemma {:induction false} SoftLimitWarns(job: Job, s: State)
    requires s.ctx.candidates != [] && LetThrough(job, s)
    ensures var counts, now := Replay(s.world.history), job.env.clock(s.world.readings);
            var quota, id := job.tenant.quota, job.tenant.id;
            var tokens := job.env.estimate(s.ctx.candidates[0], job.request);
            Walk(job, GATEWAY, s).1.ctx.warnings
            == s.ctx.warnings
               + (if Past(Shown(counts, id, TokensPerDay, now) + tokens, quota.tokensPerDay, quota.softLimitRatio)
                  then [Some(TokensPerDay)]
                  else if Past(Shown(counts, id, TokensPerMin, now) + tokens, quota.tokensPerMin, quota.softLimitRatio)
                  then [Some(TokensPerMin)]
                  else if Past(Shown(counts, id, RequestsPerMin, now) + 1, quota.requestsPerMin, quota.softLimitRatio)
                  then [Some(RequestsPerMin)]
                  else [])
  {
    WarnedAsDecided(job, s);
    DecideIsRight(Replay(s.world.history), AskFor(job, s));
  }

  lemma {:induction false} WarnedAsDecided(job: Job, s: State)
    requires s.ctx.candidates != [] && LetThrough(job, s)
    ensures var decision := Decide(Replay(s.world.history), AskFor(job, s));
            Walk(job, GATEWAY, s).1.ctx.warnings
            == s.ctx.warnings + if decision.outcome == SoftLimit then [decision.breached] else []
  {
    LetThroughRound(job, s);
    InvocationWarnsNot(job, Prepared(job, s));
  }

  lemma InvocationWarnsNot(job: Job, s: State)
    ensures HandleInvocation(job, s).1.ctx.warnings == s.ctx.warnings
  {}
}
