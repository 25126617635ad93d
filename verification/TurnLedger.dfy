/** What a turn of the chain does to quota is a run of the ledger: each grant books a reservation, an answer
    settles the last one. So the ledger's bounds hold for the chain. */
module TurnLedger {
  import opened Vocabulary
  import opened QuotaStore
  import opened QuotaManager
  import opened QuotaLedger
  import opened Fallback
  import opened AttemptTrail
  import opened Conservation
  import opened AgentTurns

  /** The store of this world is the outcome of some interleaving of ledger steps, none later than its clock. */
  ghost predicate Backed(env: Env, quotas: Quotas, l: Ledger, w: World) {
    && l.history == w.history && l.clock <= env.clock(w.readings)
    && exists steps :: Reaches(quotas, steps, l)
  }

  /** Estimates and reported usage are token counts, and the tenant's quota is the one the ledger knows. */
  ghost predicate Countable(env: Env, tenant: Tenant, quotas: Quotas) {
    && ClockForward(env) && quotas(tenant.id) == tenant.quota
    && (forall p, r :: env.estimate(p, r) >= 0)
    && (forall n :: env.reply(n).Answer? ==> env.reply(n).response.usage.Total() >= 0)
  }

  /** The bookings of these grants, all open but the last if it was settled. */
  ghost predicate Books(tenant: string, grants: seq<Grant>, settled: Option<int>, bookings: seq<Booking>) {
    && |bookings| == |grants|
    && forall i :: 0 <= i < |grants| ==>
         && bookings[i].tenant == tenant && bookings[i].estimate == grants[i].reserved
         && if i == |grants| - 1 && settled.Some?
            then bookings[i].settled.Some? && bookings[i].settled.value.actual == settled.value
            else bookings[i].settled == None
  }

  lemma ReservationIsStep(job: Job, quotas: Quotas, s: State, l: Ledger, readings: nat) returns (l': Ledger)
    requires s.ctx.candidates != [] && Countable(job.env, job.tenant, quotas) && Backed(job.env, quotas, l, s.world)
    requires !Denied(Replay(s.world.history), AskFor(job, s)) && readings > s.world.readings
    ensures var ask, counts := AskFor(job, s), Replay(s.world.history);
            && Backed(job.env, quotas, l', s.world.(history := s.world.history + ReserveOps(counts, ask),
                                                    readings := readings))
            && l'.book == l.book + [Booking(job.tenant.id, ask.estimate, ask.now, None)]
  {
    var ask := AskFor(job, s);
    var step := Step.Reserve(ask.tenant, ask.estimate, ask.provider, ask.now);
    var steps :| Reaches(quotas, steps, l);
    ReachesNext(quotas, steps, l, step);
    l' := Next(quotas, l, step);
    assert AskOf(quotas, step) == ask;
  }

  lemma SettlementIsStep(env: Env, quotas: Quotas, w: World, l: Ledger, actual: nat) returns (l': Ledger)
    requires ClockForward(env) && Backed(env, quotas, l, w)
    requires l.book != [] && l.book[|l.book| - 1].settled == None
    ensures var n := |l.book| - 1;
            && Backed(env, quotas, l', w.(history := w.history + CommitOps(l.book[n].tenant, l.book[n].estimate, actual,
                                                                           env.clock(w.readings)),
                                          readings := w.readings + 1))
            && l'.book == l.book[..n] + [l.book[n].(settled := Some(Settlement(actual, env.clock(w.readings))))]
  {
    var n := |l.book| - 1;
    var step := Step.Commit(n, actual, env.clock(w.readings));
    var steps :| Reaches(quotas, steps, l);
    ReachesNext(quotas, steps, l, step);
    l' := Next(quotas, l, step);
  }

  /** The book has grown by these grants' bookings. */
  ghost predicate Booked(tenant: string, base: seq<Booking>, book: seq<Booking>, grants: seq<Grant>,
                         settled: Option<int>)
  {
    base <= book && Books(tenant, grants, settled, book[|base|..])
  }

  lemma BookedSnoc(tenant: string, base: seq<Booking>, book: seq<Booking>, grants: seq<Grant>, b: Booking, grant: Grant)
    requires Booked(tenant, base, book, grants, None)
    requires b.tenant == tenant && b.estimate == grant.reserved
    ensures b.settled == None ==> Booked(tenant, base, book + [b], grants + [grant], None)
    ensures b.settled.Some? ==> Booked(tenant, base, book + [b], grants + [grant], Some(b.settled.value.actual))
  {
    assert (book + [b])[|base|..] == book[|base|..] + [b];
  }

  /** An answer's usage is one the vendor reported. */
  lemma {:induction false} AnswerIsReported(job: Job, quotas: Quotas, s: State)
    requires s.ctx.candidates != [] && Countable(job.env, job.tenant, quotas)
    ensures var (v, s') := Walk(job, GATEWAY, s); v.Success? ==> s'.ctx.response.value.usage.Total() >= 0
  {
    var (v, s') := Walk(job, GATEWAY, s);
    RoundShape(job, s);
    if v.Success? {
      var t := TryHere(job, s);
      CandidateTrail(job.env, |s.world.log|, SiteHere(job, s), 0, 1);
      assert Placed(job.env, SiteHere(job, s), |s.world.log| + (|t.records| - 1), t.records[|t.records| - 1]);
    }
  }

  /** One round: nothing, a reservation, or a reservation and its settlement. */
  lemma RoundIsSteps(job: Job, quotas: Quotas, base: seq<Booking>, s: State, l: Ledger, v: Verdict, s': State)
    returns (l': Ledger)
    requires s.ctx.candidates != [] && QuotaMoves(job, s, v, s') && Countable(job.env, job.tenant, quotas)
    requires Backed(job.env, quotas, l, s.world) && Booked(job.tenant.id, base, l.book, s.ctx.grants, None)
    requires v.Success? ==> s'.ctx.response.Some? && s'.ctx.response.value.usage.Total() >= 0
    ensures Backed(job.env, quotas, l', s'.world)
    ensures Booked(job.tenant.id, base, l'.book, s'.ctx.grants,
                   if v.Success? then Some(s'.ctx.response.value.usage.Total()) else None)
  {
    if !v.Success? && s'.ctx.grants == s.ctx.grants && s'.world.history == s.world.history {
      l' := l;
    } else {
      var ask := AskFor(job, s);
      var grant := Grant(|s.ctx.candidates|, ask.estimate);
      var booking := Booking(job.tenant.id, ask.estimate, ask.now, None);
      l' := ReservationIsStep(job, quotas, s, l, s.world.readings + 1);
      if v.Success? {
        var w := s.world.(history := s.world.history + ReserveOps(Replay(s.world.history), ask),
                          readings := s.world.readings + 1);
        var actual := s'.ctx.response.value.usage.Total();
        l' := SettlementIsStep(job.env, quotas, w.(log := s'.world.log, slept := s'.world.slept), l', actual);
        booking := booking.(settled := Some(Settlement(actual, job.env.clock(w.readings))));
        assert l'.book == l.book + [booking];
      }
      BookedSnoc(job.tenant.id, base, l.book, s.ctx.grants, booking, grant);
    }
  }

  function SettledBy(outcome: Outcome): Option<int> {
    if outcome.Returned? then Some(outcome.response.usage.Total()) else None
  }

  lemma {:induction false} RoundsAreSteps(job: Job, quotas: Quotas, base: seq<Booking>, s: State, l: Ledger)
    returns (l': Ledger)
    requires s.ctx.candidates != [] && Countable(job.env, job.tenant, quotas)
    requires Backed(job.env, quotas, l, s.world) && Booked(job.tenant.id, base, l.book, s.ctx.grants, None)
    ensures var (outcome, final) := Rounds(job, GATEWAY, s);
            && Backed(job.env, quotas, l', final.world)
            && Booked(job.tenant.id, base, l'.book, final.ctx.grants, SettledBy(outcome))
    decreases |s.ctx.candidates|
  {
    var (v, s') := Walk(job, GATEWAY, s);
    RoundMoves(job, s);
    AnswerIsReported(job, quotas, s);
    l' := RoundIsSteps(job, quotas, base, s, l, v, s');
    if v.Fallback? && |s.ctx.candidates| > 1 {
      l' := RoundsAreSteps(job, quotas, base, DropCandidate(s'), l');
    }
  }

  /** A turn is a run of the ledger, from any ledger its store is backed by: it books one reservation per grant,
      in order, and settles the last one, at the usage of its answer, exactly if it was answered. */
  lemma TurnIsSteps(job: Job, quotas: Quotas, candidates: seq<Provider>, start: World, l: Ledger) returns (l': Ledger)
    requires Countable(job.env, job.tenant, quotas) && Backed(job.env, quotas, l, start)
    ensures var (outcome, s) := Execute(job, GATEWAY, State(FreshCtx(candidates), start));
            && Backed(job.env, quotas, l', s.world)
            && Booked(job.tenant.id, l.book, l'.book, s.ctx.grants, SettledBy(outcome))
  {
    assert l.book[|l.book|..] == [];
    if candidates == [] {
      l' := l;
    } else {
      l' := RoundsAreSteps(job, quotas, l.book, State(FreshCtx(candidates), start), l);
    }
  }

  /** So is a run. */
  lemma {:induction false} RunIsSteps(a: Agent, quotas: Quotas, max: nat, i: nat, r: Run, l: Ledger)
    returns (l': Ledger)
    requires a.handlers == GATEWAY && i <= max
    requires Countable(a.env, a.tenant, quotas) && Backed(a.env, quotas, l, r.world)
    ensures Backed(a.env, quotas, l', Loop(a, max, i, r).1.world) && l.book <= l'.book
    decreases max - i
  {
    l' := l;
    if i < max && !a.late(i) {
      l' := TurnIsSteps(JobOf(a, r), quotas, a.candidates, r.world, l);
      var (outcome, s) := Dispatch(a, r);
      if outcome.Returned? && outcome.response.message.toolCalls != [] {
        var r' := RunTools(a, Absorb(a, r, outcome.response, s), outcome.response.message.toolCalls);
        l' := RunIsSteps(a, quotas, max, i + 1, r', l');
      }
    }
  }

  /** The bounds of the ledger at any later moment. */
  ghost predicate WithinBounds(quotas: Quotas, l: Ledger, history: seq<StoreOp>, now: nat) {
    forall tenant, window ::
      WithinCap(quotas(tenant), l.book, tenant, window, Period(window, now),
                Shown(Replay(history), tenant, window, now))
  }

  /** End to end: an agent run over a store that any interleaving of dispatches brought about leaves every
      counter of every tenant within its cap, but for overruns settled in the period and late refunds. */
  lemma RunWithinBounds(a: Agent, quotas: Quotas, max: nat, start: Run, l: Ledger, now: nat) returns (l': Ledger)
    requires a.handlers == GATEWAY && NonNegative(quotas)
    requires Countable(a.env, a.tenant, quotas) && Backed(a.env, quotas, l, start.world)
    requires now >= a.env.clock(Loop(a, max, 0, start).1.world.readings)
    ensures Backed(a.env, quotas, l', Loop(a, max, 0, start).1.world) && l.book <= l'.book
    ensures WithinBounds(quotas, l', Loop(a, max, 0, start).1.world.history, now)
  {
    l' := RunIsSteps(a, quotas, max, 0, start, l);
    var steps :| Reaches(quotas, steps, l');
    forall tenant, window
      ensures WithinCap(quotas(tenant), l'.book, tenant, window, Period(window, now),
                        Shown(Replay(l'.history), tenant, window, now))
    {
      LedgerTheorem(quotas, steps, l', tenant, window, now);
    }
  }
}
