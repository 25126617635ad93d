/** Which routed candidates a turn may pass over on its way. */
module RouteOrder {
  import opened Vocabulary
  import opened QuotaStore
  import opened QuotaManager
  import opened Fallback
  import opened Conservation

  /** A round that moves on without a reservation was denied one, a free candidate being left for a zero-setup
      tenant. */
  lemma {:induction false} PassedOverIsDenied(job: Job, s: State)
    requires s.ctx.candidates != []
    ensures var (v, s') := Walk(job, GATEWAY, s);
            v.Fallback? && s'.ctx.grants == s.ctx.grants ==>
              && job.tenant.isZeroSetup && FreeRemains(s.ctx.candidates)
              && Denied(Replay(s.world.history), AskFor(job, s))
              && s'.world.history == s.world.history && s'.world.readings == s.world.readings + 1
  {
    if LetThrough(job, s) {
      LetThroughRound(job, s);
      InvocationShape(job, Prepared(job, s));
    } else {
      HeldBackRound(job, s);
    }
  }

  /** At some point between two moments this candidate was refused a reservation. */
  ghost predicate WasDenied(job: Job, p: Provider, from: World, to: World) {
    exists n: nat, k: nat :: DeniedAt(job, p, to.history, n, k)
                             && |from.history| <= n && from.readings <= k < to.readings
  }

  ghost predicate DeniedAt(job: Job, p: Provider, history: seq<StoreOp>, n: nat, k: nat) {
    n <= |history|
    && Denied(Replay(history[..n]), Ask(job.tenant.id, job.tenant.quota, job.env.estimate(p, job.request), p.name,
                                        job.env.clock(k)))
  }

  /** Every candidate consumed between two moments was granted a reservation, or the tenant is zero-setup and it
      was refused one. */
  ghost predicate Justified(job: Job, s: State, final: State) {
    && s.world.history <= final.world.history && s.world.readings <= final.world.readings
    && s.ctx.grants <= final.ctx.grants
    && forall left :: |final.ctx.candidates| < left <= |s.ctx.candidates| ==>
         || left in Lefts(final.ctx.grants[|s.ctx.grants|..])
         || (job.tenant.isZeroSetup
             && WasDenied(job, s.ctx.candidates[|s.ctx.candidates| - left], s.world, final.world))
  }

  lemma {:induction false} RoundsJustified(job: Job, s: State)
    requires s.ctx.candidates != []
    ensures Justified(job, s, Rounds(job, GATEWAY, s).1)
    decreases |s.ctx.candidates|
  {
    var (v, s') := Walk(job, GATEWAY, s);
    RoundMoves(job, s);
    PassedOverIsDenied(job, s);
    if v.Fallback? {
      var next := DropCandidate(s');
      var final := Rounds(job, GATEWAY, s).1;
      if next.ctx.candidates != [] { RoundsJustified(job, next); }
      JustifiedEarlier(job, s, next, final);
    }
  }

  lemma JustifiedEarlier(job: Job, s: State, next: State, final: State)
    requires s.ctx.candidates != [] && next.ctx.candidates == s.ctx.candidates[1..] && Justified(job, next, final)
    requires s.world.history <= next.world.history && s.world.readings <= next.world.readings
    requires || next.ctx.grants == s.ctx.grants
             || exists grant :: next.ctx.grants == s.ctx.grants + [grant] && grant.left == |s.ctx.candidates|
    requires next.ctx.grants == s.ctx.grants ==>
               && job.tenant.isZeroSetup && Denied(Replay(s.world.history), AskFor(job, s))
               && next.world.readings == s.world.readings + 1
    ensures Justified(job, s, final)
  {
    var all := s.ctx.candidates;
    forall left | |final.ctx.candidates| < left <= |all|
      ensures || left in Lefts(final.ctx.grants[|s.ctx.grants|..])
              || (job.tenant.isZeroSetup && WasDenied(job, all[|all| - left], s.world, final.world))
    {
      var mine, later := Lefts(final.ctx.grants[|s.ctx.grants|..]), Lefts(final.ctx.grants[|next.ctx.grants|..]);
      if left < |all| {
        if left in later {
          var i :| 0 <= i < |later| && later[i] == left;
          assert mine[i + |next.ctx.grants| - |s.ctx.grants|] == left;
        }
      } else if next.ctx.grants != s.ctx.grants {
        assert mine[0] == left;
      } else {
        assert final.world.history[..|s.world.history|] == s.world.history;
        assert DeniedAt(job, all[0], final.world.history, |s.world.history|, s.world.readings);
      }
    }
  }

  /** Nobody is passed over but for want of quota: every candidate before the one a turn ends at held a
      reservation of its own, or belongs to a zero-setup tenant's turn and was refused one. */
  lemma PassedOverWereDenied(job: Job, candidates: seq<Provider>, start: World)
    ensures var s := Execute(job, GATEWAY, State(FreshCtx(candidates), start)).1;
            forall left :: |s.ctx.candidates| < left <= |candidates| ==>
              || left in Lefts(s.ctx.grants)
              || (job.tenant.isZeroSetup && WasDenied(job, candidates[|candidates| - left], start, s.world))
  {
    if candidates != [] {
      RoundsJustified(job, State(FreshCtx(candidates), start));
      var grants := Execute(job, GATEWAY, State(FreshCtx(candidates), start)).1.ctx.grants;
      assert grants[0..] == grants;
    }
  }

  /** The i-th grant is the i-th candidate's. */
  ghost predicate InTurn(candidates: seq<Provider>, grants: seq<Grant>) {
    |grants| <= |candidates| && forall i :: 0 <= i < |grants| ==> grants[i].left == |candidates| - i
  }

  lemma {:induction false} RoundsInTurn(job: Job, all: seq<Provider>, s: State)
    requires !job.tenant.isZeroSetup && s.ctx.candidates != []
    requires InTurn(all, s.ctx.grants) && |s.ctx.candidates| == |all| - |s.ctx.grants|
    ensures InTurn(all, Rounds(job, GATEWAY, s).1.ctx.grants)
    decreases |s.ctx.candidates|
  {
    var (v, s') := Walk(job, GATEWAY, s);
    RoundMoves(job, s);
    PassedOverIsDenied(job, s);
    if v.Fallback? && |s.ctx.candidates| > 1 { RoundsInTurn(job, all, DropCandidate(s')); }
  }

  /** So the turn of a tenant that is not zero-setup calls on the candidates in route order from the first,
      leaving out nobody. */
  lemma NobodyPassedOver(job: Job, candidates: seq<Provider>, start: World)
    requires !job.tenant.isZeroSetup && job.env.config.maxAttempts >= 1
    ensures var visited := Visited(Execute(job, GATEWAY, State(FreshCtx(candidates), start)).1.ctx.trail);
            |visited| <= |candidates| && forall i :: 0 <= i < |visited| ==> visited[i] == |candidates| - i
  {
    var s0 := State(FreshCtx(candidates), start);
    if candidates != [] { RoundsInTurn(job, candidates, s0); }
    GrantsTheorem(job, candidates, start);
    var grants := Execute(job, GATEWAY, s0).1.ctx.grants;
    assert forall i :: 0 <= i < |grants| ==> Lefts(grants)[i] == grants[i].left;
  }

  lemma {:induction false} RoundsExhaust(job: Job, s: State)
    requires s.ctx.candidates != []
    ensures var (outcome, final) := Rounds(job, GATEWAY, s);
            && (outcome.Raised? && outcome.error.AllProvidersExhausted? <==> final.ctx.candidates == [])
            && (final.ctx.candidates == [] ==>
                  outcome == Raised(AllProvidersExhausted("all routed providers were exhausted")))
    decreases |s.ctx.candidates|
  {
    var (v, s') := Walk(job, GATEWAY, s);
    NoRoundExhausts(job, s);
    if v.Fallback? && |s.ctx.candidates| > 1 { RoundsExhaust(job, DropCandidate(s')); }
  }

  lemma {:induction false} NoRoundExhausts(job: Job, s: State)
    requires s.ctx.candidates != []
    ensures var (v, s') := Walk(job, GATEWAY, s);
            && v != Continue && s'.ctx.candidates == s.ctx.candidates
            && (v.Raise? ==> !v.error.AllProvidersExhausted?)
            && (v == Stop ==> s'.ctx.error.Some? && s'.ctx.error.value.ProviderRejected?)
  {
    RoundShape(job, s);
  }

  /** A turn ends exhausted exactly when every candidate was consumed, an empty route being told apart. */
  lemma ExhaustedExactly(job: Job, candidates: seq<Provider>, start: World)
    ensures var (outcome, s) := Execute(job, GATEWAY, State(FreshCtx(candidates), start));
            && (outcome == Raised(AllProvidersExhausted("no candidate providers were routed")) <==> candidates == [])
            && (outcome == Raised(AllProvidersExhausted("all routed providers were exhausted"))
                <==> candidates != [] && s.ctx.candidates == [])
            && (outcome.Raised? && outcome.error.AllProvidersExhausted? ==> s.ctx.candidates == [])
  {
    assert "no candidate providers were routed"[0] != "all routed providers were exhausted"[0];
    if candidates != [] { RoundsExhaust(job, State(FreshCtx(candidates), start)); }
  }
}
