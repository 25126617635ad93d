/** The audit trail of one model turn: for every run of the gateway's chain, its calls obey a grammar that
    says who may be called after whom, and the outcome is read off the last call. */
module AttemptTrail {
  import opened Vocabulary
  import opened Text
  import opened Fallback

  predicate LastKey(r: Record) { r.key + 1 == |r.pool| }

  ghost predicate SameKey(r: Record, r': Record) {
    && r'.provider == r.provider && r'.left == r.left && r'.pool == r.pool
    && r'.key == r.key && r'.attempt == r.attempt + 1
  }

  ghost predicate NextKeyOf(r: Record, r': Record) {
    r'.provider == r.provider && r'.left == r.left && r'.pool == r.pool && r'.key == r.key + 1 && r'.attempt == 1
  }

  /** A later candidate, from its first key; denied candidates in between leave no call. */
  ghost predicate LaterCandidate(r: Record, r': Record) {
    LastKey(r) && 1 <= r'.left < r.left && r'.key == 0 && r'.attempt == 1
  }

  ghost predicate MovesOn(r: Record, r': Record) {
    if LastKey(r) then LaterCandidate(r, r') else NextKeyOf(r, r')
  }

  /** A rate limit worth waiting out: nowhere else to go, budget left, and no overlong hint. */
  predicate WorthWaiting(c: Config, r: Record)
    requires r.reply.VendorError?
  {
    LastKey(r) && r.left == 1 && r.attempt < c.rateLimitMaxAttempts
    && (r.reply.hint.Some? ==> r.reply.hint.value <= c.rateLimitMaxWait)
  }

  /** Exactly the failures that are waited out, and for how long. */
  predicate WaitOk(c: Config, r: Record) {
    if r.reply.VendorError?
       && ((r.reply.class_ == Transient && r.attempt < c.maxAttempts)
           || (r.reply.class_ == RateLimit && WorthWaiting(c, r)))
    then r.attempt >= 1 && r.wait == Some(BackoffDelay(c, r.attempt, r.reply.hint))
    else r.wait == None
  }

  /** Which call may follow which. */
  ghost predicate Follows(c: Config, r: Record, r': Record) {
    r.reply.VendorError?
    && match r.reply.class_
       case Transient => if r.attempt < c.maxAttempts then SameKey(r, r') else MovesOn(r, r')
       case RateLimit => if WorthWaiting(c, r) then SameKey(r, r') else MovesOn(r, r')
       case Quota => MovesOn(r, r')
       case Auth => NextKeyOf(r, r')
       case Invalid => false
       case Content => false
  }

  ghost predicate Grammar(c: Config, trail: seq<Record>) {
    forall i, j :: 0 <= i && j == i + 1 < |trail| ==> Follows(c, trail[i], trail[j])
  }

  /** After this call the candidate may be given up for a later one. */
  ghost predicate Abandons(c: Config, r: Record) {
    forall r' :: LaterCandidate(r, r') ==> Follows(c, r, r')
  }

  predicate Terminal(r: Record) {
    r.reply.VendorError?
    && (r.reply.class_ == Invalid || r.reply.class_ == Content || (r.reply.class_ == Auth && LastKey(r)))
  }

  ghost predicate EndsAs(c: Config, records: seq<Record>, end: End) {
    if records == [] then end == GaveUp
    else
      var last := records[|records| - 1];
      match end
      case Won(response) => last.reply == Answer(response)
      case Threw(detail) => last.reply == LibraryError(detail)
      case Halted(cl, detail) => Terminal(last) && last.reply.class_ == cl && last.reply.detail == detail
      case GaveUp => last.reply.VendorError? && !Terminal(last) && LastKey(last) && Abandons(c, last)
                     && (last.wait.Some? ==> last.attempt >= c.maxAttempts)
  }

  ghost predicate Placed(env: Env, site: Site, n: nat, r: Record) {
    && r.provider == site.provider && r.left == site.left && r.pool == site.pool
    && r.key < |r.pool| && 1 <= r.attempt <= env.config.maxAttempts
    && r.reply == env.reply(n) && WaitOk(env.config, r)
  }

  lemma {:induction false} GrammarJoin(c: Config, a: seq<Record>, b: seq<Record>)
    requires Grammar(c, a) && Grammar(c, b)
    requires a != [] && b != [] ==> Follows(c, a[|a| - 1], b[0])
    ensures Grammar(c, a + b)
  {
    var all := a + b;
    forall i, j | 0 <= i && j == i + 1 < |all| ensures Follows(c, all[i], all[j]) {
      if j < |a| {
        assert Follows(c, a[i], a[j]);
      } else if i >= |a| {
        assert Follows(c, b[i - |a|], b[j - |a|]);
      }
    }
  }

  /** What one call permits next. */
  lemma OneCallPermits(env: Env, n: nat, site: Site, k: nat, a: nat)
    requires site.left >= 1 && k < |site.pool| && 1 <= a <= env.config.maxAttempts
    ensures var (r, after) := OneCall(env, n, site, k, a);
            && Placed(env, site, n, r) && r.key == k && r.attempt == a
            && match after
               case Again =>
                 if a < env.config.maxAttempts then forall r' :: SameKey(r, r') ==> Follows(env.config, r, r')
                 else EndsAs(env.config, [r], GaveUp)
               case NextKey => !LastKey(r) && forall r' :: NextKeyOf(r, r') ==> Follows(env.config, r, r')
               case Done(end) => EndsAs(env.config, [r], end)
  {}

  lemma EndsAsCons(c: Config, r: Record, rest: seq<Record>, end: End)
    requires rest != [] && EndsAs(c, rest, end)
    ensures EndsAs(c, [r] + rest, end)
  {
    assert ([r] + rest)[|rest|] == rest[|rest| - 1];
  }

  ghost predicate AllPlaced(env: Env, site: Site, n: nat, records: seq<Record>) {
    forall i :: 0 <= i < |records| ==> Placed(env, site, n + i, records[i])
  }

  lemma AllPlacedCons(env: Env, site: Site, n: nat, r: Record, rest: seq<Record>)
    requires Placed(env, site, n, r) && AllPlaced(env, site, n + 1, rest)
    ensures AllPlaced(env, site, n, [r] + rest)
  {
    forall i | 0 <= i < |rest| + 1 ensures Placed(env, site, n + i, ([r] + rest)[i]) {
      if i > 0 { assert Placed(env, site, n + 1 + (i - 1), rest[i - 1]); }
    }
  }

  ghost predicate CandidateLaws(env: Env, n: nat, site: Site, k: nat, a: nat, t: Trail) {
    && Grammar(env.config, t.records)
    && EndsAs(env.config, t.records, t.end)
    && AllPlaced(env, site, n, t.records)
    && (k < |site.pool| && a <= env.config.maxAttempts ==> t.records != [])
    && (t.records != [] && a <= env.config.maxAttempts ==> t.records[0].key == k && t.records[0].attempt == a)
  }

  /** The calls made on one candidate. */
  lemma {:induction false} CandidateTrail(env: Env, n: nat, site: Site, k: nat, a: nat)
    requires site.left >= 1 && k <= |site.pool| && 1 <= a <= env.config.maxAttempts + 1
    ensures CandidateLaws(env, n, site, k, a, Try(env, n, site, k, a))
    decreases |site.pool| - k, env.config.maxAttempts + 1 - a
  {
    var c := env.config;
    if k < |site.pool| {
      if a > c.maxAttempts {
        CandidateTrail(env, n, site, k + 1, 1);
      } else {
        var (r, after) := OneCall(env, n, site, k, a);
        OneCallPermits(env, n, site, k, a);
        if !after.Done? {
          var k', a' := if after.Again? then k else k + 1, if after.Again? then a + 1 else 1;
          CandidateTrail(env, n + 1, site, k', a');
          var rest := Try(env, n + 1, site, k', a');
          assert Try(env, n, site, k, a) == rest.After(r);
          AllPlacedCons(env, site, n, r, rest.records);
          if a' > c.maxAttempts { assert rest == Try(env, n + 1, site, k' + 1, 1) == Trail([], GaveUp); }
          if rest.records == [] {
            assert [r] + rest.records == [r];
          } else {
            assert Placed(env, site, n + 1 + 0, rest.records[0]);
            EndsAsCons(c, r, rest.records, rest.end);
            GrammarJoin(c, [r], rest.records);
          }
        }
      }
    }
  }

  // ---- whole turns ----------------------------------------------------------------------

  /** The n-th call of a turn that routed to `all`: whom it may address, and with which credential. */
  ghost predicate CallOk(job: Job, all: seq<Provider>, n: nat, r: Record) {
    && 1 <= r.left <= |all| && r.provider == all[|all| - r.left]
    && var resolved := job.env.resolve(job.tenant, r.provider);
    && resolved.Some? && r.pool == PoolOf(resolved.value)
    && r.key < |r.pool| && 1 <= r.attempt <= job.env.config.maxAttempts
    && r.reply == job.env.reply(n) && WaitOk(job.env.config, r)
  }

  ghost predicate CallsOk(job: Job, all: seq<Provider>, n: nat, trail: seq<Record>, least: nat) {
    forall i :: 0 <= i < |trail| ==> CallOk(job, all, n + i, trail[i]) && trail[i].left >= least
  }

  ghost predicate GivenUp(c: Config, trail: seq<Record>) { EndsAs(c, trail, GaveUp) }

  /** What holds of the trail at every point; `n` is the vendor log's length at the start of the turn. */
  ghost predicate Lawful(job: Job, all: seq<Provider>, n: nat, trail: seq<Record>, least: nat) {
    && Grammar(job.env.config, trail)
    && CallsOk(job, all, n, trail, least)
    && (trail != [] ==> trail[0].key == 0 && trail[0].attempt == 1)
  }

  /** The trail accounts for the audit log, the vendors' log and the pauses. */
  ghost predicate Recorded(job: Job, start: World, s: State) {
    && s.ctx.attempts == Entries(s.ctx.trail)
    && s.world.log == start.log + Calls(job.request, s.ctx.trail)
    && s.world.slept == start.slept + Waits(s.ctx.trail)
  }

  /** Between two rounds. */
  ghost predicate Between(job: Job, all: seq<Provider>, start: World, s: State) {
    var left := |s.ctx.candidates|;
    && left <= |all| && s.ctx.candidates == all[|all| - left..]
    && Recorded(job, start, s)
    && Lawful(job, all, |start.log|, s.ctx.trail, left + 1)
    && GivenUp(job.env.config, s.ctx.trail)
  }

  ghost predicate VerdictFits(c: Config, s: State, v: Verdict) {
    var trail := s.ctx.trail;
    match v
    case Continue => false
    case Success => s.ctx.response.Some? && trail != [] && EndsAs(c, trail, Won(s.ctx.response.value))
    case Fallback => GivenUp(c, trail)
    case Stop => trail != [] && Terminal(trail[|trail| - 1])
                 && s.ctx.error == Some(RejectionBy(trail[|trail| - 1]))
    case Raise(e) => !e.ProviderRejected? && e != ChainStopped
                     && if e.LibraryFailure? then trail != [] && EndsAs(c, trail, Threw(e.detail))
                        else GivenUp(c, trail)
  }

  function RejectionBy(r: Record): Error
    requires r.reply.VendorError?
  {
    ProviderRejected(r.provider.name, r.reply.class_, r.reply.detail)
  }

  lemma {:induction false} EntriesAppend(a: seq<Record>, b: seq<Record>)
    ensures Entries(a + b) == Entries(a) + Entries(b)
  {
    if b == [] {
      assert a + b == a;
    } else {
      var before, last := b[..|b| - 1], b[|b| - 1];
      EntriesAppend(a, before);
      assert (a + b)[..|a + b| - 1] == a + before && (a + b)[|a + b| - 1] == last;
      Associative(Entries(a), Entries(before), Entry(last));
    }
  }

  lemma {:induction false} WaitsAppend(a: seq<Record>, b: seq<Record>)
    ensures Waits(a + b) == Waits(a) + Waits(b)
  {
    if b == [] {
      assert a + b == a;
    } else {
      var before, last := b[..|b| - 1], b[|b| - 1];
      WaitsAppend(a, before);
      assert (a + b)[..|a + b| - 1] == a + before && (a + b)[|a + b| - 1] == last;
      Associative(Waits(a), Waits(before), Wait(last));
    }
  }

  /** Appending one candidate's calls to the trail of the earlier candidates. */
  lemma JoinTrails(job: Job, all: seq<Provider>, n: nat, trail: seq<Record>, site: Site, records: seq<Record>)
    requires 1 <= site.left <= |all| && site.provider == all[|all| - site.left]
    requires Lawful(job, all, n, trail, site.left + 1) && GivenUp(job.env.config, trail)
    requires var resolved := job.env.resolve(job.tenant, site.provider);
             resolved.Some? && site.pool == PoolOf(resolved.value)
    requires Grammar(job.env.config, records) && AllPlaced(job.env, site, n + |trail|, records)
    requires records != [] ==> records[0].key == 0 && records[0].attempt == 1
    ensures Lawful(job, all, n, trail + records, site.left)
  {
    if records != [] {
      assert Placed(job.env, site, n + |trail| + 0, records[0]);
      if trail != [] {
        assert CallOk(job, all, n + (|trail| - 1), trail[|trail| - 1]) && trail[|trail| - 1].left >= site.left + 1;
        assert LaterCandidate(trail[|trail| - 1], records[0]);
      }
    }
    GrammarJoin(job.env.config, trail, records);
    forall i | 0 <= i < |trail + records|
      ensures CallOk(job, all, n + i, (trail + records)[i]) && (trail + records)[i].left >= site.left
    {
      if i >= |trail| {
        assert Placed(job.env, site, n + |trail| + (i - |trail|), records[i - |trail|]);
      }
    }
  }

  lemma EndsAsAppend(c: Config, trail: seq<Record>, records: seq<Record>, end: End)
    requires GivenUp(c, trail) && EndsAs(c, records, end)
    ensures EndsAs(c, trail + records, end)
  {
    if records == [] {
      assert trail + records == trail;
    } else {
      assert (trail + records)[|trail + records| - 1] == records[|records| - 1];
    }
  }

  /** What a round leaves behind. */
  ghost predicate RoundDone(job: Job, all: seq<Provider>, start: World, s: State, v: Verdict, s': State) {
    && s'.ctx.candidates == s.ctx.candidates
    && Recorded(job, start, s')
    && Lawful(job, all, |start.log|, s'.ctx.trail, |s.ctx.candidates|)
    && VerdictFits(job.env.config, s', v)
  }

  lemma CalledTrail(job: Job, all: seq<Provider>, start: World, s: State, v: Verdict, s': State)
    requires s.ctx.candidates != [] && Between(job, all, start, s)
    requires job.env.resolve(job.tenant, s.ctx.candidates[0]).Some? && CalledUpon(job, s, TryHere(job, s), v, s')
    ensures RoundDone(job, all, start, s, v, s')
  {
    CandidateTrail(job.env, |s.world.log|, SiteHere(job, s), 0, 1);
    CalledRecorded(job, start, s, TryHere(job, s), v, s');
    CalledHere(job, all, start, s, TryHere(job, s));
    CalledFits(job, s, SiteHere(job, s), TryHere(job, s), v, s');
  }

  lemma CalledHere(job: Job, all: seq<Provider>, start: World, s: State, t: Trail)
    requires s.ctx.candidates != [] && Between(job, all, start, s)
    requires job.env.resolve(job.tenant, s.ctx.candidates[0]).Some?
    requires CandidateLaws(job.env, |s.world.log|, SiteHere(job, s), 0, 1, t)
    ensures Lawful(job, all, |start.log|, s.ctx.trail + t.records, |s.ctx.candidates|)
  {
    var left := |s.ctx.candidates|;
    assert s.ctx.candidates[0] == all[|all| - left..][0] == all[|all| - left];
    assert SiteHere(job, s) == SiteFor(job, all[|all| - left], left);
    assert |s.world.log| == |start.log| + |s.ctx.trail|;
    CalledLawful(job, all, |start.log|, s.ctx.trail, left, t);
  }

  lemma CalledRecorded(job: Job, start: World, s: State, t: Trail, v: Verdict, s': State)
    requires Recorded(job, start, s) && CalledUpon(job, s, t, v, s')
    ensures Recorded(job, start, s')
  {
    LogsAppend(job.request, s.ctx.trail, t.records, start.log, start.slept);
  }

  lemma {:induction false} LogsAppend(request: Request, a: seq<Record>, b: seq<Record>,
                                      log: seq<VendorCall>, slept: seq<real>)
    ensures Entries(a + b) == Entries(a) + Entries(b)
    ensures log + Calls(request, a + b) == log + Calls(request, a) + Calls(request, b)
    ensures slept + Waits(a + b) == slept + Waits(a) + Waits(b)
  {
    EntriesAppend(a, b);
    WaitsAppend(a, b);
    CallsAppend(request, a, b);
    Associative(log, Calls(request, a), Calls(request, b));
    Associative(slept, Waits(a), Waits(b));
  }

  lemma CallsAppend(request: Request, a: seq<Record>, b: seq<Record>)
    ensures Calls(request, a + b) == Calls(request, a) + Calls(request, b)
  {}

  lemma CalledLawful(job: Job, all: seq<Provider>, n: nat, trail: seq<Record>, left: nat, t: Trail)
    requires 1 <= left <= |all| && Lawful(job, all, n, trail, left + 1) && GivenUp(job.env.config, trail)
    requires job.env.resolve(job.tenant, all[|all| - left]).Some?
    requires CandidateLaws(job.env, n + |trail|, SiteFor(job, all[|all| - left], left), 0, 1, t)
    ensures Lawful(job, all, n, trail + t.records, left)
  {
    var site := SiteFor(job, all[|all| - left], left);
    if t.records != [] { assert Placed(job.env, site, n + |trail| + 0, t.records[0]); }
    JoinTrails(job, all, n, trail, site, t.records);
  }

  lemma CalledFits(job: Job, s: State, site: Site, t: Trail, v: Verdict, s': State)
    requires CalledUpon(job, s, t, v, s') && GivenUp(job.env.config, s.ctx.trail)
    requires site.provider == s.ctx.candidates[0] && CandidateLaws(job.env, |s.world.log|, site, 0, 1, t)
    ensures VerdictFits(job.env.config, s', v)
  {
    EndsAsAppend(job.env.config, s.ctx.trail, t.records, t.end);
    if t.records != [] { assert Placed(job.env, site, |s.world.log| + (|t.records| - 1), t.records[|t.records| - 1]); }
    VerdictFitsEnd(job, s, t, v, s');
  }

  lemma TurnedAwayTrail(job: Job, all: seq<Provider>, start: World, s: State, v: Verdict, s': State)
    requires s.ctx.candidates != [] && Between(job, all, start, s) && TurnedAway(s, v, s')
    ensures RoundDone(job, all, start, s, v, s')
  {}

  lemma VerdictFitsEnd(job: Job, s: State, t: Trail, v: Verdict, s': State)
    requires CalledUpon(job, s, t, v, s') && EndsAs(job.env.config, s'.ctx.trail, t.end)
    requires t.records != [] ==> t.records[|t.records| - 1].provider == s.ctx.candidates[0]
    requires t.records == [] ==> t.end == GaveUp
    ensures VerdictFits(job.env.config, s', v)
  {}

  /** Everything a finished turn's trail guarantees. */
  ghost predicate TrailLaws(job: Job, all: seq<Provider>, start: World, outcome: Outcome, s: State) {
    var trail := s.ctx.trail;
    && Recorded(job, start, s)
    // calls go to routed candidates with their resolved credentials, one after another as the grammar says
    && CallsOk(job, all, |start.log|, trail, 1)
    && (trail != [] ==> trail[0].key == 0 && trail[0].attempt == 1)
    && Grammar(job.env.config, trail)
    // the outcome is read off the last call
    && (outcome.Returned? <==> trail != [] && trail[|trail| - 1].reply.Answer?)
    && (outcome.Returned? ==> trail[|trail| - 1].reply == Answer(outcome.response))
    && ((outcome.Raised? && outcome.error.ProviderRejected?) <==> (trail != [] && Terminal(trail[|trail| - 1])))
    && (outcome.Raised? && outcome.error.ProviderRejected? ==> outcome.error == RejectionBy(trail[|trail| - 1]))
    && (outcome.Raised? && !outcome.error.ProviderRejected? && !outcome.error.LibraryFailure?
        ==> GivenUp(job.env.config, trail))
    && ((outcome.Raised? && outcome.error.LibraryFailure?) <==> (trail != [] && trail[|trail| - 1].reply.LibraryError?))
    && (outcome.Raised? && outcome.error.LibraryFailure? ==>
          trail[|trail| - 1].reply == LibraryError(outcome.error.detail))
  }

  lemma LawsAtEnd(job: Job, all: seq<Provider>, start: World, s: State, least: nat, v: Verdict, outcome: Outcome)
    requires least >= 1 && Recorded(job, start, s) && Lawful(job, all, |start.log|, s.ctx.trail, least)
    requires VerdictFits(job.env.config, s, v)
    requires outcome == match v
                        case Success => Returned(s.ctx.response.value)
                        case Stop => Raised(s.ctx.error.value)
                        case Raise(e) => Raised(e)
                        case Fallback => Raised(EXHAUSTED)
                        case Continue => Raised(NO_RESPONSE)
    ensures TrailLaws(job, all, start, outcome, s)
  {}

  lemma NextRound(job: Job, all: seq<Provider>, start: World, s: State, s': State)
    requires s.ctx.candidates != [] && Between(job, all, start, s) && RoundDone(job, all, start, s, Fallback, s')
    ensures Between(job, all, start, DropCandidate(s'))
  {
    var left := |s.ctx.candidates|;
    assert DropCandidate(s').ctx.candidates == all[|all| - (left - 1)..];
  }

  lemma {:induction false} LastRound(job: Job, all: seq<Provider>, start: World, s: State, v: Verdict, s': State)
    requires s.ctx.candidates != [] && RoundDone(job, all, start, s, v, s')
    requires v.Fallback? ==> |s.ctx.candidates| == 1
    requires (v, s') == Walk(job, GATEWAY, s)
    ensures var (outcome, final) := Rounds(job, GATEWAY, s);
            TrailLaws(job, all, start, outcome, final)
  {
    var (outcome, final) := Rounds(job, GATEWAY, s);
    LawsAtEnd(job, all, start, final, |s.ctx.candidates|, v, outcome);
  }

  lemma {:induction false} RoundsTrail(job: Job, all: seq<Provider>, start: World, s: State)
    requires s.ctx.candidates != [] && Between(job, all, start, s)
    ensures var (outcome, final) := Rounds(job, GATEWAY, s);
            TrailLaws(job, all, start, outcome, final)
    decreases |s.ctx.candidates|
  {
    var (v, s') := Walk(job, GATEWAY, s);
    RoundShape(job, s);
    if TurnedAway(s, v, s') {
      TurnedAwayTrail(job, all, start, s, v, s');
    } else {
      CalledTrail(job, all, start, s, v, s');
    }
    if v.Fallback? && |s.ctx.candidates| > 1 {
      NextRound(job, all, start, s, s');
      RoundsTrail(job, all, start, DropCandidate(s'));
    } else {
      LastRound(job, all, start, s, v, s');
    }
  }

  /** The attempt-trail theorem: every run of the gateway's chain from a fresh context obeys the laws. */
  lemma TrailTheorem(job: Job, candidates: seq<Provider>, start: World)
    ensures var (outcome, s) := Execute(job, GATEWAY, State(FreshCtx(candidates), start));
            TrailLaws(job, candidates, start, outcome, s)
  {
    if candidates != [] { RoundsTrail(job, candidates, start, State(FreshCtx(candidates), start)); }
  }

  /** The part of it that concerns the calls alone. */
  lemma CallsObey(job: Job, candidates: seq<Provider>, start: World)
    ensures var trail := Execute(job, GATEWAY, State(FreshCtx(candidates), start)).1.ctx.trail;
            Grammar(job.env.config, trail) && CallsOk(job, candidates, |start.log|, trail, 1)
  {
    TrailTheorem(job, candidates, start);
  }

  // ---- readings of the grammar ----------------------------------------------------------

  /** Candidates in route order, keys in pool order, attempts counted up. */
  predicate Before(r: Record, r': Record) {
    r'.left < r.left || (r'.left == r.left && (r.key < r'.key || (r.key == r'.key && r.attempt < r'.attempt)))
  }

  lemma {:induction false} CallsAreOrdered(c: Config, trail: seq<Record>, i: nat, j: nat)
    requires Grammar(c, trail) && i < j < |trail|
    ensures Before(trail[i], trail[j])
  {
    assert Follows(c, trail[j - 1], trail[j]);
    if i < j - 1 { CallsAreOrdered(c, trail, i, j - 1); }
  }

  /** Only the last call can succeed or abort; a rejected key in between has a successor. */
  lemma InnerCallsFailed(c: Config, trail: seq<Record>, i: nat)
    requires Grammar(c, trail) && i + 1 < |trail|
    ensures var r := trail[i];
            && r.reply.VendorError? && r.reply.class_ != Invalid && r.reply.class_ != Content
            && (r.reply.class_ == Auth ==> NextKeyOf(r, trail[i + 1]))
            && (r.reply.class_ == Quota ==> !SameKey(r, trail[i + 1]))
  {
    assert Follows(c, trail[i], trail[i + 1]);
  }

  /** One audit record per call, but for a last call that raised a library error. */
  lemma {:induction false} OneEntryPerCall(trail: seq<Record>)
    requires forall i :: 0 <= i < |trail| - 1 ==> trail[i].reply.VendorError?
    ensures |Entries(trail)| == |trail| - (if trail != [] && trail[|trail| - 1].reply.LibraryError? then 1 else 0)
  {
    if trail != [] { OneEntryPerCall(trail[..|trail| - 1]); }
  }

  lemma {:induction false} EntriesMatch(trail: seq<Record>, i: nat)
    requires forall j :: 0 <= j < |trail| - 1 ==> trail[j].reply.VendorError?
    requires i < |Entries(trail)|
    ensures i < |trail| && Entry(trail[i]) == [Entries(trail)[i]]
  {
    var n := |trail| - 1;
    OneEntryPerCall(trail[..n]);
    if i < n { EntriesMatch(trail[..n], i); }
  }

  /** The audit log itself: entries name the candidates called, in order; one without an error exists exactly
      when the turn succeeded, and is then the last. */
  lemma AuditTheorem(job: Job, candidates: seq<Provider>, start: World)
    ensures var (outcome, s) := Execute(job, GATEWAY, State(FreshCtx(candidates), start));
            var attempts := s.ctx.attempts;
            && (outcome.Returned? <==> exists i :: 0 <= i < |attempts| && attempts[i].errorClass == None)
            && (forall i :: 0 <= i < |attempts| ==>
                  && i < |s.ctx.trail| && attempts[i].providerName == s.ctx.trail[i].provider.name
                  && (attempts[i].errorClass == None <==> outcome.Returned? && i == |attempts| - 1))
  {
    TrailTheorem(job, candidates, start);
    var (outcome, s) := Execute(job, GATEWAY, State(FreshCtx(candidates), start));
    var trail, attempts := s.ctx.trail, s.ctx.attempts;
    forall j | 0 <= j < |trail| - 1 ensures trail[j].reply.VendorError? { InnerCallsFailed(job.env.config, trail, j); }
    OneEntryPerCall(trail);
    forall i | 0 <= i < |attempts|
      ensures i < |trail| && attempts[i].providerName == trail[i].provider.name
      ensures attempts[i].errorClass == None <==> outcome.Returned? && i == |attempts| - 1
    {
      EntriesMatch(trail, i);
    }
    if outcome.Returned? { assert attempts[|attempts| - 1].errorClass == None; }
  }

  function OwnBudget(job: Job, p: Provider): nat {
    var resolved := job.env.resolve(job.tenant, p);
    if resolved.Some? then |PoolOf(resolved.value)| * job.env.config.maxAttempts else 0
  }

  /** Calls a turn can make at most: every key of every candidate, each with its full attempts. */
  function Budget(job: Job, candidates: seq<Provider>): nat {
    if |candidates| == 0 then 0 else OwnBudget(job, candidates[0]) + Budget(job, candidates[1..])
  }

  lemma {:induction false} CandidateBudget(env: Env, n: nat, site: Site, k: nat, a: nat)
    requires k <= |site.pool| && 1 <= a <= env.config.maxAttempts + 1
    ensures |Try(env, n, site, k, a).records|
            <= if k < |site.pool| then (|site.pool| - k) * env.config.maxAttempts + 1 - a else 0
    decreases |site.pool| - k, env.config.maxAttempts + 1 - a
  {
    var max := env.config.maxAttempts;
    if k < |site.pool| {
      var left := |site.pool| - k;
      assert left * max == (left - 1) * max + max;
      if a > max {
        CandidateBudget(env, n, site, k + 1, 1);
      } else {
        CandidateBudget(env, n + 1, site, k, a + 1);
        CandidateBudget(env, n + 1, site, k + 1, 1);
      }
    }
  }

  lemma {:induction false} RoundBudget(job: Job, s: State)
    requires s.ctx.candidates != []
    ensures var (v, s') := Walk(job, GATEWAY, s);
            && |s'.ctx.trail| <= |s.ctx.trail| + OwnBudget(job, s.ctx.candidates[0])
            && |s'.world.log| <= |s.world.log| + OwnBudget(job, s.ctx.candidates[0])
  {
    var (v, s') := Walk(job, GATEWAY, s);
    RoundShape(job, s);
    if !TurnedAway(s, v, s') { CandidateBudget(job.env, |s.world.log|, SiteHere(job, s), 0, 1); }
  }

  lemma {:induction false} RoundsBudget(job: Job, s: State)
    requires s.ctx.candidates != []
    ensures |Rounds(job, GATEWAY, s).1.ctx.trail| <= |s.ctx.trail| + Budget(job, s.ctx.candidates)
    ensures |Rounds(job, GATEWAY, s).1.world.log| <= |s.world.log| + Budget(job, s.ctx.candidates)
    decreases |s.ctx.candidates|
  {
    var (v, s') := Walk(job, GATEWAY, s);
    RoundBudget(job, s);
    if v.Fallback? && |s.ctx.candidates| > 1 { RoundsBudget(job, DropCandidate(s')); }
  }

  /** Termination comes with a bound on the calls of a turn. */
  lemma {:induction false} TurnBudget(job: Job, candidates: seq<Provider>, start: World)
    ensures var (_, s) := Execute(job, GATEWAY, State(FreshCtx(candidates), start));
            |s.ctx.trail| <= Budget(job, candidates) && |s.world.log| <= |start.log| + Budget(job, candidates)
  {
    if candidates != [] { RoundsBudget(job, State(FreshCtx(candidates), start)); }
  }
}
