/** When the chain pauses, for how long, and when a pause is in vain. */
module Waiting {
  import opened Vocabulary
  import opened QuotaStore
  import opened QuotaManager
  import opened Fallback
  import opened AttemptTrail

  function Max(a: real, b: real): real { if a >= b then a else b }

  ghost predicate SaneConfig(c: Config) {
    c.backoffBase >= 0.0 && c.backoffCap >= 0.0 && c.rateLimitMaxWait >= 0.0
  }

  ghost predicate SaneHints(env: Env) {
    forall n :: env.reply(n).VendorError? && env.reply(n).hint.Some? ==> env.reply(n).hint.value >= 0.0
  }

  lemma {:induction false} Pow2Positive(n: nat)
    ensures Pow2(n) >= 1.0
  {
    if n > 0 { Pow2Positive(n - 1); }
  }

  /** Every pause follows a transient failure, or a rate limit on the last key of the last candidate,
      and lasts no longer than the larger of the two configured ceilings; a rate limit's own hint is never
      undercut. */
  lemma WaitsAreBounded(job: Job, candidates: seq<Provider>, start: World, i: nat)
    requires SaneConfig(job.env.config) && SaneHints(job.env)
    requires var trail := Execute(job, GATEWAY, State(FreshCtx(candidates), start)).1.ctx.trail;
             i < |trail| && trail[i].wait.Some?
    ensures var r, c := Execute(job, GATEWAY, State(FreshCtx(candidates), start)).1.ctx.trail[i], job.env.config;
            && r.reply.VendorError?
            && (r.reply.class_ == Transient || (r.reply.class_ == RateLimit && LastKey(r) && r.left == 1))
            && 0.0 <= r.wait.value <= Max(c.backoffCap, c.rateLimitMaxWait)
            && (r.reply.class_ == RateLimit && r.reply.hint.Some? ==> r.wait.value >= r.reply.hint.value)
  {
    CallsObey(job, candidates, start);
    var trail := Execute(job, GATEWAY, State(FreshCtx(candidates), start)).1.ctx.trail;
    WaitIsBounded(job, candidates, |start.log| + i, trail[i]);
  }

  lemma WaitIsBounded(job: Job, all: seq<Provider>, n: nat, r: Record)
    requires SaneConfig(job.env.config) && SaneHints(job.env)
    requires CallOk(job, all, n, r) && r.wait.Some?
    ensures var c := job.env.config;
            && r.reply.VendorError?
            && (r.reply.class_ == Transient || (r.reply.class_ == RateLimit && LastKey(r) && r.left == 1))
            && 0.0 <= r.wait.value <= Max(c.backoffCap, c.rateLimitMaxWait)
            && (r.reply.class_ == RateLimit && r.reply.hint.Some? ==> r.wait.value >= r.reply.hint.value)
  {
    Pow2Positive(r.attempt - 1);
  }

  /** The base delay, doubled n times. */
  function Doubled(base: real, n: nat): real
    decreases n
  {
    if n == 0 then base else Doubled(base + base, n - 1)
  }

  lemma {:induction false} DoubledIsPow(base: real, n: nat)
    ensures Doubled(base, n) == base * Pow2(n)
    decreases n
  {
    if n > 0 {
      DoubledIsPow(base + base, n - 1);
      assert (base + base) * Pow2(n - 1) == base * (2.0 * Pow2(n - 1));
    }
  }

  /** How long a pause lasts: a second more than the vendor's hint, or without one the base delay doubled with
      every attempt, in either case up to the ceiling that goes with it. */
  ghost predicate RightPause(c: Config, r: Record) {
    r.reply.VendorError? && r.wait.Some? && r.attempt >= 1
    && match r.reply.hint
       case Some(h) => r.wait.value == if h + 1.0 <= c.rateLimitMaxWait then h + 1.0 else c.rateLimitMaxWait
       case None =>
         var plain := Doubled(c.backoffBase, r.attempt - 1);
         r.wait.value == if plain <= c.backoffCap then plain else c.backoffCap
  }

  lemma PauseIsRight(job: Job, all: seq<Provider>, n: nat, r: Record)
    requires CallOk(job, all, n, r) && r.wait.Some?
    ensures RightPause(job.env.config, r)
  {
    DoubledIsPow(job.env.config.backoffBase, r.attempt - 1);
  }

  /** The exact length of every pause of every run. */
  lemma PausesAreRight(job: Job, candidates: seq<Provider>, start: World, i: nat)
    requires var trail := Execute(job, GATEWAY, State(FreshCtx(candidates), start)).1.ctx.trail;
             i < |trail| && trail[i].wait.Some?
    ensures RightPause(job.env.config, Execute(job, GATEWAY, State(FreshCtx(candidates), start)).1.ctx.trail[i])
  {
    CallsObey(job, candidates, start);
    var trail := Execute(job, GATEWAY, State(FreshCtx(candidates), start)).1.ctx.trail;
    PauseIsRight(job, candidates, |start.log| + i, trail[i]);
  }

  // ---- hint-free retries of one key -----------------------------------------------------

  function Total(waits: seq<real>): real {
    if |waits| == 0 then 0.0 else Total(waits[..|waits| - 1]) + waits[|waits| - 1]
  }

  ghost predicate PlainTransient(c: Config, r: Record) {
    WaitOk(c, r) && r.reply.VendorError? && r.reply.class_ == Transient && r.reply.hint == None
  }

  /** Consecutive calls with one key, from its first attempt on, all but the last failing transiently without
      a hint; the last may come back with anything. */
  ghost predicate TransientBlock(c: Config, block: seq<Record>) {
    && Grammar(c, block)
    && (forall i :: 0 <= i < |block| ==> block[i].key == block[0].key && block[i].left == block[0].left)
    && (forall i :: 0 <= i < |block| - 1 ==> PlainTransient(c, block[i]))
    && (block != [] ==> block[0].attempt == 1)
  }

  lemma {:induction false} BlockAttempts(c: Config, block: seq<Record>, i: nat)
    requires TransientBlock(c, block) && i < |block|
    ensures block[i].attempt == i + 1
  {
    if i > 0 {
      BlockAttempts(c, block, i - 1);
      assert Follows(c, block[i - 1], block[i]);
    }
  }

  lemma BlockPrefix(c: Config, block: seq<Record>, n: nat)
    requires TransientBlock(c, block) && n <= |block|
    ensures TransientBlock(c, block[..n])
  {
    var part := block[..n];
    forall i, j | 0 <= i && j == i + 1 < |part| ensures Follows(c, part[i], part[j]) {
      assert Follows(c, block[i], block[j]);
    }
  }

  /** The plain exponential pause after attempt n + 1. */
  function Pause(c: Config, n: nat): real { Min(c.backoffBase * Pow2(n), c.backoffCap) }

  /** The pause before the last call of a block. */
  lemma PauseInBlock(c: Config, block: seq<Record>)
    requires TransientBlock(c, block) && |block| > 1
    ensures var n := |block|; Waits(block[..n - 1]) == Waits(block[..n - 2]) + [Pause(c, n - 2)]
  {
    var n := |block|;
    var r := block[n - 2];
    BlockAttempts(c, block, n - 2);
    BlockAttempts(c, block, n - 1);
    assert Follows(c, r, block[n - 1]);
    assert PlainTransient(c, r) && !MovesOn(r, block[n - 1]);
    assert r.wait == Some(BackoffDelay(c, n - 1, None)) == Some(Pause(c, n - 2));
    assert block[..n - 1][..n - 2] == block[..n - 2] && block[..n - 1][n - 2] == r;
  }

  lemma AddToGeometric(total: real, base: real, p: real, w: real)
    requires total <= base * (p - 1.0) && w <= base * p
    ensures total + w <= base * (2.0 * p - 1.0)
  {}

  lemma AddToFlat(total: real, m: real, cap: real, w: real)
    requires total <= m * cap && w <= cap
    ensures total + w <= (m + 1.0) * cap
  {}

  /** At most the uncapped geometric sum of n pauses, and at most the cap for each. */
  predicate Bounded(c: Config, n: nat, total: real) {
    total <= c.backoffBase * (Pow2(n) - 1.0) && total <= n as real * c.backoffCap
  }

  lemma AddPause(c: Config, total: real, n: nat)
    requires Bounded(c, n, total)
    ensures Bounded(c, n + 1, total + Pause(c, n))
  {
    assert Pause(c, n) <= c.backoffBase * Pow2(n) && Pause(c, n) <= c.backoffCap;
    AddToGeometric(total, c.backoffBase, Pow2(n), Pause(c, n));
    AddToFlat(total, n as real, c.backoffCap, Pause(c, n));
  }

  /** The n - 1 pauses between n such calls are bounded in total, whatever the last call comes back with. */
  lemma {:induction false} TransientTotal(c: Config, block: seq<Record>)
    requires TransientBlock(c, block) && block != []
    ensures Bounded(c, |block| - 1, Total(Waits(block[..|block| - 1])))
  {
    var n := |block|;
    if n > 1 {
      BlockPrefix(c, block, n - 1);
      TransientTotal(c, block[..n - 1]);
      assert block[..n - 1][..n - 2] == block[..n - 2];
      PauseInBlock(c, block);
      TotalSnoc(Waits(block[..n - 2]), Pause(c, n - 2));
      AddPause(c, Total(Waits(block[..n - 2])), n - 2);
    }
  }

  /** In every run: the pauses between calls lo, ..., hi - 1 of the turn are so bounded, if these went out with
      one key from its first attempt on and all but the last failed transiently without a hint. */
  lemma RetryPausesAreBounded(job: Job, candidates: seq<Provider>, start: World, lo: nat, hi: nat)
    requires var trail := Execute(job, GATEWAY, State(FreshCtx(candidates), start)).1.ctx.trail;
             && lo < hi <= |trail| && trail[lo].attempt == 1
             && (forall i :: lo <= i < hi ==> trail[i].left == trail[lo].left && trail[i].key == trail[lo].key)
             && (forall i :: lo <= i < hi - 1 ==>
                   trail[i].reply.VendorError? && trail[i].reply.class_ == Transient && trail[i].reply.hint == None)
    ensures var trail := Execute(job, GATEWAY, State(FreshCtx(candidates), start)).1.ctx.trail;
            Bounded(job.env.config, hi - lo - 1, Total(Waits(trail[lo..hi - 1])))
  {
    CallsObey(job, candidates, start);
    PausesOfSlice(job, candidates, |start.log|, Execute(job, GATEWAY, State(FreshCtx(candidates), start)).1.ctx.trail,
                  lo, hi);
  }

  lemma PausesOfSlice(job: Job, all: seq<Provider>, n: nat, trail: seq<Record>, lo: nat, hi: nat)
    requires Grammar(job.env.config, trail) && CallsOk(job, all, n, trail, 1)
    requires lo < hi <= |trail| && trail[lo].attempt == 1
    requires forall i :: lo <= i < hi ==> trail[i].left == trail[lo].left && trail[i].key == trail[lo].key
    requires forall i :: lo <= i < hi - 1 ==>
               trail[i].reply.VendorError? && trail[i].reply.class_ == Transient && trail[i].reply.hint == None
    ensures Bounded(job.env.config, hi - lo - 1, Total(Waits(trail[lo..hi - 1])))
  {
    SliceIsBlock(job, all, n, trail, lo, hi);
    TransientTotal(job.env.config, trail[lo..hi]);
    assert trail[lo..hi][..hi - lo - 1] == trail[lo..hi - 1];
  }

  lemma SliceIsBlock(job: Job, all: seq<Provider>, n: nat, trail: seq<Record>, lo: nat, hi: nat)
    requires Grammar(job.env.config, trail) && CallsOk(job, all, n, trail, 1)
    requires lo < hi <= |trail| && trail[lo].attempt == 1
    requires forall i :: lo <= i < hi ==> trail[i].left == trail[lo].left && trail[i].key == trail[lo].key
    requires forall i :: lo <= i < hi - 1 ==>
               trail[i].reply.VendorError? && trail[i].reply.class_ == Transient && trail[i].reply.hint == None
    ensures TransientBlock(job.env.config, trail[lo..hi])
  {
    var c, block := job.env.config, trail[lo..hi];
    forall i, j | 0 <= i && j == i + 1 < |block| ensures Follows(c, block[i], block[j]) {
      assert Follows(c, trail[lo + i], trail[lo + j]);
    }
    forall i | 0 <= i < |block| - 1 ensures PlainTransient(c, block[i]) {
      assert CallOk(job, all, n + (lo + i), trail[lo + i]);
    }
  }

  lemma {:induction false} TotalSnoc(waits: seq<real>, w: real)
    ensures Total(waits + [w]) == Total(waits) + w
  {
    assert (waits + [w])[..|waits|] == waits;
  }

  // ---- pauses in vain -------------------------------------------------------------------

  /** A pause is followed by another call with the same key exactly when attempts remain. */
  lemma WaitIsForARetry(job: Job, candidates: seq<Provider>, start: World, i: nat)
    requires var trail := Execute(job, GATEWAY, State(FreshCtx(candidates), start)).1.ctx.trail;
             i < |trail| && trail[i].wait.Some?
    ensures var trail := Execute(job, GATEWAY, State(FreshCtx(candidates), start)).1.ctx.trail;
            i + 1 < |trail| && SameKey(trail[i], trail[i + 1]) <==> trail[i].attempt < job.env.config.maxAttempts
  {
    TrailTheorem(job, candidates, start);
    var (outcome, s) := Execute(job, GATEWAY, State(FreshCtx(candidates), start));
    var trail := s.ctx.trail;
    assert CallOk(job, candidates, |start.log| + i, trail[i]);
    if i + 1 < |trail| {
      assert CallOk(job, candidates, |start.log| + (i + 1), trail[i + 1]);
      assert Follows(job.env.config, trail[i], trail[i + 1]);
    }
  }

  /** So a rate-limit budget within the attempt budget never pauses in vain ... */
  lemma NoPauseInVain(job: Job, candidates: seq<Provider>, start: World, i: nat)
    requires job.env.config.rateLimitMaxAttempts <= job.env.config.maxAttempts
    requires var trail := Execute(job, GATEWAY, State(FreshCtx(candidates), start)).1.ctx.trail;
             i < |trail| && trail[i].wait.Some?
    ensures var trail := Execute(job, GATEWAY, State(FreshCtx(candidates), start)).1.ctx.trail;
            i + 1 < |trail| && SameKey(trail[i], trail[i + 1])
  {
    TrailTheorem(job, candidates, start);
    var trail := Execute(job, GATEWAY, State(FreshCtx(candidates), start)).1.ctx.trail;
    assert CallOk(job, candidates, |start.log| + i, trail[i]);
    WaitIsForARetry(job, candidates, start, i);
  }

  /** Calls still made with a key that is always rate-limited, with nowhere else to go, from its a-th attempt. */
  function LimitedCalls(c: Config, a: nat): nat {
    if a > c.maxAttempts then 0
    else if a >= c.rateLimitMaxAttempts then 1
    else if c.maxAttempts <= c.rateLimitMaxAttempts then c.maxAttempts + 1 - a
    else c.rateLimitMaxAttempts + 1 - a
  }

  lemma {:induction false} AlwaysLimited(env: Env, n: nat, site: Site, a: nat)
    requires 1 <= a <= env.config.maxAttempts + 1
    requires forall k :: env.reply(k).VendorError? && env.reply(k).class_ == RateLimit && env.reply(k).hint == None
    requires site.left == 1 && |site.pool| == 1
    ensures var t := Try(env, n, site, 0, a);
            && t.end == GaveUp && |t.records| == LimitedCalls(env.config, a)
            && forall i :: 0 <= i < |t.records| ==>
                 (t.records[i].wait.Some? <==> a + i < env.config.rateLimitMaxAttempts)
    decreases env.config.maxAttempts + 1 - a
  {
    if a <= env.config.maxAttempts && a < env.config.rateLimitMaxAttempts { AlwaysLimited(env, n + 1, site, a + 1); }
  }

  /** ... and a larger one does: one candidate with one key, admitted by perimeter and quota and rate-limited on
      every call, is called as often as both budgets allow, but once in any case; the gateway pauses after each
      call within the rate-limit budget, so after the last one exactly if that budget is the larger. */
  lemma PauseInVain(job: Job, provider: Provider, start: World)
    requires forall k :: var reply := job.env.reply(k);
               reply.VendorError? && reply.class_ == RateLimit && reply.hint == None
    requires job.env.admits(job.request, job.tenant)
    requires var resolved := job.env.resolve(job.tenant, provider); resolved.Some? && |PoolOf(resolved.value)| == 1
    requires !Denied(Replay(start.history), AskFor(job, State(FreshCtx([provider]), start)))
    ensures var (outcome, s) := Execute(job, GATEWAY, State(FreshCtx([provider]), start));
            var n, allowed, limit := |s.ctx.trail|, job.env.config.maxAttempts, job.env.config.rateLimitMaxAttempts;
            && outcome == Raised(EXHAUSTED)
            && n == (if limit == 0 && allowed > 0 then 1 else if allowed <= limit then allowed else limit)
            && (forall i :: 0 <= i < n ==> (s.ctx.trail[i].wait.Some? <==> i + 1 < limit))
            && (n > 0 ==> (s.ctx.trail[n - 1].wait.Some? <==> allowed < limit))
  {
    var s0 := State(FreshCtx([provider]), start);
    LetThroughRound(job, s0);
    InvocationShape(job, Prepared(job, s0));
    AlwaysLimited(job.env, |start.log|, SiteHere(job, s0), 1);
  }
}
