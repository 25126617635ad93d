/** Two-phase token quota: reserve an estimate before the call, settle the difference after it. */
module QuotaManager {
  import opened Vocabulary
  import opened QuotaStore

  datatype QuotaOutcome = Allow | SoftLimit | Deny

  datatype QuotaDecision = QuotaDecision(outcome: QuotaOutcome, reserved: int, breached: Option<Window>,
                                         provider: string)

  const WINDOWS: seq<Window> := [RequestsPerMin, TokensPerMin, TokensPerDay]

  function Cap(quota: TenantQuota, window: Window): int {
    match window
    case RequestsPerMin => quota.requestsPerMin
    case TokensPerMin => quota.tokensPerMin
    case TokensPerDay => quota.tokensPerDay
  }

  /** A question put to the manager: may this tenant spend `estimate` more tokens at `now`? */
  datatype Ask = Ask(tenant: string, quota: TenantQuota, estimate: int, provider: string, now: nat)

  function Cost(ask: Ask, window: Window): int {
    if window == RequestsPerMin then 1 else ask.estimate
  }

  function Prospective(counts: Counts, ask: Ask, window: Window): int {
    Shown(counts, ask.tenant, window, ask.now) + Cost(ask, window)
  }

  predicate Over(counts: Counts, ask: Ask, window: Window) {
    Prospective(counts, ask, window) > Cap(ask.quota, window)
  }

  predicate Soft(counts: Counts, ask: Ask, window: Window) {
    Crosses(Prospective(counts, ask, window), Cap(ask.quota, window), ask.quota.softLimitRatio)
  }

  predicate Crosses(prospective: int, cap: int, ratio: real) {
    prospective as real > cap as real * ratio
  }

  predicate Denied(counts: Counts, ask: Ask) {
    Over(counts, ask, RequestsPerMin) || Over(counts, ask, TokensPerMin) || Over(counts, ask, TokensPerDay)
  }

  /** The verdict: a denial names the first breached window, a warning the last crossed one. */
  function Decide(counts: Counts, ask: Ask): QuotaDecision {
    if Over(counts, ask, RequestsPerMin) then QuotaDecision(Deny, 0, Some(RequestsPerMin), ask.provider)
    else if Over(counts, ask, TokensPerMin) then QuotaDecision(Deny, 0, Some(TokensPerMin), ask.provider)
    else if Over(counts, ask, TokensPerDay) then QuotaDecision(Deny, 0, Some(TokensPerDay), ask.provider)
    else if Soft(counts, ask, TokensPerDay) then
      QuotaDecision(SoftLimit, ask.estimate, Some(TokensPerDay), ask.provider)
    else if Soft(counts, ask, TokensPerMin) then
      QuotaDecision(SoftLimit, ask.estimate, Some(TokensPerMin), ask.provider)
    else if Soft(counts, ask, RequestsPerMin) then
      QuotaDecision(SoftLimit, ask.estimate, Some(RequestsPerMin), ask.provider)
    else QuotaDecision(Allow, ask.estimate, None, ask.provider)
  }

  /** A denial, in the quota's own fields: some window would exceed its cap, and the first such one is named. */
  ghost predicate RightDenial(quota: TenantQuota, requests: int, minute: int, day: int, d: QuotaDecision) {
    && (d.outcome == Deny <==>
          requests > quota.requestsPerMin || minute > quota.tokensPerMin || day > quota.tokensPerDay)
    && (d.outcome == Deny ==>
          d.reserved == 0
          && d.breached == (if requests > quota.requestsPerMin then Some(RequestsPerMin)
                            else if minute > quota.tokensPerMin then Some(TokensPerMin)
                            else Some(TokensPerDay)))
  }

  /** A warning, likewise: of the windows past their soft limit, the last is named. */
  ghost predicate RightWarning(quota: TenantQuota, requests: int, minute: int, day: int, d: QuotaDecision) {
    d.outcome != Deny ==>
      && d.breached == (if Past(day, quota.tokensPerDay, quota.softLimitRatio) then Some(TokensPerDay)
                        else if Past(minute, quota.tokensPerMin, quota.softLimitRatio) then Some(TokensPerMin)
                        else if Past(requests, quota.requestsPerMin, quota.softLimitRatio) then Some(RequestsPerMin)
                        else None)
      && (d.outcome == SoftLimit <==> d.breached != None)
  }

  predicate Past(total: int, cap: int, ratio: real) { total as real - cap as real * ratio > 0.0 }

  lemma CrossesIsPast(total: int, cap: int, ratio: real)
    ensures Crosses(total, cap, ratio) <==> Past(total, cap, ratio)
  {}

  /** The counters a reservation is tested against, were it granted. */
  ghost predicate Judged(counts: Counts, ask: Ask, d: QuotaDecision) {
    var requests := Shown(counts, ask.tenant, RequestsPerMin, ask.now) + 1;
    var minute := Shown(counts, ask.tenant, TokensPerMin, ask.now) + ask.estimate;
    var day := Shown(counts, ask.tenant, TokensPerDay, ask.now) + ask.estimate;
    && RightDenial(ask.quota, requests, minute, day, d)
    && RightWarning(ask.quota, requests, minute, day, d)
    && (d.outcome != Deny ==> d.reserved == ask.estimate)
    && d.provider == ask.provider
  }

  lemma DecideIsRight(counts: Counts, ask: Ask)
    ensures Judged(counts, ask, Decide(counts, ask))
    ensures Denied(counts, ask) <==> Decide(counts, ask).outcome == Deny
  {
    CrossesIsPast(Prospective(counts, ask, RequestsPerMin), ask.quota.requestsPerMin, ask.quota.softLimitRatio);
    CrossesIsPast(Prospective(counts, ask, TokensPerMin), ask.quota.tokensPerMin, ask.quota.softLimitRatio);
    CrossesIsPast(Prospective(counts, ask, TokensPerDay), ask.quota.tokensPerDay, ask.quota.softLimitRatio);
  }

  /** From one state of the counters to the next, only this tenant's move at this moment, by these amounts. */
  ghost predicate Moved(before: Counts, after: Counts, tenant: string, now: nat, requests: int, tokens: int) {
    && Shown(after, tenant, RequestsPerMin, now) == Shown(before, tenant, RequestsPerMin, now) + requests
    && Shown(after, tenant, TokensPerMin, now) == Shown(before, tenant, TokensPerMin, now) + tokens
    && Shown(after, tenant, TokensPerDay, now) == Shown(before, tenant, TokensPerDay, now) + tokens
    && forall key: (string, Window) :: key.0 != tenant ==>
         (key in after <==> key in before) && (key in after ==> after[key] == before[key])
  }

  /** Increments a reservation makes; none when it is denied. */
  function ReserveOps(counts: Counts, ask: Ask): seq<StoreOp> {
    if Denied(counts, ask) then []
    else [Incr(ask.tenant, RequestsPerMin, 1, ask.now),
          Incr(ask.tenant, TokensPerMin, ask.estimate, ask.now),
          Incr(ask.tenant, TokensPerDay, ask.estimate, ask.now)]
  }

  /** Increments a settlement makes; none when the estimate was exact. */
  function CommitOps(tenant: string, reserved: int, actual: int, now: nat): seq<StoreOp> {
    if actual == reserved then []
    else [Incr(tenant, TokensPerMin, actual - reserved, now), Incr(tenant, TokensPerDay, actual - reserved, now)]
  }

  lemma {:induction false} ReserveLogged(counts: Counts, ask: Ask, tenant: string, window: Window, period: nat)
    ensures Logged(ReserveOps(counts, ask), tenant, window, period)
            == if !Denied(counts, ask) && ask.tenant == tenant && Period(window, ask.now) == period
               then Cost(ask, window) else 0
  {
    var ops := ReserveOps(counts, ask);
    if !Denied(counts, ask) {
      assert ops[..2][..1][..0] == [];
      assert Logged(ops[..1], tenant, window, period) == AmountOf(ops[0], tenant, window, period) by {
        assert ops[..1][..0] == [];
      }
      assert ops[..2][..1] == ops[..1];
      assert Logged(ops[..2], tenant, window, period)
          == Logged(ops[..1], tenant, window, period) + AmountOf(ops[1], tenant, window, period);
    }
  }

  lemma {:induction false} CommitLogged(id: string, reserved: int, actual: int, now: nat, tenant: string,
                                        window: Window, period: nat)
    ensures Logged(CommitOps(id, reserved, actual, now), tenant, window, period)
            == if id == tenant && window != RequestsPerMin && Period(window, now) == period
               then actual - reserved else 0
  {
    var ops := CommitOps(id, reserved, actual, now);
    if actual != reserved {
      assert ops[..1][..0] == [];
      assert Logged(ops[..1], tenant, window, period) == AmountOf(ops[0], tenant, window, period);
    }
  }

  /** Last of the first `n` windows whose soft limit is crossed. */
  function SoftAmong(counts: Counts, ask: Ask, n: nat): Option<Window>
    requires n <= |WINDOWS|
  {
    if n == 0 then None
    else if Soft(counts, ask, WINDOWS[n - 1]) then Some(WINDOWS[n - 1])
    else SoftAmong(counts, ask, n - 1)
  }

  lemma {:induction false} SoftestOfAll(counts: Counts, ask: Ask)
    ensures SoftAmong(counts, ask, 3)
            == if Soft(counts, ask, TokensPerDay) then Some(TokensPerDay)
               else if Soft(counts, ask, TokensPerMin) then Some(TokensPerMin)
               else if Soft(counts, ask, RequestsPerMin) then Some(RequestsPerMin)
               else None
  {
    assert SoftAmong(counts, ask, 0) == None;
    assert SoftAmong(counts, ask, 2)
        == if Soft(counts, ask, WINDOWS[1]) then Some(WINDOWS[1]) else SoftAmong(counts, ask, 1);
  }

  class QuotaManager {
    const store: InMemoryQuotaStore

    constructor (store: InMemoryQuotaStore)
      ensures this.store == store
    {
      this.store := store;
    }

    method Reserve(ask: Ask) returns (decision: QuotaDecision)
      requires store.Valid()
      modifies store
      ensures store.Valid()
      ensures decision == Decide(old(store.counts), ask) && Judged(old(store.counts), ask, decision)
      ensures if decision.outcome == Deny then store.counts == old(store.counts)
              else Moved(old(store.counts), store.counts, ask.tenant, ask.now, 1, ask.estimate)
      ensures store.history == old(store.history) + ReserveOps(old(store.counts), ask)
    {
      decision := Check(ask);
      DecideIsRight(store.counts, ask);
      if decision.outcome == Deny { return; }
      Charge(ask);
    }

    /** Second half of Reserve: concurrent requests see the reservation at once. */
    method Charge(ask: Ask)
      requires store.Valid() && !Denied(store.counts, ask)
      modifies store
      ensures store.Valid()
      ensures Moved(old(store.counts), store.counts, ask.tenant, ask.now, 1, ask.estimate)
      ensures store.history == old(store.history) + ReserveOps(old(store.counts), ask)
    {
      ghost var counts, history := store.counts, store.history;
      var _ := store.Incr(ask.tenant, RequestsPerMin, 1, ask.now);
      var _ := store.Incr(ask.tenant, TokensPerMin, ask.estimate, ask.now);
      var _ := store.Incr(ask.tenant, TokensPerDay, ask.estimate, ask.now);
      assert store.history == history + ReserveOps(counts, ask);
    }

    /** First half of Reserve: test every window, the strictest verdict winning. */
    method Check(ask: Ask) returns (decision: QuotaDecision)
      requires store.Valid()
      ensures decision == Decide(store.counts, ask) && Judged(store.counts, ask, decision)
    {
      var requests := store.Read(ask.tenant, RequestsPerMin, ask.now);
      var minute := store.Read(ask.tenant, TokensPerMin, ask.now);
      var day := store.Read(ask.tenant, TokensPerDay, ask.now);
      decision := Verdict([(RequestsPerMin, requests + 1, ask.quota.requestsPerMin),
                           (TokensPerMin, minute + ask.estimate, ask.quota.tokensPerMin),
                           (TokensPerDay, day + ask.estimate, ask.quota.tokensPerDay)], ask, store.counts);
      DecideIsRight(store.counts, ask);
    }

    /** The strictest of three checks, each a window with its total and its cap. */
    method Verdict(checks: seq<(Window, int, int)>, ask: Ask, ghost counts: Counts) returns (decision: QuotaDecision)
      requires |checks| == 3
      requires forall i :: 0 <= i < 3 ==>
                 checks[i] == (WINDOWS[i], Prospective(counts, ask, WINDOWS[i]), Cap(ask.quota, WINDOWS[i]))
      ensures decision == Decide(counts, ask)
    {
      var outcome, breached := Allow, None;
      for i := 0 to |checks|
        invariant i >= 1 ==> !Over(counts, ask, RequestsPerMin)
        invariant i >= 2 ==> !Over(counts, ask, TokensPerMin)
        invariant i >= 3 ==> !Over(counts, ask, TokensPerDay)
        invariant breached == SoftAmong(counts, ask, i)
        invariant outcome == if breached == None then Allow else SoftLimit
      {
        var (window, prospective, cap) := checks[i];
        if prospective > cap {
          return QuotaDecision(Deny, 0, Some(window), ask.provider);
        }
        if Crosses(prospective, cap, ask.quota.softLimitRatio) {
          outcome, breached := SoftLimit, Some(window);
        }
      }
      SoftestOfAll(counts, ask);
      return QuotaDecision(outcome, ask.estimate, breached, ask.provider);
    }

    method Commit(tenant: string, decision: QuotaDecision, actual: Usage, now: nat)
      requires store.Valid()
      modifies store
      ensures store.Valid()
      ensures store.history == old(store.history) + CommitOps(tenant, decision.reserved, actual.Total(), now)
      ensures Moved(old(store.counts), store.counts, tenant, now, 0,
                    actual.prompt + actual.completion - decision.reserved)
    {
      var delta := actual.Total() - decision.reserved;
      if delta == 0 { return; }
      var _ := store.Incr(tenant, TokensPerMin, delta, now);
      var _ := store.Incr(tenant, TokensPerDay, delta, now);
    }
  }
}
