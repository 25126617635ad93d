/** The in-memory counter store: tumbling windows that reset lazily. */
module QuotaStore {

  datatype Window = RequestsPerMin | TokensPerMin | TokensPerDay

  function Seconds(window: Window): nat {
    match window
    case RequestsPerMin => 60
    case TokensPerMin => 60
    case TokensPerDay => 86_400
  }

  /** Index of the tumbling window that holds the second `now`. */
  function Period(window: Window, now: nat): nat { now / Seconds(window) }

  datatype Bucket = Bucket(count: int, period: nat)
  type Counts = map<(string, Window), Bucket>

  /** What the counter shows at `now`: a bucket of another period counts as absent. */
  function Shown(counts: Counts, tenant: string, window: Window, now: nat): int {
    if (tenant, window) in counts && counts[(tenant, window)].period == Period(window, now)
    then counts[(tenant, window)].count
    else 0
  }

  function Charge(counts: Counts, tenant: string, window: Window, amount: int, now: nat): Counts {
    counts[(tenant, window) := Bucket(Shown(counts, tenant, window, now) + amount, Period(window, now))]
  }

  predicate Live(key: (string, Window), bucket: Bucket, now: nat) {
    bucket.period == Period(key.1, now)
  }

  function Sweep(counts: Counts, now: nat): Counts {
    map key | key in counts && Live(key, counts[key], now) :: counts[key]
  }

  // ---- histories ------------------------------------------------------------------------

  /** One mutation of the store, with the reading of the clock it saw. */
  datatype StoreOp =
    | Incr(tenant: string, window: Window, amount: int, at: nat)
    | Reset(at: nat)

  function Apply(counts: Counts, op: StoreOp): Counts {
    match op
    case Incr(tenant, window, amount, at) => Charge(counts, tenant, window, amount, at)
    case Reset(at) => Sweep(counts, at)
  }

  function Replay(history: seq<StoreOp>): Counts {
    if |history| == 0 then map[]
    else Apply(Replay(history[..|history| - 1]), history[|history| - 1])
  }

  /** The clock never runs backwards along the history and has not passed `now`. */
  ghost predicate MonotoneUpTo(history: seq<StoreOp>, now: nat) {
    |history| == 0
    || (history[|history| - 1].at <= now && MonotoneUpTo(history[..|history| - 1], history[|history| - 1].at))
  }

  predicate Concerns(op: StoreOp, tenant: string, window: Window) {
    op.Incr? && op.tenant == tenant && op.window == window
  }

  function AmountOf(op: StoreOp, tenant: string, window: Window, period: nat): int {
    if Concerns(op, tenant, window) && Period(window, op.at) == period then op.amount else 0
  }

  /** The reference meaning of a counter: the sum of everything logged for it in one period. */
  function Logged(history: seq<StoreOp>, tenant: string, window: Window, period: nat): int {
    if |history| == 0 then 0
    else Logged(history[..|history| - 1], tenant, window, period)
         + AmountOf(history[|history| - 1], tenant, window, period)
  }

  lemma {:induction false} LoggedAppend(a: seq<StoreOp>, b: seq<StoreOp>, tenant: string, window: Window, period: nat)
    ensures Logged(a + b, tenant, window, period)
            == Logged(a, tenant, window, period) + Logged(b, tenant, window, period)
  {
    if b == [] {
      assert a + b == a;
    } else {
      LoggedAppend(a, b[..|b| - 1], tenant, window, period);
      assert (a + b)[..|a + b| - 1] == a + b[..|b| - 1];
    }
  }

  lemma {:induction false} ReplaySnoc(history: seq<StoreOp>, op: StoreOp)
    ensures Replay(history + [op]) == Apply(Replay(history), op)
  {
    assert (history + [op])[..|history|] == history;
  }

  lemma {:induction false} MonotoneLater(history: seq<StoreOp>, now: nat, later: nat)
    requires MonotoneUpTo(history, now) && now <= later
    ensures MonotoneUpTo(history, later)
  {}

  lemma {:induction false} MonotoneAppend(a: seq<StoreOp>, b: seq<StoreOp>, start: nat, now: nat)
    requires MonotoneUpTo(a, start) && start <= now
    requires forall i :: 0 <= i < |b| ==> b[i].at == now
    ensures MonotoneUpTo(a + b, now)
  {
    if b == [] {
      assert a + b == a;
      MonotoneLater(a, start, now);
    } else {
      MonotoneAppend(a, b[..|b| - 1], start, now);
      assert (a + b)[..|a + b| - 1] == a + b[..|b| - 1];
    }
  }

  lemma PeriodOrder(window: Window, a: nat, b: nat)
    requires a <= b
    ensures Period(window, a) <= Period(window, b)
  {}

  lemma {:induction false} NothingLoggedAhead(history: seq<StoreOp>, tenant: string, window: Window, now: nat,
                                               period: nat)
    requires MonotoneUpTo(history, now) && Period(window, now) < period
    ensures Logged(history, tenant, window, period) == 0
  {
    if history != [] {
      var last := history[|history| - 1];
      PeriodOrder(window, last.at, now);
      NothingLoggedAhead(history[..|history| - 1], tenant, window, last.at, period);
    }
  }

  /** Refinement: whatever increments and sweeps came before, a read shows exactly the amounts
      logged for this tenant and window in the current period. */
  lemma {:induction false} ReadIsLoggedSum(history: seq<StoreOp>, tenant: string, window: Window, now: nat)
    requires MonotoneUpTo(history, now)
    ensures Shown(Replay(history), tenant, window, now) == Logged(history, tenant, window, Period(window, now))
  {
    if history != [] {
      var before, last := history[..|history| - 1], history[|history| - 1];
      var period := Period(window, now);
      PeriodOrder(window, last.at, now);
      ReadIsLoggedSum(before, tenant, window, last.at);
      if Period(window, last.at) < period {
        NothingLoggedAhead(before, tenant, window, last.at, period);
        MonotoneLater(before, last.at, now);
        ReadIsLoggedSum(before, tenant, window, now);
      }
    }
  }

  /** All amounts logged for one counter in the span of `seconds` seconds, counted from 0, that holds `now`. */
  function SpentIn(history: seq<StoreOp>, tenant: string, window: Window, seconds: nat, now: nat): int
    requires seconds > 0
  {
    if |history| == 0 then 0
    else
      var last := history[|history| - 1];
      SpentIn(history[..|history| - 1], tenant, window, seconds, now)
      + if last.Incr? && last.tenant == tenant && last.window == window && last.at / seconds == now / seconds
        then last.amount else 0
  }

  lemma {:induction false} LoggedIsSpent(history: seq<StoreOp>, tenant: string, window: Window, now: nat)
    ensures Logged(history, tenant, window, Period(window, now))
            == SpentIn(history, tenant, window, if window == TokensPerDay then 86_400 else 60, now)
  {
    if history != [] { LoggedIsSpent(history[..|history| - 1], tenant, window, now); }
  }

  /** The same in seconds: two windows tumble by the minute, one by the day. */
  lemma {:induction false} ReadIsSpent(history: seq<StoreOp>, tenant: string, window: Window, now: nat)
    requires MonotoneUpTo(history, now)
    ensures Shown(Replay(history), tenant, window, now)
            == SpentIn(history, tenant, window, if window == TokensPerDay then 86_400 else 60, now)
  {
    ReadIsLoggedSum(history, tenant, window, now);
    LoggedIsSpent(history, tenant, window, now);
  }

  lemma {:induction false} LoggedSnoc(history: seq<StoreOp>, op: StoreOp, tenant: string, window: Window, period: nat)
    ensures Logged(history + [op], tenant, window, period)
            == Logged(history, tenant, window, period) + AmountOf(op, tenant, window, period)
  {
    assert (history + [op])[..|history|] == history;
  }

  /** The increments of one counter, in order. */
  function Relevant(history: seq<StoreOp>, tenant: string, window: Window): seq<StoreOp> {
    if |history| == 0 then []
    else
      var rest := Relevant(history[..|history| - 1], tenant, window);
      if Concerns(history[|history| - 1], tenant, window) then rest + [history[|history| - 1]] else rest
  }

  lemma {:induction false} RelevantKeeps(history: seq<StoreOp>, tenant: string, window: Window, period: nat)
    ensures Logged(Relevant(history, tenant, window), tenant, window, period) == Logged(history, tenant, window, period)
  {
    if history != [] {
      var before, last := history[..|history| - 1], history[|history| - 1];
      RelevantKeeps(before, tenant, window, period);
      if Concerns(last, tenant, window) {
        LoggedSnoc(Relevant(before, tenant, window), last, tenant, window, period);
      }
    }
  }

  lemma {:induction false} RelevantMonotone(history: seq<StoreOp>, tenant: string, window: Window, now: nat)
    requires MonotoneUpTo(history, now)
    ensures MonotoneUpTo(Relevant(history, tenant, window), now)
  {
    if history != [] {
      var before, last := history[..|history| - 1], history[|history| - 1];
      RelevantMonotone(before, tenant, window, last.at);
      var rest := Relevant(before, tenant, window);
      if Concerns(last, tenant, window) {
        assert (rest + [last])[..|rest|] == rest;
      } else {
        MonotoneLater(rest, last.at, now);
      }
    }
  }

  /** Sweeps anywhere in the history, and traffic of other tenants and windows, are unobservable:
      two histories that agree on the increments of one counter read alike there. */
  lemma {:induction false} ReadsDependOnOwnIncrements(one: seq<StoreOp>, two: seq<StoreOp>, tenant: string,
                                                      window: Window, now: nat)
    requires MonotoneUpTo(one, now) && MonotoneUpTo(two, now)
    requires Relevant(one, tenant, window) == Relevant(two, tenant, window)
    ensures Shown(Replay(one), tenant, window, now) == Shown(Replay(two), tenant, window, now)
  {
    var period := Period(window, now);
    ReadIsLoggedSum(one, tenant, window, now);
    ReadIsLoggedSum(two, tenant, window, now);
    RelevantKeeps(one, tenant, window, period);
    RelevantKeeps(two, tenant, window, period);
    RelevantMonotone(one, tenant, window, now);
    RelevantMonotone(two, tenant, window, now);
  }

  // ---- the mutable store ----------------------------------------------------------------

  class InMemoryQuotaStore {
    var counts: Counts
    ghost var history: seq<StoreOp>

    ghost predicate Valid()
      reads this
    {
      counts == Replay(history)
    }

    constructor ()
      ensures Valid() && history == []
    {
      counts, history := map[], [];
    }

    method Read(tenant: string, window: Window, now: nat) returns (count: int)
      requires Valid()
      ensures count == Shown(Replay(history), tenant, window, now)
      ensures MonotoneUpTo(history, now) ==> count == Logged(history, tenant, window, Period(window, now))
    {
      var key := (tenant, window);
      count := if key !in counts || counts[key].period != Period(window, now) then 0 else counts[key].count;
      if MonotoneUpTo(history, now) { ReadIsLoggedSum(history, tenant, window, now); }
    }

    method Incr(tenant: string, window: Window, tokens: int, now: nat) returns (updated: int)
      requires Valid()
      modifies this
      ensures Valid() && history == old(history) + [StoreOp.Incr(tenant, window, tokens, now)]
      ensures updated == old(Shown(counts, tenant, window, now)) + tokens
      ensures counts == old(counts)[(tenant, window) := Bucket(updated, Period(window, now))]
    {
      var key, period := (tenant, window), Period(window, now);
      var current := if key in counts && counts[key].period == period then counts[key].count else 0;
      updated := current + tokens;
      counts := counts[key := Bucket(updated, period)];
      ReplaySnoc(history, StoreOp.Incr(tenant, window, tokens, now));
      history := history + [StoreOp.Incr(tenant, window, tokens, now)];
    }

    method ResetExpired(now: nat)
      requires Valid()
      modifies this
      ensures Valid() && history == old(history) + [Reset(now)]
      ensures forall key :: key in counts <==> key in old(counts) && Live(key, old(counts)[key], now)
    {
      var stale := set key | key in counts && !Live(key, counts[key], now);
      while stale != {}
        invariant stale <= counts.Keys <= old(counts).Keys
        invariant forall key :: key in counts ==> counts[key] == old(counts)[key]
        invariant forall key :: key in stale ==> !Live(key, counts[key], now)
        invariant forall key :: key in old(counts) && Live(key, old(counts)[key], now) ==> key in counts
        invariant forall key :: key in counts && key !in stale ==> Live(key, counts[key], now)
        invariant history == old(history)
        decreases stale
      {
        var key :| key in stale;
        counts := counts - {key};
        stale := stale - {key};
      }
      assert counts == Sweep(old(counts), now);
      ReplaySnoc(history, Reset(now));
      history := history + [Reset(now)];
    }
  }
}
