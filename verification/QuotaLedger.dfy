/** Many in-flight dispatches sharing one quota: every interleaving of atomic reservations,
    settlements and sweeps under a clock that never runs backwards. */
module QuotaLedger {
  import opened Vocabulary
  import opened QuotaStore
  import opened QuotaManager

  datatype Settlement = Settlement(actual: nat, at: nat)

  /** A granted reservation; abandoned ones are simply never settled. */
  datatype Booking = Booking(tenant: string, estimate: nat, at: nat, settled: Option<Settlement>)

  datatype Ledger = Ledger(history: seq<StoreOp>, book: seq<Booking>, clock: nat)

  datatype Step =
    | Reserve(tenant: string, estimate: nat, provider: string, at: nat)
    | Commit(booking: nat, actual: nat, at: nat)
    | Expire(at: nat)

  type Quotas = string -> TenantQuota

  const EMPTY: Ledger := Ledger([], [], 0)

  ghost predicate Enabled(l: Ledger, s: Step) {
    l.clock <= s.at && (s.Commit? ==> s.booking < |l.book| && l.book[s.booking].settled.None?)
  }

  function AskOf(quotas: Quotas, s: Step): Ask
    requires s.Reserve?
  {
    Ask(s.tenant, quotas(s.tenant), s.estimate, s.provider, s.at)
  }

  /** What a step does to the store. */
  function OpsOf(quotas: Quotas, l: Ledger, s: Step): seq<StoreOp>
    requires s.Commit? ==> s.booking < |l.book|
  {
    match s
    case Reserve(_, _, _, _) => ReserveOps(Replay(l.history), AskOf(quotas, s))
    case Commit(i, actual, at) => CommitOps(l.book[i].tenant, l.book[i].estimate, actual, at)
    case Expire(at) => [Reset(at)]
  }

  /** What a step does to the book. */
  function BookAfter(quotas: Quotas, l: Ledger, s: Step): seq<Booking>
    requires s.Commit? ==> s.booking < |l.book|
  {
    match s
    case Reserve(tenant, estimate, _, at) =>
      if Denied(Replay(l.history), AskOf(quotas, s)) then l.book
      else l.book + [Booking(tenant, estimate, at, None)]
    case Commit(i, actual, at) => l.book[i := l.book[i].(settled := Some(Settlement(actual, at)))]
    case Expire(_) => l.book
  }

  function Next(quotas: Quotas, l: Ledger, s: Step): Ledger
    requires s.Commit? ==> s.booking < |l.book|
  {
    Ledger(l.history + OpsOf(quotas, l, s), BookAfter(quotas, l, s), s.at)
  }

  /** Ledgers some interleaving can produce, with the steps that produce them. */
  ghost predicate Reaches(quotas: Quotas, steps: seq<Step>, l: Ledger)
    decreases steps, 1
  {
    if |steps| == 0 then l == EMPTY
    else exists before :: StepsTo(quotas, steps, before, l)
  }

  ghost predicate StepsTo(quotas: Quotas, steps: seq<Step>, before: Ledger, l: Ledger)
    requires |steps| > 0
    decreases steps, 0
  {
    var last := steps[|steps| - 1];
    Reaches(quotas, steps[..|steps| - 1], before) && Enabled(before, last) && l == Next(quotas, before, last)
  }

  // ---- what a counter is worth ----------------------------------------------------------

  /** Contribution of one reservation to one window of one period. */
  function Share(b: Booking, window: Window, period: nat): int {
    var reservedHere := Period(window, b.at) == period;
    var settledHere := b.settled.Some? && Period(window, b.settled.value.at) == period;
    if window == RequestsPerMin then (if reservedHere then 1 else 0)
    else if reservedHere && settledHere then b.settled.value.actual
    else if reservedHere then b.estimate
    else if settledHere then b.settled.value.actual - b.estimate
    else 0
  }

  /** By how much a settlement of this period exceeded its estimate. */
  function Overrun(b: Booking, window: Window, period: nat): nat {
    if window != RequestsPerMin && b.settled.Some? && Period(window, b.settled.value.at) == period
       && b.settled.value.actual > b.estimate
    then b.settled.value.actual - b.estimate else 0
  }

  /** What a settlement of this period gave back on a reservation of another one. */
  function LateRefund(b: Booking, window: Window, period: nat): nat {
    if window != RequestsPerMin && b.settled.Some?
       && Period(window, b.settled.value.at) == period != Period(window, b.at)
       && b.estimate > b.settled.value.actual
    then b.estimate - b.settled.value.actual else 0
  }

  /** What a settlement of another minute of today gave back on a reservation of an earlier day. */
  function EarlierRefund(b: Booking, now: nat): nat {
    if b.settled.Some? && Period(TokensPerMin, b.settled.value.at) != Period(TokensPerMin, now)
    then LateRefund(b, TokensPerDay, Period(TokensPerDay, now)) else 0
  }

  function Sum(book: seq<Booking>, f: Booking -> int): int {
    if |book| == 0 then 0 else Sum(book[..|book| - 1], f) + f(book[|book| - 1])
  }

  function Shares(tenant: string, window: Window, period: nat): Booking -> int {
    (b: Booking) => if b.tenant == tenant then Share(b, window, period) else 0
  }

  function Overruns(tenant: string, window: Window, period: nat): Booking -> int {
    (b: Booking) => if b.tenant == tenant then Overrun(b, window, period) else 0
  }

  function LateRefunds(tenant: string, window: Window, period: nat): Booking -> int {
    (b: Booking) => if b.tenant == tenant then LateRefund(b, window, period) else 0
  }

  function EarlierRefunds(tenant: string, now: nat): Booking -> int {
    (b: Booking) => if b.tenant == tenant then EarlierRefund(b, now) else 0
  }

  function Balance(book: seq<Booking>, tenant: string, window: Window, period: nat): int {
    Sum(book, Shares(tenant, window, period))
  }

  lemma {:induction false} SumSnoc(book: seq<Booking>, b: Booking, f: Booking -> int)
    ensures Sum(book + [b], f) == Sum(book, f) + f(b)
  {
    assert (book + [b])[..|book|] == book;
  }

  lemma {:induction false} SumUpdate(book: seq<Booking>, i: nat, b: Booking, f: Booking -> int)
    requires i < |book|
    ensures Sum(book[i := b], f) == Sum(book, f) + f(b) - f(book[i])
  {
    var last := |book| - 1;
    if i == last {
      assert book[i := b][..last] == book[..last];
    } else {
      SumUpdate(book[..last], i, b, f);
      assert book[i := b][..last] == book[..last][i := b];
    }
  }

  // ---- the invariant --------------------------------------------------------------------

  ghost predicate Ordered(b: Booking, clock: nat) {
    b.at <= clock && (b.settled.Some? ==> b.at <= b.settled.value.at <= clock)
  }

  ghost predicate Balanced(l: Ledger) {
    forall tenant, window, period ::
      Logged(l.history, tenant, window, period) == Balance(l.book, tenant, window, period)
  }

  ghost predicate Capped(quotas: Quotas, l: Ledger) {
    forall tenant, window, period ::
      Balance(l.book, tenant, window, period)
      <= Cap(quotas(tenant), window) + Sum(l.book, Overruns(tenant, window, period))
  }

  ghost predicate Consistent(quotas: Quotas, l: Ledger) {
    && MonotoneUpTo(l.history, l.clock)
    && (forall i :: 0 <= i < |l.book| ==> Ordered(l.book[i], l.clock))
    && Balanced(l)
    && Capped(quotas, l)
  }

  ghost predicate NonNegative(quotas: Quotas) {
    forall tenant :: var quota := quotas(tenant);
      quota.requestsPerMin >= 0 && quota.tokensPerMin >= 0 && quota.tokensPerDay >= 0
  }

  lemma {:induction false} ReserveKeeps(quotas: Quotas, l: Ledger, s: Step, tenant: string, window: Window, period: nat)
    requires Consistent(quotas, l) && s.Reserve? && Enabled(l, s)
    ensures var l' := Next(quotas, l, s);
            && Logged(l'.history, tenant, window, period) == Balance(l'.book, tenant, window, period)
            && Balance(l'.book, tenant, window, period)
               <= Cap(quotas(tenant), window) + Sum(l'.book, Overruns(tenant, window, period))
  {
    var ask, counts := AskOf(quotas, s), Replay(l.history);
    LoggedAppend(l.history, ReserveOps(counts, ask), tenant, window, period);
    ReserveLogged(counts, ask, tenant, window, period);
    if !Denied(counts, ask) {
      var b := Booking(s.tenant, s.estimate, s.at, None);
      SumSnoc(l.book, b, Shares(tenant, window, period));
      SumSnoc(l.book, b, Overruns(tenant, window, period));
      if tenant == s.tenant && period == Period(window, s.at) {
        MonotoneLater(l.history, l.clock, s.at);
        ReadIsLoggedSum(l.history, tenant, window, s.at);
        assert !Over(counts, ask, window);
        OverrunsNonNegative(l.book, tenant, window, period);
      }
    }
  }

  lemma {:induction false} CommitKeeps(quotas: Quotas, l: Ledger, s: Step, tenant: string, window: Window, period: nat)
    requires Consistent(quotas, l) && s.Commit? && Enabled(l, s)
    ensures var l' := Next(quotas, l, s);
            && Logged(l'.history, tenant, window, period) == Balance(l'.book, tenant, window, period)
            && Balance(l'.book, tenant, window, period)
               <= Cap(quotas(tenant), window) + Sum(l'.book, Overruns(tenant, window, period))
  {
    var b := l.book[s.booking];
    var b' := b.(settled := Some(Settlement(s.actual, s.at)));
    LoggedAppend(l.history, CommitOps(b.tenant, b.estimate, s.actual, s.at), tenant, window, period);
    CommitLogged(b.tenant, b.estimate, s.actual, s.at, tenant, window, period);
    SumUpdate(l.book, s.booking, b', Shares(tenant, window, period));
    SumUpdate(l.book, s.booking, b', Overruns(tenant, window, period));
  }

  lemma {:induction false} OverrunsNonNegative(book: seq<Booking>, tenant: string, window: Window, period: nat)
    ensures Sum(book, Overruns(tenant, window, period)) >= 0
  {
    if book != [] { OverrunsNonNegative(book[..|book| - 1], tenant, window, period); }
  }

  lemma {:induction false} StepKeepsCounter(quotas: Quotas, l: Ledger, s: Step, tenant: string,
                                            window: Window, period: nat)
    requires Consistent(quotas, l) && Enabled(l, s)
    ensures var l' := Next(quotas, l, s);
            && Logged(l'.history, tenant, window, period) == Balance(l'.book, tenant, window, period)
            && Balance(l'.book, tenant, window, period)
               <= Cap(quotas(tenant), window) + Sum(l'.book, Overruns(tenant, window, period))
  {
    match s
    case Reserve(_, _, _, _) => ReserveKeeps(quotas, l, s, tenant, window, period);
    case Commit(_, _, _) => CommitKeeps(quotas, l, s, tenant, window, period);
    case Expire(_) => LoggedAppend(l.history, [Reset(s.at)], tenant, window, period);
                      assert Logged([Reset(s.at)], tenant, window, period) == 0;
  }

  lemma StepKeeps(quotas: Quotas, l: Ledger, s: Step)
    requires Consistent(quotas, l) && Enabled(l, s)
    ensures Consistent(quotas, Next(quotas, l, s))
  {
    var l' := Next(quotas, l, s);
    forall tenant, window, period
      ensures Logged(l'.history, tenant, window, period) == Balance(l'.book, tenant, window, period)
      ensures Balance(l'.book, tenant, window, period)
              <= Cap(quotas(tenant), window) + Sum(l'.book, Overruns(tenant, window, period))
    {
      StepKeepsCounter(quotas, l, s, tenant, window, period);
    }
    OpsStamped(quotas, l, s);
    MonotoneAppend(l.history, OpsOf(quotas, l, s), l.clock, s.at);
    BookOrdered(quotas, l, s);
  }

  lemma OpsStamped(quotas: Quotas, l: Ledger, s: Step)
    requires Enabled(l, s)
    ensures forall i :: 0 <= i < |OpsOf(quotas, l, s)| ==> OpsOf(quotas, l, s)[i].at == s.at
  {}

  lemma BookOrdered(quotas: Quotas, l: Ledger, s: Step)
    requires Enabled(l, s) && forall i :: 0 <= i < |l.book| ==> Ordered(l.book[i], l.clock)
    ensures var book := BookAfter(quotas, l, s); forall i :: 0 <= i < |book| ==> Ordered(book[i], s.at)
  {}

  /** Every interleaving keeps the ledger consistent. */
  lemma {:induction false} EveryInterleavingConsistent(quotas: Quotas, steps: seq<Step>, l: Ledger)
    requires NonNegative(quotas) && Reaches(quotas, steps, l)
    ensures Consistent(quotas, l)
  {
    if steps == [] {
      assert forall tenant, window, period :: Sum([], Overruns(tenant, window, period)) == 0;
      assert forall tenant, window: Window :: Cap(quotas(tenant), window) >= 0;
    } else {
      var before :| StepsTo(quotas, steps, before, l);
      EveryInterleavingConsistent(quotas, steps[..|steps| - 1], before);
      StepKeeps(quotas, before, steps[|steps| - 1]);
    }
  }

  /** What a counter can show, in the quota's own fields. */
  ghost predicate WithinCap(quota: TenantQuota, book: seq<Booking>, tenant: string, window: Window, period: nat,
                            shown: int)
  {
    var overruns := Sum(book, Overruns(tenant, window, period));
    var refunds := Sum(book, LateRefunds(tenant, window, period));
    match window
    case RequestsPerMin => 0 <= shown <= quota.requestsPerMin
    case TokensPerMin => -refunds <= shown <= quota.tokensPerMin + overruns
    case TokensPerDay => -refunds <= shown <= quota.tokensPerDay + overruns
  }

  /** The true ledger: what a counter shows is the balance of the book, it is capped up to the
      overruns settled in this period, and it drops below zero by late refunds only. */
  lemma {:induction false} LedgerTheorem(quotas: Quotas, steps: seq<Step>, l: Ledger, tenant: string,
                                         window: Window, now: nat)
    requires NonNegative(quotas) && Reaches(quotas, steps, l) && l.clock <= now
    ensures var shown, period := Shown(Replay(l.history), tenant, window, now), Period(window, now);
            && shown == Balance(l.book, tenant, window, period)
            && WithinCap(quotas(tenant), l.book, tenant, window, period, shown)
  {
    var period := Period(window, now);
    EveryInterleavingConsistent(quotas, steps, l);
    MonotoneLater(l.history, l.clock, now);
    ReadIsLoggedSum(l.history, tenant, window, now);
    RefundsBound(l.book, tenant, window, period);
    if window == RequestsPerMin { NoRequestAdjustments(l.book, tenant, period); }
  }

  lemma {:induction false} RefundsBound(book: seq<Booking>, tenant: string, window: Window, period: nat)
    ensures Balance(book, tenant, window, period) >= -Sum(book, LateRefunds(tenant, window, period))
  {
    if book != [] { RefundsBound(book[..|book| - 1], tenant, window, period); }
  }

  lemma {:induction false} NoRequestAdjustments(book: seq<Booking>, tenant: string, period: nat)
    ensures Sum(book, LateRefunds(tenant, RequestsPerMin, period)) == 0
    ensures Sum(book, Overruns(tenant, RequestsPerMin, period)) == 0
  {
    if book != [] { NoRequestAdjustments(book[..|book| - 1], tenant, period); }
  }

  // ---- the two token windows ------------------------------------------------------------

  const MINUTES: nat := 1440

  /** Shares of `n` consecutive minutes starting at `from`. */
  function OverMinutes(book: seq<Booking>, tenant: string, from: nat, n: nat): int {
    if n == 0 then 0
    else OverMinutes(book, tenant, from, n - 1) + Balance(book, tenant, TokensPerMin, from + n - 1)
  }

  function Within(from: nat, n: nat, minute: nat, amount: int): int {
    if from <= minute < from + n then amount else 0
  }

  /** What a booking adds over a stretch of minutes: its estimate if reserved there, and the
      correction if settled there. */
  function Stretch(b: Booking, tenant: string, from: nat, n: nat): int {
    if b.tenant != tenant then 0
    else Within(from, n, b.at / 60, b.estimate)
         + if b.settled.Some? then Within(from, n, b.settled.value.at / 60, b.settled.value.actual - b.estimate) else 0
  }

  lemma {:induction false} OverMinutesSplit(book: seq<Booking>, tenant: string, from: nat, n: nat)
    requires book != []
    ensures OverMinutes(book, tenant, from, n)
            == OverMinutes(book[..|book| - 1], tenant, from, n) + Stretch(book[|book| - 1], tenant, from, n)
  {
    if n > 0 { OverMinutesSplit(book, tenant, from, n - 1); }
  }

  lemma {:induction false} OverMinutesOfNothing(tenant: string, from: nat, n: nat)
    ensures OverMinutes([], tenant, from, n) == 0
  {
    if n > 0 { OverMinutesOfNothing(tenant, from, n - 1); }
  }

  lemma MinuteInDay(at: nat, day: nat)
    ensures MINUTES * day <= at / 60 < MINUTES * day + MINUTES <==> Period(TokensPerDay, at) == day
  {
    assert at / 86_400 == (at / 60) / 1440;
  }

  lemma DayShare(b: Booking, tenant: string, day: nat)
    ensures Stretch(b, tenant, MINUTES * day, MINUTES) == Shares(tenant, TokensPerDay, day)(b)
  {
    MinuteInDay(b.at, day);
    if b.settled.Some? { MinuteInDay(b.settled.value.at, day); }
  }

  lemma {:induction false} DayIsSumOfMinutes(book: seq<Booking>, tenant: string, day: nat)
    ensures Balance(book, tenant, TokensPerDay, day) == OverMinutes(book, tenant, MINUTES * day, MINUTES)
  {
    if book == [] {
      OverMinutesOfNothing(tenant, MINUTES * day, MINUTES);
    } else {
      DayIsSumOfMinutes(book[..|book| - 1], tenant, day);
      OverMinutesSplit(book, tenant, MINUTES * day, MINUTES);
      DayShare(book[|book| - 1], tenant, day);
    }
  }

  /** Nobody reserved on one day and settled on another. */
  ghost predicate NoDayCrossing(book: seq<Booking>) {
    forall b :: b in book && b.settled.Some? ==> Period(TokensPerDay, b.at) == Period(TokensPerDay, b.settled.value.at)
  }

  /** The day counter is the sum of that day's per-minute totals; the minute counter exceeds it by at most
      what settlements in today's other minutes gave back on reservations of earlier days, so never when no
      reservation is settled across midnight. */
  lemma {:induction false} TwoWindowTheorem(quotas: Quotas, steps: seq<Step>, l: Ledger, tenant: string, now: nat)
    requires NonNegative(quotas) && Reaches(quotas, steps, l) && l.clock <= now
    ensures var counts, day := Replay(l.history), Period(TokensPerDay, now);
            && Shown(counts, tenant, TokensPerDay, now) == OverMinutes(l.book, tenant, MINUTES * day, MINUTES)
            && Shown(counts, tenant, TokensPerMin, now)
               <= Shown(counts, tenant, TokensPerDay, now) + Sum(l.book, EarlierRefunds(tenant, now))
            && (NoDayCrossing(l.book) ==>
                  Shown(counts, tenant, TokensPerMin, now) <= Shown(counts, tenant, TokensPerDay, now))
  {
    var minute, day := Period(TokensPerMin, now), Period(TokensPerDay, now);
    LedgerTheorem(quotas, steps, l, tenant, TokensPerDay, now);
    LedgerTheorem(quotas, steps, l, tenant, TokensPerMin, now);
    DayIsSumOfMinutes(l.book, tenant, day);
    EveryInterleavingConsistent(quotas, steps, l);
    MinuteAtMost(l.book, tenant, now);
    if NoDayCrossing(l.book) { NothingRefunded(l.book, tenant, now); }
  }

  lemma {:induction false} MinuteAtMost(book: seq<Booking>, tenant: string, now: nat)
    requires forall i :: 0 <= i < |book| ==> Ordered(book[i], now)
    ensures Balance(book, tenant, TokensPerMin, Period(TokensPerMin, now))
            <= Balance(book, tenant, TokensPerDay, Period(TokensPerDay, now))
               + Sum(book, EarlierRefunds(tenant, now))
  {
    if book != [] {
      MinuteAtMost(book[..|book| - 1], tenant, now);
      MinuteWithinDay(book[|book| - 1], now);
    }
  }

  lemma MinuteWithinDay(b: Booking, now: nat)
    requires Ordered(b, now)
    ensures var day := Period(TokensPerDay, now);
            Share(b, TokensPerMin, Period(TokensPerMin, now))
            <= Share(b, TokensPerDay, day) + EarlierRefund(b, now)
  {
    assert forall t: nat :: t / 86_400 == (t / 60) / 1440;
  }

  lemma {:induction false} NothingRefunded(book: seq<Booking>, tenant: string, now: nat)
    requires NoDayCrossing(book)
    ensures Sum(book, EarlierRefunds(tenant, now)) == 0
  {
    if book != [] { NothingRefunded(book[..|book| - 1], tenant, now); }
  }

  lemma {:induction false} ReachesNext(quotas: Quotas, steps: seq<Step>, l: Ledger, s: Step)
    requires Reaches(quotas, steps, l) && Enabled(l, s)
    ensures Reaches(quotas, steps + [s], Next(quotas, l, s))
  {
    assert (steps + [s])[..|steps|] == steps;
    assert StepsTo(quotas, steps + [s], l, Next(quotas, l, s));
  }

  /** A grant is possible whenever the balances leave room for it. */
  lemma {:induction false} Grants(quotas: Quotas, steps: seq<Step>, l: Ledger, s: Step)
    requires NonNegative(quotas) && Reaches(quotas, steps, l) && s.Reserve? && l.clock <= s.at
    requires forall w :: Balance(l.book, s.tenant, w, Period(w, s.at)) + (if w == RequestsPerMin then 1 else s.estimate)
                         <= Cap(quotas(s.tenant), w)
    ensures Reaches(quotas, steps + [s], Next(quotas, l, s))
    ensures Next(quotas, l, s).book == l.book + [Booking(s.tenant, s.estimate, s.at, None)]
  {
    ReachesNext(quotas, steps, l, s);
    LedgerTheorem(quotas, steps, l, s.tenant, RequestsPerMin, s.at);
    LedgerTheorem(quotas, steps, l, s.tenant, TokensPerMin, s.at);
    LedgerTheorem(quotas, steps, l, s.tenant, TokensPerDay, s.at);
  }

  lemma BalanceOfOne(b: Booking, window: Window, period: nat)
    ensures Balance([b], b.tenant, window, period) == Share(b, window, period)
  {
    SumSnoc([], b, Shares(b.tenant, window, period));
    assert [] + [b] == [b];
  }

  /** A ledger whose only booking was made one second before midnight and settled at midnight for nothing. */
  lemma RefundAtMidnight(quotas: Quotas, t: string) returns (steps: seq<Step>, l: Ledger)
    requires NonNegative(quotas) && quotas(t) == TenantQuota(1, 100, 100, 1.0)
    ensures Reaches(quotas, steps, l) && l.clock == 86_400
    ensures l.book == [Booking(t, 100, 86_399, Some(Settlement(0, 86_400)))]
  {
    var reserve, settle := Reserve(t, 100, "p", 86_399), Commit(0, 0, 86_400);
    Grants(quotas, [], EMPTY, reserve);
    var granted := Next(quotas, EMPTY, reserve);
    assert granted.book == [Booking(t, 100, 86_399, None)];
    ReachesNext(quotas, [] + [reserve], granted, settle);
    steps, l := [] + [reserve] + [settle], Next(quotas, granted, settle);
  }

  lemma RefundBalances(book: seq<Booking>, t: string)
    requires book == [Booking(t, 100, 86_399, Some(Settlement(0, 86_400)))] + [Booking(t, 10, 86_460, None)]
    ensures Balance(book, t, TokensPerMin, 1441) == 10 && Balance(book, t, TokensPerDay, 1) == -90
  {
    BalanceOfOne(book[0], TokensPerMin, 1441);
    BalanceOfOne(book[0], TokensPerDay, 1);
    SumSnoc([book[0]], book[1], Shares(t, TokensPerMin, 1441));
    SumSnoc([book[0]], book[1], Shares(t, TokensPerDay, 1));
  }

  /** The condition is needed: reserve 100 tokens one second before midnight, settle them at zero at
      midnight, reserve 10 one minute later. The minute then shows 10 and the day -90. */
  lemma MinuteCanExceedDay(quotas: Quotas, t: string)
    requires NonNegative(quotas) && quotas(t) == TenantQuota(1, 100, 100, 1.0)
    ensures exists steps, l :: Reaches(quotas, steps, l) && l.clock == 86_460
              && Shown(Replay(l.history), t, TokensPerMin, l.clock) == 10
              && Shown(Replay(l.history), t, TokensPerDay, l.clock) == -90
  {
    var steps, before := RefundAtMidnight(quotas, t);
    var again := Reserve(t, 10, "p", 86_460);
    forall w: Window, p: nat { BalanceOfOne(before.book[0], w, p); }
    Grants(quotas, steps, before, again);
    var l := Next(quotas, before, again);
    RefundBalances(l.book, t);
    LedgerTheorem(quotas, steps + [again], l, t, TokensPerMin, 86_460);
    LedgerTheorem(quotas, steps + [again], l, t, TokensPerDay, 86_460);
  }
}
