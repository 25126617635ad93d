/** What one model turn does: the four links of the fallback chain and the chain itself, as functions
    on the state they change. The classes in module FallbackChain are proved against them. */
module Fallback {
  import opened Vocabulary
  import opened QuotaStore
  import opened QuotaManager
  import opened Credentials

  /** What a provider call comes back with, after the provider has classified its own error. */
  datatype Reply =
    | Answer(response: Response)
    | VendorError(class_: ErrorClass, detail: string, hint: Option<real>)
    | LibraryError(detail: string)

  datatype Config = Config(maxAttempts: nat, backoffBase: real, backoffCap: real,
                           rateLimitMaxAttempts: nat, rateLimitMaxWait: real)

  /** Everything outside the gateway: the n-th provider call, the n-th reading of the clock in seconds,
      the providers' token estimates, the credential resolver (None when it raises), and the perimeter's
      verdict on a request. */
  datatype Env = Env(reply: nat -> Reply, clock: nat -> nat, estimate: (Provider, Request) -> int,
                     resolve: (Tenant, Provider) -> Option<seq<Credential>>, admits: (Request, Tenant) -> bool,
                     config: Config)

  datatype Job = Job(env: Env, request: Request, tenant: Tenant)

  datatype Handoff = Handoff(provider: string, httpStatus: int, detail: string)

  datatype Error =
    | PerimeterViolation
    | NoCredential(provider: string)
    | QuotaExceeded(handoff: Handoff)
    | ProviderRejected(provider: string, class_: ErrorClass, detail: string)
    | LibraryFailure(detail: string)
    | AllProvidersExhausted(detail: string)
    | ChainStopped

  const UNROUTED: Error := AllProvidersExhausted("no candidate providers were routed")
  const NO_RESPONSE: Error := AllProvidersExhausted("fallback chain produced no response")
  const EXHAUSTED: Error := AllProvidersExhausted("all routed providers were exhausted")

  datatype Verdict = Continue | Success | Fallback | Stop | Raise(error: Error)

  datatype HandlerKind = Perimeter | CredentialLink | QuotaLink | Invocation

  /** The composition every dispatch uses. */
  const GATEWAY: seq<HandlerKind> := [Perimeter, CredentialLink, QuotaLink, Invocation]

  datatype AttemptRecord = AttemptRecord(providerName: string, errorClass: Option<ErrorClass>, detail: Option<string>,
                                         credentialRef: Option<string>)

  /** One call the vendors saw. */
  datatype VendorCall = VendorCall(provider: Provider, key: Option<string>, request: Request)

  /** One call as the trail remembers it: `left` candidates remained, the `key`-th credential of `pool`
      was used for the `attempt`-th time, and `wait` is the pause that followed. */
  datatype Record = Record(provider: Provider, left: nat, pool: seq<Option<Credential>>, key: nat, attempt: nat,
                           reply: Reply, wait: Option<real>)

  /** A reservation that was not denied, made with `left` candidates remaining. */
  datatype Grant = Grant(left: nat, reserved: int)

  datatype Ctx = Ctx(candidates: seq<Provider>, attempts: seq<AttemptRecord>, credentials: seq<Credential>,
                     reservation: Option<QuotaDecision>, response: Option<Response>, error: Option<Error>,
                     warnings: seq<Option<Window>>, trail: seq<Record>, grants: seq<Grant>)

  datatype World = World(history: seq<StoreOp>, log: seq<VendorCall>, slept: seq<real>, readings: nat)

  datatype State = State(ctx: Ctx, world: World)

  function FreshCtx(candidates: seq<Provider>): Ctx {
    Ctx(candidates, [], [], None, None, None, [], [], [])
  }

  // ---- one candidate --------------------------------------------------------------------

  predicate IsRetryable(c: ErrorClass) { c == Transient }

  predicate IsFallbackWorthy(c: ErrorClass) { c == RateLimit || c == Quota }

  datatype Move = Retry | Leave | Halt

  /** What an error asks for: the same credential again, the next one (or candidate), or an abort. */
  function NextMove(config: Config, error: Reply, attempt: nat, moreKeys: bool, moreProviders: bool): Move
    requires error.VendorError?
  {
    var c := error.class_;
    if IsRetryable(c) && attempt < config.maxAttempts then Retry
    else if c == RateLimit && !moreKeys && !moreProviders && attempt < config.rateLimitMaxAttempts
            && (error.hint == None || error.hint.value <= config.rateLimitMaxWait) then Retry
    else if IsFallbackWorthy(c) || IsRetryable(c) then Leave
    else if c == Auth && moreKeys then Leave
    else Halt
  }

  function Pow2(n: nat): real { if n == 0 then 1.0 else 2.0 * Pow2(n - 1) }

  function Min(a: real, b: real): real { if a <= b then a else b }

  function BackoffDelay(config: Config, attempt: nat, hint: Option<real>): real
    requires attempt >= 1
  {
    match hint
    case Some(h) => Min(h + 1.0, config.rateLimitMaxWait)
    case None => Min(config.backoffBase * Pow2(attempt - 1), config.backoffCap)
  }

  datatype Site = Site(provider: Provider, left: nat, pool: seq<Option<Credential>>)

  datatype End =
    | Won(response: Response)
    | GaveUp
    | Halted(class_: ErrorClass, detail: string)
    | Threw(detail: string)

  datatype Trail = Trail(records: seq<Record>, end: End) {
    function After(r: Record): Trail { Trail([r] + records, end) }
  }

  function RecordAt(site: Site, k: nat, a: nat, reply: Reply, wait: Option<real>): Record {
    Record(site.provider, site.left, site.pool, k, a, reply, wait)
  }

  /** What follows one call: the same credential again, the next one, or the end of the candidate. */
  datatype After = Again | NextKey | Done(end: End)

  /** That call if the vendor reported an error. */
  function FailedCall(config: Config, site: Site, k: nat, a: nat, reply: Reply): (Record, After)
    requires a >= 1 && reply.VendorError?
  {
    var moreKeys := k + 1 < |site.pool|;
    var r := RecordAt(site, k, a, reply, None);
    match NextMove(config, reply, a, moreKeys, site.left > 1)
    case Retry => (r.(wait := Some(BackoffDelay(config, a, reply.hint))), Again)
    case Leave => (r, if moreKeys then NextKey else Done(GaveUp))
    case Halt => (r, Done(Halted(reply.class_, reply.detail)))
  }

  /** The call made with the k-th credential on its a-th attempt, the n-th reply being next. */
  function OneCall(env: Env, n: nat, site: Site, k: nat, a: nat): (Record, After)
    requires a >= 1
  {
    var reply := env.reply(n);
    var r := RecordAt(site, k, a, reply, None);
    match reply
    case Answer(response) => (r, Done(Won(response)))
    case LibraryError(detail) => (r, Done(Threw(detail)))
    case VendorError(_, _, _) => FailedCall(env.config, site, k, a, reply)
  }

  /** The calls made on one candidate from its k-th credential's a-th attempt on. */
  function Try(env: Env, n: nat, site: Site, k: nat, a: nat): Trail
    requires a >= 1
    decreases |site.pool| - k, env.config.maxAttempts + 1 - a
  {
    if k >= |site.pool| then Trail([], GaveUp)
    else if a > env.config.maxAttempts then Try(env, n, site, k + 1, 1)
    else
      var (r, after) := OneCall(env, n, site, k, a);
      match after
      case Again => Try(env, n + 1, site, k, a + 1).After(r)
      case NextKey => Try(env, n + 1, site, k + 1, 1).After(r)
      case Done(end) => Trail([r], end)
  }

  /** The candidate's calls so far, resumed at its k-th credential's a-th attempt, make up the whole. */
  ghost predicate Resumes(whole: Trail, done: seq<Record>, env: Env, n: nat, site: Site, k: nat, a: nat)
    requires a >= 1
  {
    var rest := Try(env, n, site, k, a);
    whole.records == done + rest.records && whole.end == rest.end
  }

  lemma ResumesCall(whole: Trail, done: seq<Record>, env: Env, n: nat, site: Site, k: nat, a: nat)
    requires k < |site.pool| && 1 <= a <= env.config.maxAttempts && Resumes(whole, done, env, n, site, k, a)
    ensures var (r, after) := OneCall(env, n, site, k, a);
            match after
            case Again => Resumes(whole, done + [r], env, n + 1, site, k, a + 1)
            case NextKey => Resumes(whole, done + [r], env, n + 1, site, k + 1, 1)
            case Done(end) => whole == Trail(done + [r], end)
  {}

  lemma ResumesKey(whole: Trail, done: seq<Record>, env: Env, n: nat, site: Site, k: nat)
    requires k < |site.pool|
    ensures Resumes(whole, done, env, n, site, k, env.config.maxAttempts + 1)
            ==> Resumes(whole, done, env, n, site, k + 1, 1)
  {}

  lemma ResumesNever(whole: Trail, done: seq<Record>, env: Env, n: nat, site: Site)
    requires Resumes(whole, done, env, n, site, |site.pool|, 1)
    ensures whole == Trail(done, GaveUp)
  {}

  function RefOf(credential: Option<Credential>): Option<string> {
    if credential == None then None else Some(credential.value.secretRef)
  }

  function KeyOf(credential: Option<Credential>): Option<string> {
    if credential == None then None else credential.value.rawKey
  }

  function CredentialOf(r: Record): Option<Credential> {
    if r.key < |r.pool| then r.pool[r.key] else None
  }

  /** The audit entry of a call; a library error propagates unrecorded. */
  function Entry(r: Record): seq<AttemptRecord> {
    match r.reply
    case Answer(_) => [AttemptRecord(r.provider.name, None, None, RefOf(CredentialOf(r)))]
    case VendorError(c, detail, _) => [AttemptRecord(r.provider.name, Some(c), Some(detail), RefOf(CredentialOf(r)))]
    case LibraryError(_) => []
  }

  function Entries(records: seq<Record>): seq<AttemptRecord> {
    if |records| == 0 then [] else Entries(records[..|records| - 1]) + Entry(records[|records| - 1])
  }

  function Call(request: Request, r: Record): VendorCall { VendorCall(r.provider, KeyOf(CredentialOf(r)), request) }

  function Calls(request: Request, records: seq<Record>): seq<VendorCall> {
    seq(|records|, i requires 0 <= i < |records| => Call(request, records[i]))
  }

  function Wait(r: Record): seq<real> { if r.wait == None then [] else [r.wait.value] }

  function Waits(records: seq<Record>): seq<real> {
    if |records| == 0 then []
    else Waits(records[..|records| - 1]) + Wait(records[|records| - 1])
  }

  /** The credentials tried for a candidate; none resolved means one call without an override. */
  function PoolOf(credentials: seq<Credential>): seq<Option<Credential>> {
    if credentials == [] then [None] else seq(|credentials|, i requires 0 <= i < |credentials| => Some(credentials[i]))
  }

  // ---- the links ------------------------------------------------------------------------

  function HandlePerimeter(job: Job, s: State): (Verdict, State) {
    if job.env.admits(job.request, job.tenant) then (Continue, s) else (Raise(PerimeterViolation), s)
  }

  function HandleCredential(job: Job, s: State): (Verdict, State) {
    if s.ctx.candidates == [] then (Fallback, s)
    else
      match job.env.resolve(job.tenant, s.ctx.candidates[0])
      case None => (Raise(NoCredential(s.ctx.candidates[0].name)), s)
      case Some(credentials) => (Continue, s.(ctx := s.ctx.(credentials := credentials)))
  }

  function AskFor(job: Job, s: State): Ask
    requires s.ctx.candidates != []
  {
    var provider := s.ctx.candidates[0];
    Ask(job.tenant.id, job.tenant.quota, job.env.estimate(provider, job.request), provider.name,
        job.env.clock(s.world.readings))
  }

  function Escalate(tenant: Tenant, provider: string, rateWindow: bool): Handoff {
    Handoff(provider, if rateWindow then 429 else 402,
            if tenant.isZeroSetup then "Free usage limit reached. Add your own API key to continue."
            else "Quota exceeded. Add or upgrade your API key to continue.")
  }

  predicate FreeRemains(candidates: seq<Provider>) {
    exists i :: 1 <= i < |candidates| && candidates[i].tier == FREE
  }

  function OnDeny(job: Job, candidates: seq<Provider>, decision: QuotaDecision): Verdict
    requires candidates != []
  {
    if job.tenant.isZeroSetup && FreeRemains(candidates) then Fallback
    else
      var rateWindow := decision.breached == Some(RequestsPerMin) || decision.breached == Some(TokensPerMin);
      Raise(QuotaExceeded(Escalate(job.tenant, candidates[0].name, rateWindow)))
  }

  /** The reservation attempted for the current candidate: the verdict and what it does to the world. */
  function Reserved(job: Job, s: State): (QuotaDecision, World)
    requires s.ctx.candidates != []
  {
    var ask, counts := AskFor(job, s), Replay(s.world.history);
    (Decide(counts, ask),
     s.world.(history := s.world.history + ReserveOps(counts, ask), readings := s.world.readings + 1))
  }

  function Granted(ctx: Ctx, decision: QuotaDecision): Ctx {
    ctx.(reservation := Some(decision),
         warnings := if decision.outcome == SoftLimit then ctx.warnings + [decision.breached] else ctx.warnings,
         grants := ctx.grants + [Grant(|ctx.candidates|, decision.reserved)])
  }

  function HandleQuota(job: Job, s: State): (Verdict, State) {
    if s.ctx.candidates == [] then (Fallback, s)
    else
      var (decision, world) := Reserved(job, s);
      if decision.outcome == Deny then (OnDeny(job, s.ctx.candidates, decision), s.(world := world))
      else (Continue, State(Granted(s.ctx, decision), world))
  }

  /** Reconcile the reservation, if any, with what the response cost. */
  function Settle(job: Job, s: State, response: Response): State {
    if s.ctx.reservation == None then s
    else
      var ops := CommitOps(job.tenant.id, s.ctx.reservation.value.reserved, response.usage.Total(),
                           job.env.clock(s.world.readings));
      s.(world := s.world.(history := s.world.history + ops, readings := s.world.readings + 1))
  }

  function SiteOf(s: State): Site
    requires s.ctx.candidates != []
  {
    Site(s.ctx.candidates[0], |s.ctx.candidates|, PoolOf(s.ctx.credentials))
  }

  /** The state after some calls: attempts, vendor log, waits and trail grow together. */
  function Called(job: Job, s: State, records: seq<Record>): State {
    State(s.ctx.(attempts := s.ctx.attempts + Entries(records), trail := s.ctx.trail + records),
          s.world.(log := s.world.log + Calls(job.request, records), slept := s.world.slept + Waits(records)))
  }

  lemma CalledNone(job: Job, s: State)
    ensures Called(job, s, []) == s
  {
    assert Calls(job.request, []) == [];
  }

  /** The state after one more call. */
  function Extend(job: Job, s: State, r: Record): State {
    State(s.ctx.(attempts := s.ctx.attempts + Entry(r), trail := s.ctx.trail + [r]),
          s.world.(log := s.world.log + [Call(job.request, r)], slept := s.world.slept + Wait(r)))
  }

  lemma CalledSnoc(job: Job, s: State, done: seq<Record>, r: Record)
    ensures Called(job, s, done + [r]) == Extend(job, Called(job, s, done), r)
  {
    assert (done + [r])[..|done|] == done;
    assert Calls(job.request, done + [r]) == Calls(job.request, done) + [Call(job.request, r)];
  }

  /** What the end of a candidate leaves in the context and, on success, in the quota store. */
  function Conclude(job: Job, s: State, end: End): State
    requires s.ctx.candidates != []
  {
    match end
    case Won(response) => Settle(job, s.(ctx := s.ctx.(response := Some(response))), response)
    case Halted(c, detail) => s.(ctx := s.ctx.(error := Some(ProviderRejected(s.ctx.candidates[0].name, c, detail))))
    case GaveUp => s
    case Threw(_) => s
  }

  function VerdictOf(end: End): Verdict {
    match end
    case Won(_) => Success
    case GaveUp => Fallback
    case Halted(_, _) => Stop
    case Threw(detail) => Raise(LibraryFailure(detail))
  }

  function HandleInvocation(job: Job, s: State): (r: (Verdict, State))
    ensures r.0.Success? ==> r.1.ctx.response.Some?
  {
    if s.ctx.candidates == [] then (Fallback, s)
    else
      var t := Try(job.env, |s.world.log|, SiteOf(s), 0, 1);
      (VerdictOf(t.end), Conclude(job, Called(job, s, t.records), t.end))
  }

  function Handle(job: Job, h: HandlerKind, s: State): (r: (Verdict, State))
    ensures r.0.Success? ==> r.1.ctx.response.Some?
    ensures r.1.ctx.candidates == s.ctx.candidates
  {
    match h
    case Perimeter => HandlePerimeter(job, s)
    case CredentialLink => HandleCredential(job, s)
    case QuotaLink => HandleQuota(job, s)
    case Invocation => HandleInvocation(job, s)
  }

  // ---- the chain ------------------------------------------------------------------------

  /** One pass over the links, up to the first that does not continue. */
  function Walk(job: Job, handlers: seq<HandlerKind>, s: State): (r: (Verdict, State))
    ensures r.0.Success? ==> r.1.ctx.response.Some?
    ensures r.1.ctx.candidates == s.ctx.candidates
  {
    if |handlers| == 0 then (Continue, s)
    else
      var (verdict, s') := Handle(job, handlers[0], s);
      if verdict.Continue? then Walk(job, handlers[1..], s') else (verdict, s')
  }

  datatype Outcome = Returned(response: Response) | Raised(error: Error)

  function DropCandidate(s: State): State
    requires s.ctx.candidates != []
  {
    s.(ctx := s.ctx.(candidates := s.ctx.candidates[1..], credentials := [], reservation := None))
  }

  function Rounds(job: Job, handlers: seq<HandlerKind>, s: State): (Outcome, State)
    requires s.ctx.candidates != []
    decreases |s.ctx.candidates|
  {
    var (verdict, s') := Walk(job, handlers, s);
    match verdict
    case Success => (Returned(s'.ctx.response.value), s')
    case Stop => (Raised(if s'.ctx.error.Some? then s'.ctx.error.value else ChainStopped), s')
    case Raise(error) => (Raised(error), s')
    case Continue => (Raised(NO_RESPONSE), s')
    case Fallback =>
      var next := DropCandidate(s');
      if next.ctx.candidates == [] then (Raised(EXHAUSTED), next) else Rounds(job, handlers, next)
  }

  function Execute(job: Job, handlers: seq<HandlerKind>, s: State): (Outcome, State) {
    if s.ctx.candidates == [] then (Raised(UNROUTED), s) else Rounds(job, handlers, s)
  }

  function SiteFor(job: Job, provider: Provider, left: nat): Site
    requires job.env.resolve(job.tenant, provider).Some?
  {
    Site(provider, left, PoolOf(job.env.resolve(job.tenant, provider).value))
  }

  function SiteHere(job: Job, s: State): Site
    requires s.ctx.candidates != [] && job.env.resolve(job.tenant, s.ctx.candidates[0]).Some?
  {
    SiteFor(job, s.ctx.candidates[0], |s.ctx.candidates|)
  }

  /** The calls a round would make on the current candidate. */
  function TryHere(job: Job, s: State): Trail
    requires s.ctx.candidates != [] && job.env.resolve(job.tenant, s.ctx.candidates[0]).Some?
  {
    Try(job.env, |s.world.log|, SiteHere(job, s), 0, 1)
  }

  /** A round that never reached the provider: perimeter, credentials or quota turned it away. */
  ghost predicate TurnedAway(s: State, v: Verdict, s': State) {
    && (v.Fallback? || (v.Raise? && (v.error.PerimeterViolation? || v.error.NoCredential? || v.error.QuotaExceeded?)))
    && s'.ctx.candidates == s.ctx.candidates
    && s'.ctx.trail == s.ctx.trail && s'.ctx.attempts == s.ctx.attempts
    && s'.world.log == s.world.log && s'.world.slept == s.world.slept
  }

  /** A round that called the provider, as far as calls and outcome go. */
  ghost predicate CalledUpon(job: Job, s: State, t: Trail, v: Verdict, s': State) {
    && s'.ctx.candidates == s.ctx.candidates
    && s'.ctx.trail == s.ctx.trail + t.records
    && s'.ctx.attempts == s.ctx.attempts + Entries(t.records)
    && s'.world.log == s.world.log + Calls(job.request, t.records)
    && s'.world.slept == s.world.slept + Waits(t.records)
    && v == VerdictOf(t.end)
    && (t.end.Won? ==> s'.ctx.response == Some(t.end.response))
    && s.ctx.candidates != []
    && (t.end.Halted? ==> s'.ctx.error == Some(ProviderRejected(s.ctx.candidates[0].name, t.end.class_, t.end.detail)))
  }

  ghost predicate Shaped(job: Job, s: State, v: Verdict, s': State)
    requires s.ctx.candidates != []
  {
    || TurnedAway(s, v, s')
    || (job.env.resolve(job.tenant, s.ctx.candidates[0]).Some? && CalledUpon(job, s, TryHere(job, s), v, s'))
  }

  /** Perimeter, credentials and quota let the current candidate be called. */
  predicate LetThrough(job: Job, s: State)
    requires s.ctx.candidates != []
  {
    && job.env.admits(job.request, job.tenant)
    && job.env.resolve(job.tenant, s.ctx.candidates[0]).Some?
    && !Denied(Replay(s.world.history), AskFor(job, s))
  }

  /** The state in which the candidate is then called. */
  function Prepared(job: Job, s: State): State
    requires s.ctx.candidates != [] && job.env.resolve(job.tenant, s.ctx.candidates[0]).Some?
  {
    var (decision, world) := Reserved(job, s);
    var credentials := job.env.resolve(job.tenant, s.ctx.candidates[0]).value;
    State(Granted(s.ctx.(credentials := credentials), decision), world)
  }

  function WithCredentials(s: State, credentials: seq<Credential>): State {
    s.(ctx := s.ctx.(credentials := credentials))
  }

  /** Perimeter and credentials passed, the walk goes on to the quota. */
  lemma {:induction false} WalkToQuota(job: Job, s: State)
    requires s.ctx.candidates != [] && job.env.admits(job.request, job.tenant)
    requires job.env.resolve(job.tenant, s.ctx.candidates[0]).Some?
    ensures Walk(job, GATEWAY, s)
            == Walk(job, [QuotaLink, Invocation],
                    WithCredentials(s, job.env.resolve(job.tenant, s.ctx.candidates[0]).value))
  {
    assert GATEWAY[1..] == [CredentialLink, QuotaLink, Invocation];
    assert [CredentialLink, QuotaLink, Invocation][1..] == [QuotaLink, Invocation];
  }

  lemma {:induction false} QuotaPasses(job: Job, s: State)
    requires HandleQuota(job, s).0.Continue?
    ensures Walk(job, [QuotaLink, Invocation], s) == HandleInvocation(job, HandleQuota(job, s).1)
  {
    assert [QuotaLink, Invocation][1..] == [Invocation] && [Invocation][1..] == [];
    assert HandleInvocation(job, HandleQuota(job, s).1).0 != Continue;
  }

  lemma {:induction false} LetThroughRound(job: Job, s: State)
    requires s.ctx.candidates != [] && LetThrough(job, s)
    ensures Walk(job, GATEWAY, s) == HandleInvocation(job, Prepared(job, s))
  {
    WalkToQuota(job, s);
    QuotaGranted(job, s);
    QuotaPasses(job, WithCredentials(s, job.env.resolve(job.tenant, s.ctx.candidates[0]).value));
  }

  lemma QuotaGranted(job: Job, s: State)
    requires s.ctx.candidates != [] && LetThrough(job, s)
    ensures var credentials := job.env.resolve(job.tenant, s.ctx.candidates[0]).value;
            HandleQuota(job, WithCredentials(s, credentials)) == (Continue, Prepared(job, s))
  {
    var s2 := WithCredentials(s, job.env.resolve(job.tenant, s.ctx.candidates[0]).value);
    assert AskFor(job, s2) == AskFor(job, s);
    assert Reserved(job, s2) == Reserved(job, s) && Reserved(job, s).0.outcome != Deny;
  }

  /** A round held back leaves no trace but a reading of the clock; it moves on only for want of quota. */
  ghost predicate HeldBack(job: Job, s: State, v: Verdict, s': State)
    requires s.ctx.candidates != []
  {
    && TurnedAway(s, v, s')
    && s'.ctx.grants == s.ctx.grants && s'.world.history == s.world.history
    && s.world.readings <= s'.world.readings <= s.world.readings + 1
    && (v == Raise(PerimeterViolation) <==> !job.env.admits(job.request, job.tenant))
    && (v.Fallback? ==> job.tenant.isZeroSetup && FreeRemains(s.ctx.candidates)
                        && Denied(Replay(s.world.history), AskFor(job, s))
                        && s'.world.readings == s.world.readings + 1)
  }

  lemma {:induction false} HeldBackRound(job: Job, s: State)
    requires s.ctx.candidates != [] && !LetThrough(job, s)
    ensures var (v, s') := Walk(job, GATEWAY, s); HeldBack(job, s, v, s')
  {
    if job.env.admits(job.request, job.tenant) && job.env.resolve(job.tenant, s.ctx.candidates[0]).Some? {
      DeniedHoldsBack(job, s);
    } else {
      UnresolvedRound(job, s);
    }
  }

  lemma {:induction false} DeniedHoldsBack(job: Job, s: State)
    requires s.ctx.candidates != [] && job.env.admits(job.request, job.tenant)
    requires job.env.resolve(job.tenant, s.ctx.candidates[0]).Some?
    requires Denied(Replay(s.world.history), AskFor(job, s))
    ensures var (v, s') := Walk(job, GATEWAY, s); HeldBack(job, s, v, s')
  {
    DeniedRound(job, s);
    var credentials := job.env.resolve(job.tenant, s.ctx.candidates[0]).value;
    DenialHoldsBack(job, s, Decide(Replay(s.world.history), AskFor(job, s)), credentials);
  }

  lemma DenialHoldsBack(job: Job, s: State, decision: QuotaDecision, credentials: seq<Credential>)
    requires s.ctx.candidates != [] && job.env.admits(job.request, job.tenant)
    requires Denied(Replay(s.world.history), AskFor(job, s))
    ensures HeldBack(job, s, OnDeny(job, s.ctx.candidates, decision),
                     State(s.ctx.(credentials := credentials), s.world.(readings := s.world.readings + 1)))
  {}

  /** A round that perimeter or credentials end. */
  lemma {:induction false} UnresolvedRound(job: Job, s: State)
    requires s.ctx.candidates != []
    requires !job.env.admits(job.request, job.tenant) || job.env.resolve(job.tenant, s.ctx.candidates[0]).None?
    ensures Walk(job, GATEWAY, s)
            == (Raise(if job.env.admits(job.request, job.tenant) then NoCredential(s.ctx.candidates[0].name)
                      else PerimeterViolation), s)
  {
    assert GATEWAY[1..] == [CredentialLink, QuotaLink, Invocation];
  }

  lemma QuotaDenied(job: Job, s: State, credentials: seq<Credential>)
    requires s.ctx.candidates != [] && Denied(Replay(s.world.history), AskFor(job, s))
    ensures HandleQuota(job, WithCredentials(s, credentials))
            == (OnDeny(job, s.ctx.candidates, Decide(Replay(s.world.history), AskFor(job, s))),
                State(s.ctx.(credentials := credentials), s.world.(readings := s.world.readings + 1)))
  {
    var s2 := WithCredentials(s, credentials);
    NothingReserved(job, s);
    assert Reserved(job, s2) == Reserved(job, s);
    assert HandleQuota(job, s2)
        == (OnDeny(job, s.ctx.candidates, Reserved(job, s).0), s2.(world := Reserved(job, s).1));
  }

  lemma NothingReserved(job: Job, s: State)
    requires s.ctx.candidates != [] && Denied(Replay(s.world.history), AskFor(job, s))
    ensures var (decision, world) := Reserved(job, s);
            && decision.outcome == Deny && decision == Decide(Replay(s.world.history), AskFor(job, s))
            && world == s.world.(readings := s.world.readings + 1)
  {
    assert s.world.history + ReserveOps(Replay(s.world.history), AskFor(job, s)) == s.world.history;
  }

  lemma {:induction false} QuotaStops(job: Job, s: State)
    requires !HandleQuota(job, s).0.Continue?
    ensures Walk(job, [QuotaLink, Invocation], s) == HandleQuota(job, s)
  {}

  /** A round whose reservation is denied, in detail. */
  lemma {:induction false} DeniedRound(job: Job, s: State)
    requires s.ctx.candidates != [] && job.env.admits(job.request, job.tenant)
    requires job.env.resolve(job.tenant, s.ctx.candidates[0]).Some?
    requires Denied(Replay(s.world.history), AskFor(job, s))
    ensures var credentials := job.env.resolve(job.tenant, s.ctx.candidates[0]).value;
            Walk(job, GATEWAY, s)
            == (OnDeny(job, s.ctx.candidates, Decide(Replay(s.world.history), AskFor(job, s))),
                State(s.ctx.(credentials := credentials), s.world.(readings := s.world.readings + 1)))
  {
    var credentials := job.env.resolve(job.tenant, s.ctx.candidates[0]).value;
    WalkToQuota(job, s);
    QuotaDenied(job, s, credentials);
    QuotaStops(job, WithCredentials(s, credentials));
  }

  lemma {:induction false} RoundShape(job: Job, s: State)
    requires s.ctx.candidates != []
    ensures var (v, s') := Walk(job, GATEWAY, s); Shaped(job, s, v, s')
  {
    if LetThrough(job, s) {
      LetThroughRound(job, s);
      InvocationShape(job, Prepared(job, s));
    } else {
      HeldBackRound(job, s);
    }
  }

  lemma InvocationShape(job: Job, s: State)
    requires s.ctx.candidates != []
    ensures var (v, s') := HandleInvocation(job, s);
            CalledUpon(job, s, Try(job.env, |s.world.log|, SiteOf(s), 0, 1), v, s')
            && s'.ctx.grants == s.ctx.grants
  {}
}
