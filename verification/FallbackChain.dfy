/** The handlers and the chain as the program runs them: objects that mutate one invocation context,
    the quota store and the outside world, each method proved against the functions of Fallback. */
module FallbackChain {
  import opened Vocabulary
  import opened QuotaStore
  import opened QuotaManager
  import opened Credentials
  import opened Fallback

  /** The outside world: vendors answer calls in turn, the clock yields readings in turn. */
  class Host {
    const env: Env
    var calls: nat
    var readings: nat
    ghost var log: seq<VendorCall>
    ghost var slept: seq<real>

    ghost predicate Valid()
      reads this
    {
      calls == |log|
    }

    constructor (env: Env)
      ensures this.env == env && log == [] && slept == [] && readings == 0 && Valid()
    {
      this.env, calls, readings, log, slept := env, 0, 0, [], [];
    }

    method Complete(provider: Provider, request: Request, key: Option<string>) returns (reply: Reply)
      requires Valid()
      modifies `calls, `log
      ensures Valid() && reply == env.reply(|old(log)|)
      ensures log == old(log) + [VendorCall(provider, key, request)]
    {
      reply := env.reply(calls);
      calls := calls + 1;
      log := log + [VendorCall(provider, key, request)];
    }

    method Now() returns (now: nat)
      modifies `readings
      ensures now == env.clock(old(readings)) && readings == old(readings) + 1
    {
      now := env.clock(readings);
      readings := readings + 1;
    }

    method Sleep(seconds: real)
      modifies `slept
      ensures slept == old(slept) + [seconds]
    {
      slept := slept + [seconds];
    }
  }

  class InvocationContext {
    const request: Request
    const tenant: Tenant
    var candidates: seq<Provider>
    var attempts: seq<AttemptRecord>
    var credentials: seq<Credential>
    var reservation: Option<QuotaDecision>
    var response: Option<Response>
    var error: Option<Error>
    var warnings: seq<Option<Window>>
    ghost var trail: seq<Record>
    ghost var grants: seq<Grant>

    constructor (request: Request, tenant: Tenant, candidates: seq<Provider>)
      ensures this.request == request && this.tenant == tenant && View() == FreshCtx(candidates)
    {
      this.request, this.tenant, this.candidates := request, tenant, candidates;
      attempts, credentials, warnings, trail, grants := [], [], [], [], [];
      reservation, response, error := None, None, None;
    }

    ghost function View(): Ctx
      reads this
    {
      Ctx(candidates, attempts, credentials, reservation, response, error, warnings, trail, grants)
    }

    method ResetCandidateState()
      modifies `credentials, `reservation
      ensures credentials == [] && reservation == None
    {
      credentials, reservation := [], None;
    }
  }

  /** The candidate's calls are made and its end is drawn. */
  ghost predicate Concluded(job: Job, before: State, whole: Trail, end: End, s: State)
    requires before.ctx.candidates != []
  {
    whole.end == end && s == Conclude(job, Called(job, before, whole.records), end)
  }

  /** What the next call does to the state and to what remains of the candidate. */
  lemma NextCall(job: Job, before: State, whole: Trail, done: seq<Record>, n: nat, site: Site, k: nat, a: nat)
    requires k < |site.pool| && 1 <= a <= job.env.config.maxAttempts && Resumes(whole, done, job.env, n, site, k, a)
    ensures var (r, after) := OneCall(job.env, n, site, k, a);
            && Extend(job, Called(job, before, done), r) == Called(job, before, done + [r])
            && match after
               case Again => Resumes(whole, done + [r], job.env, n + 1, site, k, a + 1)
               case NextKey => Resumes(whole, done + [r], job.env, n + 1, site, k + 1, 1)
               case Done(end) => whole == Trail(done + [r], end)
  {
    ResumesCall(whole, done, job.env, n, site, k, a);
    CalledSnoc(job, before, done, OneCall(job.env, n, site, k, a).0);
  }

  lemma AnswerConcludes(job: Job, before: State, r: Record, response: Response)
    requires before.ctx.candidates != [] && r.reply == Answer(response) && r.wait == None
    ensures Conclude(job, Extend(job, before, r), Won(response))
            == Settle(job, State(before.ctx.(trail := before.ctx.trail + [r],
                                             attempts := before.ctx.attempts + Entry(r),
                                             response := Some(response)),
                                 before.world.(log := before.world.log + [Call(job.request, r)])), response)
  {
    assert before.world.slept + Wait(r) == before.world.slept;
  }

  class FallbackChain {
    const handlers: seq<HandlerKind>
    const host: Host
    const manager: QuotaManager

    constructor (handlers: seq<HandlerKind>, host: Host, manager: QuotaManager)
      ensures this.handlers == handlers && this.host == host && this.manager == manager
    {
      this.handlers, this.host, this.manager := handlers, host, manager;
    }

    ghost predicate Valid()
      reads host, manager.store
    {
      host.Valid() && manager.store.Valid()
    }

    ghost function WorldView(): World
      reads host, manager.store
    {
      World(manager.store.history, host.log, host.slept, host.readings)
    }

    ghost function Snapshot(context: InvocationContext): State
      reads context, host, manager.store
    {
      State(context.View(), WorldView())
    }

    ghost function JobOf(context: InvocationContext): Job {
      Job(host.env, context.request, context.tenant)
    }

    method CheckPerimeter(context: InvocationContext) returns (verdict: Verdict)
      ensures (verdict, Snapshot(context)) == HandlePerimeter(JobOf(context), Snapshot(context))
    {
      verdict := if host.env.admits(context.request, context.tenant) then Continue else Raise(PerimeterViolation);
    }

    method AttachCredentials(context: InvocationContext) returns (verdict: Verdict)
      modifies context
      ensures (verdict, Snapshot(context)) == HandleCredential(JobOf(context), old(Snapshot(context)))
    {
      if context.candidates == [] { return Fallback; }
      var provider := context.candidates[0];
      match host.env.resolve(context.tenant, provider) {
        case None => return Raise(NoCredential(provider.name));
        case Some(credentials) => context.credentials := credentials;
      }
      return Continue;
    }

    method ReserveQuota(context: InvocationContext) returns (verdict: Verdict)
      requires Valid()
      modifies context, host, manager.store
      ensures Valid()
      ensures (verdict, Snapshot(context)) == HandleQuota(JobOf(context), old(Snapshot(context)))
    {
      if context.candidates == [] { return Fallback; }
      ghost var before := Snapshot(context);
      var provider := context.candidates[0];
      var decision := AskManager(context, provider);
      if decision.outcome == Deny {
        verdict := OnDenied(context, provider, decision);
        return;
      }
      if decision.outcome == SoftLimit {
        context.warnings := context.warnings + [decision.breached];
      }
      context.reservation := Some(decision);
      context.grants := context.grants + [Grant(|context.candidates|, decision.reserved)];
      assert context.View() == Granted(before.ctx, decision);
      return Continue;
    }

    method AskManager(context: InvocationContext, provider: Provider) returns (decision: QuotaDecision)
      requires Valid() && context.candidates != [] && provider == context.candidates[0]
      modifies host`readings, manager.store
      ensures Valid()
      ensures (decision, WorldView()) == Reserved(JobOf(context), old(Snapshot(context)))
    {
      var estimate := host.env.estimate(provider, context.request);
      var now := host.Now();
      decision := manager.Reserve(Ask(context.tenant.id, context.tenant.quota, estimate, provider.name, now));
    }

    method OnDenied(context: InvocationContext, provider: Provider, decision: QuotaDecision) returns (verdict: Verdict)
      requires context.candidates != [] && provider == context.candidates[0]
      ensures verdict == OnDeny(JobOf(context), context.candidates, decision)
    {
      var cheaperFreeRemaining := false;
      for i := 1 to |context.candidates|
        invariant cheaperFreeRemaining <==> FreeRemains(context.candidates[..i])
      {
        if context.candidates[i].tier == FREE { cheaperFreeRemaining := true; }
        assert context.candidates[..i + 1] == context.candidates[..i] + [context.candidates[i]];
        assert context.candidates[i].tier == FREE ==> FreeRemains(context.candidates[..i + 1]);
        assert FreeRemains(context.candidates[..i]) ==> FreeRemains(context.candidates[..i + 1]) by {
          if FreeRemains(context.candidates[..i]) {
            var j :| 1 <= j < i && context.candidates[..i][j].tier == FREE;
            assert context.candidates[..i + 1][j].tier == FREE;
          }
        }
      }
      assert context.candidates[..|context.candidates|] == context.candidates;
      if context.tenant.isZeroSetup && cheaperFreeRemaining { return Fallback; }
      var rateWindow := decision.breached == Some(RequestsPerMin) || decision.breached == Some(TokensPerMin);
      return Raise(QuotaExceeded(Escalate(context.tenant, provider.name, rateWindow)));
    }

    /** Call the current candidate: rotate its credentials, retry, wait out a last-resort rate limit. */
    method Invoke(context: InvocationContext) returns (verdict: Verdict)
      requires Valid()
      modifies context, host, manager.store
      ensures Valid()
      ensures (verdict, Snapshot(context)) == HandleInvocation(JobOf(context), old(Snapshot(context)))
    {
      if context.candidates == [] { return Fallback; }
      ghost var before, n, done := Snapshot(context), |host.log|, [];
      var site := Site(context.candidates[0], |context.candidates|, PoolOf(context.credentials));
      ghost var whole := Try(host.env, n, site, 0, 1);
      CalledNone(JobOf(context), before);
      for index := 0 to |site.pool|
        invariant Valid() && Snapshot(context) == Called(JobOf(context), before, done)
        invariant Resumes(whole, done, host.env, |host.log|, site, index, 1)
      {
        var end;
        end, done := InvokeWith(context, site, index, before, whole, done);
        if end.Some? { return VerdictOf(end.value); }
      }
      ResumesNever(whole, done, host.env, |host.log|, site);
      return Fallback;
    }

    /** Up to `maxAttempts` calls with one credential; None when the next one is to be tried. */
    method InvokeWith(context: InvocationContext, site: Site, index: nat,
                      ghost before: State, ghost whole: Trail, ghost done: seq<Record>)
      returns (end: Option<End>, ghost all: seq<Record>)
      requires Valid() && context.candidates != [] && site.provider == context.candidates[0] && index < |site.pool|
      requires before.ctx.candidates != []
      requires Snapshot(context) == Called(JobOf(context), before, done)
      requires Resumes(whole, done, host.env, |host.log|, site, index, 1)
      modifies context, host, manager.store
      ensures Valid()
      ensures if end.Some? then Concluded(JobOf(context), before, whole, end.value, Snapshot(context))
              else Snapshot(context) == Called(JobOf(context), before, all)
                   && Resumes(whole, all, host.env, |host.log|, site, index + 1, 1)
    {
      all := done;
      for attempt := 1 to host.env.config.maxAttempts + 1
        invariant Valid() && Snapshot(context) == Called(JobOf(context), before, all)
        invariant Resumes(whole, all, host.env, |host.log|, site, index, attempt)
      {
        var after;
        after, all := Attempt(context, site, index, attempt, before, whole, all);
        match after {
          case Again =>
          case NextKey => return None, all;
          case Done(conclusion) => return Some(conclusion), all;
        }
      }
      ResumesKey(whole, all, host.env, |host.log|, site, index);
      return None, all;
    }

    /** One call, as it advances the candidate's trail. */
    method Attempt(context: InvocationContext, site: Site, index: nat, attempt: nat,
                   ghost before: State, ghost whole: Trail, ghost done: seq<Record>)
      returns (after: After, ghost all: seq<Record>)
      requires Valid() && context.candidates != [] && site.provider == context.candidates[0] && index < |site.pool|
      requires before.ctx.candidates != [] && 1 <= attempt <= host.env.config.maxAttempts
      requires Snapshot(context) == Called(JobOf(context), before, done)
      requires Resumes(whole, done, host.env, |host.log|, site, index, attempt)
      modifies context, host, manager.store
      ensures Valid()
      ensures match after
              case Again => Snapshot(context) == Called(JobOf(context), before, all)
                            && Resumes(whole, all, host.env, |host.log|, site, index, attempt + 1)
              case NextKey => Snapshot(context) == Called(JobOf(context), before, all)
                              && Resumes(whole, all, host.env, |host.log|, site, index + 1, 1)
              case Done(end) => Concluded(JobOf(context), before, whole, end, Snapshot(context))
    {
      ghost var record;
      NextCall(JobOf(context), before, whole, done, |host.log|, site, index, attempt);
      after, record := CallOnce(context, site, index, attempt);
      all := done + [record];
    }

    /** One provider call and what is made of it. */
    method CallOnce(context: InvocationContext, site: Site, index: nat, attempt: nat)
      returns (after: After, ghost record: Record)
      requires Valid() && context.candidates != [] && site.provider == context.candidates[0]
      requires index < |site.pool| && attempt >= 1
      modifies context, host, manager.store
      ensures Valid()
      ensures (record, after) == OneCall(host.env, |old(host.log)|, site, index, attempt)
      ensures var called := Extend(JobOf(context), old(Snapshot(context)), record);
              Snapshot(context) == if after.Done? then Conclude(JobOf(context), called, after.end) else called
    {
      ghost var before := Snapshot(context);
      var credential := site.pool[index];
      var reply := host.Complete(site.provider, context.request, KeyOf(credential));
      record := RecordAt(site, index, attempt, reply, None);
      match reply {
        case Answer(response) =>
          after := Done(Won(response));
          context.trail := context.trail + [record];
          OnSuccess(context, site.provider, response, credential);
          AnswerConcludes(JobOf(context), before, record, response);
        case LibraryError(detail) =>
          after := Done(Threw(detail));
          context.trail := context.trail + [record];
        case VendorError(c, detail, hint) =>
          after, record := Recover(context, site, index, attempt, reply);
          assert WorldView() == Extend(JobOf(context), before, record).world;
      }
    }

    /** After a vendor error: pause and retry, move on, or abort. */
    method Recover(context: InvocationContext, site: Site, index: nat, attempt: nat, reply: Reply)
      returns (after: After, ghost record: Record)
      requires reply.VendorError? && index < |site.pool| && attempt >= 1
      modifies context`attempts, context`error, context`trail, host`slept
      ensures (record, after) == FailedCall(host.env.config, site, index, attempt, reply)
      ensures record.wait.Some? <==> after == Again
      ensures record.wait.Some? && reply.hint.Some? ==>
        var longest := host.env.config.rateLimitMaxWait;
        record.wait.value == if reply.hint.value + 1.0 <= longest then reply.hint.value + 1.0 else longest
      ensures context.trail == old(context.trail) + [record]
      ensures host.slept == old(host.slept) + Wait(record)
      ensures context.attempts == old(context.attempts)
              + [AttemptRecord(site.provider.name, Some(reply.class_), Some(reply.detail), RefOf(site.pool[index]))]
      ensures context.error
              == if after == Done(Halted(reply.class_, reply.detail))
                 then Some(ProviderRejected(site.provider.name, reply.class_, reply.detail))
                 else old(context.error)
    {
      var moreKeys := index < |site.pool| - 1;
      var move := OnError(context, site.provider, reply, attempt, site.pool[index], moreKeys, site.left > 1);
      record := RecordAt(site, index, attempt, reply, None);
      match move {
        case Retry =>
          var wait := BackoffDelay(host.env.config, attempt, reply.hint);
          host.Sleep(wait);
          record := record.(wait := Some(wait));
          after := Again;
        case Leave => after := if moreKeys then NextKey else Done(GaveUp);
        case Halt => after := Done(Halted(reply.class_, reply.detail));
      }
      context.trail := context.trail + [record];
    }

    method OnSuccess(context: InvocationContext, provider: Provider, response: Response, credential: Option<Credential>)
      requires Valid()
      modifies context`attempts, context`response, host`readings, manager.store
      ensures Valid()
      ensures Snapshot(context) == Settle(JobOf(context), old(Snapshot(context)).(ctx := old(context.View()).(
                attempts := old(context.attempts) + [AttemptRecord(provider.name, None, None, RefOf(credential))],
                response := Some(response))), response)
    {
      context.attempts := context.attempts + [AttemptRecord(provider.name, None, None, RefOf(credential))];
      context.response := Some(response);
      if context.reservation != None {
        var now := host.Now();
        manager.Commit(context.tenant.id, context.reservation.value, response.usage, now);
      }
    }

    method OnError(context: InvocationContext, provider: Provider, reply: Reply, attempt: nat,
                   credential: Option<Credential>, moreKeys: bool, moreProviders: bool) returns (move: Move)
      requires reply.VendorError?
      modifies context`attempts, context`error
      ensures move == NextMove(host.env.config, reply, attempt, moreKeys, moreProviders)
      ensures context.attempts == old(context.attempts)
              + [AttemptRecord(provider.name, Some(reply.class_), Some(reply.detail), RefOf(credential))]
      ensures context.error == if move.Halt? then Some(ProviderRejected(provider.name, reply.class_, reply.detail))
                               else old(context.error)
    {
      var c := reply.class_;
      context.attempts := context.attempts
        + [AttemptRecord(provider.name, Some(c), Some(reply.detail), RefOf(credential))];
      if IsRetryable(c) && attempt < host.env.config.maxAttempts { return Retry; }
      if c == RateLimit && !moreKeys && !moreProviders && attempt < host.env.config.rateLimitMaxAttempts {
        if reply.hint == None || reply.hint.value <= host.env.config.rateLimitMaxWait { return Retry; }
      }
      if IsFallbackWorthy(c) || IsRetryable(c) { return Leave; }
      if c == Auth && moreKeys { return Leave; }
      context.error := Some(ProviderRejected(provider.name, c, reply.detail));
      return Halt;
    }

    method Handle(kind: HandlerKind, context: InvocationContext) returns (verdict: Verdict)
      requires Valid()
      modifies context, host, manager.store
      ensures Valid()
      ensures (verdict, Snapshot(context)) == Fallback.Handle(JobOf(context), kind, old(Snapshot(context)))
    {
      match kind {
        case Perimeter => verdict := CheckPerimeter(context);
        case CredentialLink => verdict := AttachCredentials(context);
        case QuotaLink => verdict := ReserveQuota(context);
        case Invocation => verdict := Invoke(context);
      }
    }

    /** The links in order, up to the first that does not continue. */
    method Pass(context: InvocationContext) returns (verdict: Verdict)
      requires Valid()
      modifies context, host, manager.store
      ensures Valid()
      ensures (verdict, Snapshot(context)) == Walk(JobOf(context), handlers, old(Snapshot(context)))
    {
      ghost var job, top := JobOf(context), Snapshot(context);
      verdict := Continue;
      for i := 0 to |handlers|
        invariant Valid() && verdict == Continue
        invariant Walk(job, handlers[i..], Snapshot(context)) == Walk(job, handlers, top)
      {
        verdict := Handle(handlers[i], context);
        assert handlers[i..][1..] == handlers[i + 1..];
        if verdict != Continue { return; }
      }
    }

    /** Walk the links; restart with the next candidate on a fallback; stop on anything final. */
    method Execute(context: InvocationContext) returns (outcome: Outcome)
      requires Valid()
      modifies context, host, manager.store
      ensures Valid()
      ensures (outcome, Snapshot(context)) == Fallback.Execute(JobOf(context), handlers, old(Snapshot(context)))
    {
      if context.candidates == [] { return Raised(UNROUTED); }
      ghost var job, start := JobOf(context), Snapshot(context);
      while true
        invariant Valid() && context.candidates != []
        invariant Rounds(job, handlers, Snapshot(context)) == Rounds(job, handlers, start)
        decreases |context.candidates|
      {
        var verdict := Pass(context);
        match verdict {
          case Success => return Returned(context.response.value);
          case Stop => return Raised(if context.error.Some? then context.error.value else ChainStopped);
          case Raise(error) => return Raised(error);
          case Continue => return Raised(NO_RESPONSE);
          case Fallback =>
        }
        context.candidates := context.candidates[1..];
        context.ResetCandidateState();
        if context.candidates == [] { return Raised(EXHAUSTED); }
      }
    }
  }
}
