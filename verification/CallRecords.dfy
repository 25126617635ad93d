/** What the vendors, the audit log and the sleeper see of each call of a turn, in terms of the turn's inputs. */
module CallRecords {
  import opened Vocabulary
  import opened Credentials
  import opened Fallback
  import opened AttemptTrail

  /** What the resolver gave for the provider of this call. */
  ghost predicate Resolved(job: Job, r: Record, credentials: seq<Credential>) {
    && job.env.resolve(job.tenant, r.provider) == Some(credentials)
    && if credentials == [] then r.key == 0 else r.key < |credentials|
  }

  /** The credential of this call; a provider without any is called without an override. */
  function Used(credentials: seq<Credential>, r: Record): Option<Credential>
    requires if credentials == [] then r.key == 0 else r.key < |credentials|
  {
    if credentials == [] then None else Some(credentials[r.key])
  }

  lemma PoolIsResolved(job: Job, all: seq<Provider>, n: nat, r: Record)
    requires CallOk(job, all, n, r)
    ensures var credentials := job.env.resolve(job.tenant, r.provider).value;
            Resolved(job, r, credentials) && CredentialOf(r) == Used(credentials, r)
  {}

  /** The n-th call the vendors see is this one: to the candidate at its place in the route, with the key resolved
      for its place in the rotation, and answered by the n-th reply. */
  ghost predicate Sent(job: Job, candidates: seq<Provider>, n: nat, r: Record, call: VendorCall) {
    && 1 <= r.left <= |candidates| && r.provider == candidates[|candidates| - r.left]
    && r.reply == job.env.reply(n)
    && exists credentials: seq<Credential> :: Resolved(job, r, credentials)
         && call == VendorCall(r.provider, if credentials == [] then None else credentials[r.key].rawKey, job.request)
  }

  lemma CallIsSent(job: Job, candidates: seq<Provider>, n: nat, r: Record)
    requires CallOk(job, candidates, n, r)
    ensures Sent(job, candidates, n, r, Call(job.request, r))
  {
    PoolIsResolved(job, candidates, n, r);
    assert Resolved(job, r, job.env.resolve(job.tenant, r.provider).value);
  }

  /** The vendors' log gains exactly the calls of the trail, in order, every one with the turn's own request. */
  lemma CallsAreSent(job: Job, candidates: seq<Provider>, start: World)
    ensures var s := Execute(job, GATEWAY, State(FreshCtx(candidates), start)).1;
            var trail, log, n := s.ctx.trail, s.world.log, |start.log|;
            && start.log <= log && |log| == n + |trail|
            && forall i :: 0 <= i < |trail| ==> Sent(job, candidates, n + i, trail[i], log[n + i])
  {
    TrailTheorem(job, candidates, start);
    var s := Execute(job, GATEWAY, State(FreshCtx(candidates), start)).1;
    LogIsSent(job, candidates, start.log, s.ctx.trail, s.world.log);
  }

  lemma LogIsSent(job: Job, candidates: seq<Provider>, before: seq<VendorCall>, trail: seq<Record>,
                  log: seq<VendorCall>)
    requires CallsOk(job, candidates, |before|, trail, 1) && log == before + Calls(job.request, trail)
    ensures before <= log && |log| == |before| + |trail|
    ensures forall i :: 0 <= i < |trail| ==> Sent(job, candidates, |before| + i, trail[i], log[|before| + i])
  {
    forall i | 0 <= i < |trail| ensures Sent(job, candidates, |before| + i, trail[i], log[|before| + i]) {
      assert CallOk(job, candidates, |before| + i, trail[i]);
      CallIsSent(job, candidates, |before| + i, trail[i]);
      assert log[|before| + i] == Call(job.request, trail[i]);
    }
  }

  /** An audit entry that tells of this call: provider, credential reference, and the error it met if any. */
  ghost predicate TellsOf(job: Job, r: Record, entry: AttemptRecord) {
    && entry.providerName == r.provider.name
    && (exists credentials: seq<Credential> :: Resolved(job, r, credentials)
          && entry.credentialRef == (if credentials == [] then None else Some(credentials[r.key].secretRef)))
    && match r.reply
       case Answer(_) => entry.errorClass == None && entry.detail == None
       case VendorError(c, detail, _) => entry.errorClass == Some(c) && entry.detail == Some(detail)
       case LibraryError(_) => false
  }

  /** The audit log tells of the calls, one entry each and in order, but for a last one that raised a library
      error. */
  lemma EntriesTell(job: Job, candidates: seq<Provider>, start: World)
    ensures var s := Execute(job, GATEWAY, State(FreshCtx(candidates), start)).1;
            var attempts, trail := s.ctx.attempts, s.ctx.trail;
            && |attempts| == |trail| - (if trail != [] && trail[|trail| - 1].reply.LibraryError? then 1 else 0)
            && forall i :: 0 <= i < |attempts| ==> TellsOf(job, trail[i], attempts[i])
  {
    TrailTheorem(job, candidates, start);
    var s := Execute(job, GATEWAY, State(FreshCtx(candidates), start)).1;
    EntriesTellOf(job, candidates, |start.log|, s.ctx.trail);
  }

  lemma {:induction false} EntriesTellOf(job: Job, candidates: seq<Provider>, n: nat, trail: seq<Record>)
    requires Grammar(job.env.config, trail) && CallsOk(job, candidates, n, trail, 1)
    ensures |Entries(trail)| == |trail| - (if trail != [] && trail[|trail| - 1].reply.LibraryError? then 1 else 0)
    ensures forall i :: 0 <= i < |Entries(trail)| ==> TellsOf(job, trail[i], Entries(trail)[i])
  {
    OnlyLastIsNotVendors(job.env.config, trail);
    OneEntryPerCall(trail);
    forall i | 0 <= i < |Entries(trail)| ensures TellsOf(job, trail[i], Entries(trail)[i]) {
      EntryInPlace(job, candidates, n, trail, i);
    }
  }

  lemma OnlyLastIsNotVendors(c: Config, trail: seq<Record>)
    requires Grammar(c, trail)
    ensures forall j :: 0 <= j < |trail| - 1 ==> trail[j].reply.VendorError?
  {
    forall j | 0 <= j < |trail| - 1 ensures trail[j].reply.VendorError? { InnerCallsFailed(c, trail, j); }
  }

  lemma {:induction false} EntryInPlace(job: Job, candidates: seq<Provider>, n: nat, trail: seq<Record>, i: nat)
    requires CallsOk(job, candidates, n, trail, 1) && i < |Entries(trail)|
    requires forall j :: 0 <= j < |trail| - 1 ==> trail[j].reply.VendorError?
    ensures i < |trail| && TellsOf(job, trail[i], Entries(trail)[i])
  {
    EntriesMatch(trail, i);
    assert CallOk(job, candidates, n + i, trail[i]);
    EntryTells(job, candidates, n + i, trail[i], Entries(trail)[i]);
  }

  lemma EntryTells(job: Job, all: seq<Provider>, n: nat, r: Record, entry: AttemptRecord)
    requires CallOk(job, all, n, r) && Entry(r) == [entry]
    ensures TellsOf(job, r, entry)
  {
    PoolIsResolved(job, all, n, r);
    assert Resolved(job, r, job.env.resolve(job.tenant, r.provider).value);
    assert Entry(r)[0] == entry;
  }

  /** How many of these calls were paused after. */
  function Paused(trail: seq<Record>): nat {
    if |trail| == 0 then 0 else Paused(trail[..|trail| - 1]) + if trail[|trail| - 1].wait.Some? then 1 else 0
  }

  lemma {:induction false} WaitsInOrder(trail: seq<Record>, i: nat)
    requires i < |trail| && trail[i].wait.Some?
    ensures |Waits(trail)| == Paused(trail) && Paused(trail[..i]) < Paused(trail)
    ensures Waits(trail)[Paused(trail[..i])] == trail[i].wait.value
  {
    WaitsCounted(trail);
    var before := trail[..|trail| - 1];
    WaitsCounted(before);
    if i < |before| {
      WaitsInOrder(before, i);
      assert before[..i] == trail[..i];
    }
  }

  lemma {:induction false} WaitsCounted(trail: seq<Record>)
    ensures |Waits(trail)| == Paused(trail)
  {
    if trail != [] { WaitsCounted(trail[..|trail| - 1]); }
  }

  /** The gateway sleeps exactly the pauses of its calls, in order. */
  lemma PausesAreSlept(job: Job, candidates: seq<Provider>, start: World)
    ensures var s := Execute(job, GATEWAY, State(FreshCtx(candidates), start)).1;
            var trail, slept := s.ctx.trail, s.world.slept;
            && start.slept <= slept && |slept| == |start.slept| + Paused(trail)
            && forall i :: 0 <= i < |trail| && trail[i].wait.Some? ==>
                 var k := |start.slept| + Paused(trail[..i]);
                 k < |slept| && slept[k] == trail[i].wait.value
  {
    SleptAsPaused(job, candidates, start);
    WaitsInPlace(start.slept, Execute(job, GATEWAY, State(FreshCtx(candidates), start)).1.ctx.trail);
  }

  lemma SleptAsPaused(job: Job, candidates: seq<Provider>, start: World)
    ensures var s := Execute(job, GATEWAY, State(FreshCtx(candidates), start)).1;
            s.world.slept == start.slept + Waits(s.ctx.trail)
  {
    TrailTheorem(job, candidates, start);
  }

  lemma {:induction false} WaitsInPlace(before: seq<real>, trail: seq<Record>)
    ensures |before + Waits(trail)| == |before| + Paused(trail)
    ensures forall i :: 0 <= i < |trail| && trail[i].wait.Some? ==>
              var k := |before| + Paused(trail[..i]);
              k < |before| + |Waits(trail)| && (before + Waits(trail))[k] == trail[i].wait.value
  {
    WaitsCounted(trail);
    forall i | 0 <= i < |trail| && trail[i].wait.Some?
      ensures var k := |before| + Paused(trail[..i]);
              k < |before| + |Waits(trail)| && (before + Waits(trail))[k] == trail[i].wait.value
    {
      WaitsInOrder(trail, i);
    }
  }
}
