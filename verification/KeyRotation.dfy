/** From the keys a visitor pooled to the keys the vendors see: all of one candidate's calls rotate through
    the pool in order. */
module KeyRotation {
  import opened Vocabulary
  import opened Credentials
  import opened Fallback
  import opened AttemptTrail

  /** Before a call with the k-th key, every earlier key of the pool had its first call. */
  lemma {:induction false} KeysFormPrefix(c: Config, trail: seq<Record>, i: nat, k: nat) returns (j: nat)
    requires Grammar(c, trail) && i < |trail| && trail[0].key == 0 && trail[0].attempt == 1
    requires k <= trail[i].key
    ensures j <= i && trail[j].left == trail[i].left && trail[j].key == k && trail[j].attempt == 1
  {
    if i == 0 {
      j := 0;
    } else {
      var r, r' := trail[i - 1], trail[i];
      assert Follows(c, r, r');
      if SameKey(r, r') || (r'.left == r.left && k < r'.key) {
        j := KeysFormPrefix(c, trail, i - 1, k);
      } else {
        j := i;
      }
    }
  }

  /** The calls with one key are consecutive, their attempts counting up from one. */
  lemma {:induction false} KeyCallsAreABlock(c: Config, trail: seq<Record>, i: nat, a: nat)
    requires Grammar(c, trail) && i < |trail| && trail[0].attempt == 1
    requires 1 <= a <= trail[i].attempt
    ensures var j := i - (trail[i].attempt - a);
            j >= 0 && trail[j].left == trail[i].left && trail[j].key == trail[i].key && trail[j].attempt == a
  {
    if a < trail[i].attempt {
      assert i > 0;
      assert Follows(c, trail[i - 1], trail[i]);
      KeyCallsAreABlock(c, trail, i - 1, a);
    }
  }

  /** End to end: in any turn of a tenant whose metadata carries pooled keys, whatever else it holds, every call
      to a vendor with a usable key in its pool sends one of them: the key its place in the rotation says. Keys
      are sent trimmed and split at their commas, so poolable ones unchanged. */
  lemma PooledKeysAreSent(job: Job, candidates: seq<Provider>, start: World, credentials: map<string, seq<string>>,
                          i: nat)
    requires Carries(job.tenant.metadata, credentials)
    requires forall p :: job.env.resolve(job.tenant, p) == ResolveCandidates(job.tenant, p)
    requires var trail := Execute(job, GATEWAY, State(FreshCtx(candidates), start)).1.ctx.trail;
             && i < |trail| && Family(trail[i].provider.name) in credentials
             && SplitEach(credentials[Family(trail[i].provider.name)]) != []
    ensures var s := Execute(job, GATEWAY, State(FreshCtx(candidates), start)).1;
            var r := s.ctx.trail[i];
            var keys := SplitEach(credentials[Family(r.provider.name)]);
            && r.key < |keys| && 1 <= r.attempt <= job.env.config.maxAttempts
            && |start.log| + i < |s.world.log|
            && s.world.log[|start.log| + i] == VendorCall(r.provider, Some(keys[r.key]), job.request)
            && (AllPoolable(credentials[Family(r.provider.name)]) ==> keys == credentials[Family(r.provider.name)])
  {
    TrailTheorem(job, candidates, start);
    var s := Execute(job, GATEWAY, State(FreshCtx(candidates), start)).1;
    var r := s.ctx.trail[i];
    assert CallOk(job, candidates, |start.log| + i, r);
    CarriedKeysResolve(job.tenant, credentials, r.provider);
    assert s.world.log[|start.log| + i] == Call(job.request, r);
    var pool := credentials[Family(r.provider.name)];
    if AllPoolable(pool) { PoolableComeBack(pool); }
  }
}
