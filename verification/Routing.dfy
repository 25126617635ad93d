/** The provider registry and the cost-aware router, whose list is the fallback order. */
module Routing {
  import opened Vocabulary
  import opened Text

  datatype Complexity = Trivial | Simple | Moderate | Complex

  datatype Policy = Policy(complexityFloor: map<Complexity, Tier>, allowEscalation: bool, maxCandidates: int)

  function Filter(xs: seq<Provider>, keep: Provider -> bool): seq<Provider> {
    if |xs| == 0 then []
    else (if keep(xs[0]) then [xs[0]] else []) + Filter(xs[1..], keep)
  }

  function TierIs(t: int): Provider -> bool { (p: Provider) => p.tier == t }

  function TierAtLeast(t: int): Provider -> bool { (p: Provider) => p.tier >= t }

  function Capable(required: set<Capability>): Provider -> bool { (p: Provider) => required <= p.capabilities }

  /** Place p before everything that is not cheaper. */
  function Insert(p: Provider, xs: seq<Provider>): seq<Provider> {
    if |xs| == 0 || p.tier <= xs[0].tier then [p] + xs else [xs[0]] + Insert(p, xs[1..])
  }

  function StableSort(xs: seq<Provider>): seq<Provider> {
    if |xs| == 0 then [] else Insert(xs[0], StableSort(xs[1..]))
  }

  function AtOrAbove(registered: seq<Provider>, floor: Tier): seq<Provider> {
    StableSort(Filter(registered, TierAtLeast(floor)))
  }

  function FirstCapable(xs: seq<Provider>, required: set<Capability>): Option<Provider> {
    if |xs| == 0 then None
    else if required <= xs[0].capabilities then Some(xs[0])
    else FirstCapable(xs[1..], required)
  }

  /** None stands for the raised LookupError. */
  function CheapestCapable(registered: seq<Provider>, floor: Tier, required: set<Capability>): Option<Provider> {
    FirstCapable(AtOrAbove(registered, floor), required)
  }

  function Required(request: Request): set<Capability> { if request.tools != [] then {Tools} else {} }

  /** The policy's floor, raised (never lowered) by the caller's hint. */
  function Floor(policy: Policy, request: Request, complexity: Complexity): Tier
    requires complexity in policy.complexityFloor
  {
    var floor := policy.complexityFloor[complexity];
    if request.tierHint.Some? && request.tierHint.value > floor then request.tierHint.value else floor
  }

  /** A Python slice `xs[:n]`, whose bound may be negative. */
  function Take(xs: seq<Provider>, n: int): seq<Provider> {
    if n >= |xs| then xs else if n >= 0 then xs[..n] else if |xs| + n >= 0 then xs[..|xs| + n] else []
  }

  /** Every capable provider from the floor up, before truncation. */
  function Escalating(registered: seq<Provider>, floor: Tier, required: set<Capability>): seq<Provider> {
    Filter(AtOrAbove(registered, floor), Capable(required))
  }

  function Candidates(registered: seq<Provider>, floor: Tier, required: set<Capability>, escalate: bool)
    : seq<Provider>
  {
    var all := Escalating(registered, floor, required);
    if escalate then all else Filter(all, TierIs(floor))
  }

  /** None stands for a complexity the policy has no floor for. */
  function Route(registered: seq<Provider>, policy: Policy, request: Request, complexity: Complexity)
    : Option<seq<Provider>>
  {
    if complexity !in policy.complexityFloor then None
    else
      var all := Candidates(registered, Floor(policy, request, complexity), Required(request), policy.allowEscalation);
      Some(Take(all, policy.maxCandidates))
  }

  // ---- the sort, characterised ----------------------------------------------------------

  /** Sorted by tier, and within each tier in the original order. */
  ghost predicate IsStableSort(xs: seq<Provider>, ys: seq<Provider>) {
    CheapestFirst(ys) && forall t :: Filter(ys, TierIs(t)) == Filter(xs, TierIs(t))
  }

  /** Tier by tier from `lo` up, each in the original order. */
  function Buckets(xs: seq<Provider>, lo: nat): seq<Provider>
    decreases 4 - lo
  {
    if lo >= 4 then [] else Filter(xs, TierIs(lo)) + Buckets(xs, lo + 1)
  }

  lemma {:induction false} FilterAppend(a: seq<Provider>, b: seq<Provider>, keep: Provider -> bool)
    ensures Filter(a + b, keep) == Filter(a, keep) + Filter(b, keep)
  {
    if a == [] {
      assert a + b == b;
    } else {
      FilterAppend(a[1..], b, keep);
      assert (a + b)[1..] == a[1..] + b;
    }
  }

  lemma {:induction false} FilterMembers(xs: seq<Provider>, keep: Provider -> bool)
    ensures forall p :: p in Filter(xs, keep) <==> p in xs && keep(p)
  {
    if xs != [] { FilterMembers(xs[1..], keep); }
  }

  lemma {:induction false} FilterAll(xs: seq<Provider>, keep: Provider -> bool)
    requires forall p :: p in xs ==> keep(p)
    ensures Filter(xs, keep) == xs
  {
    if xs != [] { FilterAll(xs[1..], keep); }
  }

  lemma {:induction false} FilterNone(xs: seq<Provider>, keep: Provider -> bool)
    requires forall p :: p in xs ==> !keep(p)
    ensures Filter(xs, keep) == []
  {
    if xs != [] { FilterNone(xs[1..], keep); }
  }

  lemma {:induction false} FilterCons(x: Provider, xs: seq<Provider>, keep: Provider -> bool)
    ensures keep(x) ==> Filter([x] + xs, keep) == [x] + Filter(xs, keep)
    ensures !keep(x) ==> Filter([x] + xs, keep) == Filter(xs, keep)
  {
    assert ([x] + xs)[1..] == xs;
  }

  lemma {:induction false} FilterSwap(xs: seq<Provider>, f: Provider -> bool, g: Provider -> bool)
    ensures Filter(Filter(xs, f), g) == Filter(Filter(xs, g), f)
  {
    if xs != [] {
      var x, rest := xs[0], xs[1..];
      FilterSwap(rest, f, g);
      FilterCons(x, Filter(rest, f), g);
      FilterCons(x, Filter(rest, g), f);
      FilterCons(x, rest, f);
      FilterCons(x, rest, g);
      assert xs == [x] + rest;
    }
  }

  lemma {:induction false} BucketMembers(xs: seq<Provider>, lo: nat)
    ensures forall p :: p in Buckets(xs, lo) <==> p in xs && p.tier >= lo
    decreases 4 - lo
  {
    if lo < 4 {
      FilterMembers(xs, TierIs(lo));
      BucketMembers(xs, lo + 1);
    }
  }

  lemma {:induction false} BucketsSorted(xs: seq<Provider>, lo: nat)
    ensures CheapestFirst(Buckets(xs, lo))
    decreases 4 - lo
  {
    if lo < 4 {
      BucketsSorted(xs, lo + 1);
      FilterMembers(xs, TierIs(lo));
      BucketMembers(xs, lo + 1);
      var first, rest := Filter(xs, TierIs(lo)), Buckets(xs, lo + 1);
      var all: seq<Provider> := first + rest;
      forall i, j | 0 <= i < j < |all| ensures all[i].tier <= all[j].tier {
        assert i < |first| ==> first[i] in first;
        assert j < |first| ==> first[j] in first;
        assert j >= |first| ==> rest[j - |first|] in rest;
      }
    }
  }

  lemma {:induction false} InsertPast(p: Provider, cheaper: seq<Provider>, rest: seq<Provider>)
    requires forall q :: q in cheaper ==> q.tier < p.tier
    ensures Insert(p, cheaper + rest) == cheaper + Insert(p, rest)
  {
    if cheaper == [] {
      assert cheaper + rest == rest && cheaper + Insert(p, rest) == Insert(p, rest);
    } else {
      assert cheaper[0] in cheaper;
      InsertPast(p, cheaper[1..], rest);
      assert cheaper == [cheaper[0]] + cheaper[1..];
      assert cheaper + rest == [cheaper[0]] + (cheaper[1..] + rest);
      Associative([cheaper[0]], cheaper[1..], Insert(p, rest));
    }
  }

  lemma {:induction false} InsertIntoBuckets(p: Provider, xs: seq<Provider>, lo: nat)
    requires lo <= p.tier
    ensures Insert(p, Buckets(xs, lo)) == Buckets([p] + xs, lo)
    decreases 4 - lo
  {
    var first, rest := Filter(xs, TierIs(lo)), Buckets(xs, lo + 1);
    FilterCons(p, xs, TierIs(lo));
    if p.tier == lo {
      InsertFirst(p, xs, lo);
      BucketsUnaffected(p, xs, lo + 1);
      Associative([p], first, rest);
    } else {
      InsertPastBucket(p, xs, lo);
      InsertIntoBuckets(p, xs, lo + 1);
    }
  }

  lemma InsertPastBucket(p: Provider, xs: seq<Provider>, lo: nat)
    requires lo < p.tier
    ensures Insert(p, Buckets(xs, lo)) == Filter(xs, TierIs(lo)) + Insert(p, Buckets(xs, lo + 1))
  {
    FilterMembers(xs, TierIs(lo));
    InsertPast(p, Filter(xs, TierIs(lo)), Buckets(xs, lo + 1));
  }

  lemma {:induction false} InsertFirst(p: Provider, xs: seq<Provider>, lo: nat)
    requires p.tier == lo
    ensures Insert(p, Buckets(xs, lo)) == [p] + Buckets(xs, lo)
  {
    BucketMembers(xs, lo);
    var all := Buckets(xs, lo);
    if all != [] { assert all[0] in all; }
  }

  lemma {:induction false} BucketsUnaffected(p: Provider, xs: seq<Provider>, lo: nat)
    requires p.tier < lo
    ensures Buckets([p] + xs, lo) == Buckets(xs, lo)
    decreases 4 - lo
  {
    if lo < 4 {
      FilterCons(p, xs, TierIs(lo));
      BucketsUnaffected(p, xs, lo + 1);
    }
  }

  lemma {:induction false} SortIsBuckets(xs: seq<Provider>)
    ensures StableSort(xs) == Buckets(xs, 0)
  {
    if xs == [] {
      assert Buckets(xs, 4) == [] && Buckets(xs, 3) == [] && Buckets(xs, 2) == [] && Buckets(xs, 1) == [];
    } else {
      SortIsBuckets(xs[1..]);
      InsertIntoBuckets(xs[0], xs[1..], 0);
      assert [xs[0]] + xs[1..] == xs;
    }
  }

  lemma {:induction false} FilterOfBuckets(xs: seq<Provider>, lo: nat, keep: Provider -> bool)
    ensures Filter(Buckets(xs, lo), keep) == Buckets(Filter(xs, keep), lo)
    decreases 4 - lo
  {
    if lo < 4 {
      FilterAppend(Filter(xs, TierIs(lo)), Buckets(xs, lo + 1), keep);
      FilterSwap(xs, TierIs(lo), keep);
      FilterOfBuckets(xs, lo + 1, keep);
    }
  }

  /** One bucket of a sorted list is the tier it names. */
  lemma {:induction false} TierOfBuckets(xs: seq<Provider>, lo: nat, t: int)
    ensures Filter(Buckets(xs, lo), TierIs(t)) == if lo <= t then Filter(xs, TierIs(t)) else []
    decreases 4 - lo
  {
    if lo < 4 {
      FilterAppend(Filter(xs, TierIs(lo)), Buckets(xs, lo + 1), TierIs(t));
      TierOfBuckets(xs, lo + 1, t);
      FilterMembers(xs, TierIs(lo));
      if t == lo {
        FilterAll(Filter(xs, TierIs(lo)), TierIs(t));
      } else {
        FilterNone(Filter(xs, TierIs(lo)), TierIs(t));
      }
    } else {
      if lo <= t { FilterNone(xs, TierIs(t)); }
    }
  }

  lemma {:induction false} BucketsDependOnTiers(xs: seq<Provider>, ys: seq<Provider>, lo: nat)
    requires forall t :: Filter(ys, TierIs(t)) == Filter(xs, TierIs(t))
    ensures Buckets(xs, lo) == Buckets(ys, lo)
    decreases 4 - lo
  {
    if lo < 4 { BucketsDependOnTiers(xs, ys, lo + 1); }
  }

  lemma {:induction false} SortedIsItsSort(xs: seq<Provider>)
    requires CheapestFirst(xs)
    ensures StableSort(xs) == xs
  {
    if |xs| > 1 {
      SortedIsItsSort(xs[1..]);
      assert xs[1..][0] == xs[1];
    }
  }

  /** The result is a stable sort, and the only one: whatever algorithm sorts stably agrees with it. */
  lemma {:induction false} SortIsTheStableSort(xs: seq<Provider>, ys: seq<Provider>)
    ensures IsStableSort(xs, ys) <==> ys == StableSort(xs)
  {
    SortIsBuckets(xs);
    BucketsSorted(xs, 0);
    forall t ensures Filter(StableSort(xs), TierIs(t)) == Filter(xs, TierIs(t)) {
      TierOfBuckets(xs, 0, t);
      if t < 0 { FilterNone(xs, TierIs(t)); }
    }
    if IsStableSort(xs, ys) {
      BucketsDependOnTiers(xs, ys, 0);
      SortIsBuckets(ys);
      SortedIsItsSort(ys);
    }
  }

  // ---- routing laws ---------------------------------------------------------------------

  lemma {:induction false} FloorCutsBuckets(xs: seq<Provider>, floor: nat)
    requires floor < 4
    ensures Buckets(Filter(xs, TierAtLeast(floor)), 0) == Buckets(xs, floor)
  {
    KeptBuckets(xs, floor, floor);
    EmptyBuckets(xs, floor, 0);
  }

  lemma {:induction false} KeptBuckets(xs: seq<Provider>, floor: nat, lo: nat)
    requires floor <= lo
    ensures Buckets(Filter(xs, TierAtLeast(floor)), lo) == Buckets(xs, lo)
    decreases 4 - lo
  {
    if lo < 4 {
      KeptBuckets(xs, floor, lo + 1);
      FilterSwap(xs, TierAtLeast(floor), TierIs(lo));
      FilterMembers(xs, TierIs(lo));
      FilterAll(Filter(xs, TierIs(lo)), TierAtLeast(floor));
    }
  }

  lemma {:induction false} EmptyBuckets(xs: seq<Provider>, floor: nat, lo: nat)
    requires lo <= floor < 4
    ensures Buckets(Filter(xs, TierAtLeast(floor)), lo) == Buckets(Filter(xs, TierAtLeast(floor)), floor)
    decreases floor - lo
  {
    if lo < floor {
      var kept := Filter(xs, TierAtLeast(floor));
      EmptyBuckets(xs, floor, lo + 1);
      FilterMembers(xs, TierAtLeast(floor));
      FilterNone(kept, TierIs(lo));
      assert [] + Buckets(kept, lo + 1) == Buckets(kept, lo + 1);
    }
  }

  lemma {:induction false} EscalatingIsBuckets(registered: seq<Provider>, floor: Tier, required: set<Capability>)
    ensures Escalating(registered, floor, required) == Buckets(Filter(registered, Capable(required)), floor)
  {
    SortIsBuckets(Filter(registered, TierAtLeast(floor)));
    FloorCutsBuckets(registered, floor);
    FilterOfBuckets(registered, floor, Capable(required));
  }

  /** Filtering commutes with sorting. */
  lemma {:induction false} FilterCommutesWithSort(xs: seq<Provider>, keep: Provider -> bool)
    ensures Filter(StableSort(xs), keep) == StableSort(Filter(xs, keep))
  {
    SortIsBuckets(xs);
    FilterOfBuckets(xs, 0, keep);
    SortIsBuckets(Filter(xs, keep));
  }

  ghost predicate IsSuffix(part: seq<Provider>, whole: seq<Provider>) {
    |part| <= |whole| && whole[|whole| - |part|..] == part
  }

  lemma {:induction false} BucketSuffix(xs: seq<Provider>, lo: nat, hi: nat)
    requires lo <= hi <= 4
    ensures IsSuffix(Buckets(xs, hi), Buckets(xs, lo))
    decreases hi - lo
  {
    if lo < hi { BucketSuffix(xs, lo + 1, hi); }
  }

  /** Raising the floor leaves a suffix. */
  lemma RaisingTheFloor(registered: seq<Provider>, low: Tier, high: Tier, required: set<Capability>)
    requires low <= high
    ensures IsSuffix(Escalating(registered, high, required), Escalating(registered, low, required))
  {
    EscalatingIsBuckets(registered, low, required);
    EscalatingIsBuckets(registered, high, required);
    BucketSuffix(Filter(registered, Capable(required)), low, high);
  }

  /** Without escalation the list is the escalating list's first tier. */
  lemma StayingIsAPrefix(registered: seq<Provider>, floor: Tier, required: set<Capability>)
    ensures Candidates(registered, floor, required, false) <= Candidates(registered, floor, required, true)
  {
    EscalatingIsBuckets(registered, floor, required);
    var xs := Filter(registered, Capable(required));
    TierOfBuckets(xs, floor, floor);
    assert Buckets(xs, floor) == Filter(xs, TierIs(floor)) + Buckets(xs, floor + 1);
  }

  ghost predicate Eligible(p: Provider, registered: seq<Provider>, floor: Tier, required: set<Capability>,
                           escalate: bool)
  {
    p in registered && required <= p.capabilities && (if escalate then p.tier >= floor else p.tier == floor)
  }

  lemma CandidatesAreEligible(registered: seq<Provider>, floor: Tier, required: set<Capability>, escalate: bool)
    ensures forall p :: p in Candidates(registered, floor, required, escalate)
                        <==> Eligible(p, registered, floor, required, escalate)
    ensures CheapestFirst(Candidates(registered, floor, required, escalate))
  {
    var xs := Filter(registered, Capable(required));
    EscalatingIsBuckets(registered, floor, required);
    FilterMembers(registered, Capable(required));
    BucketMembers(xs, floor);
    BucketsSorted(xs, floor);
    if !escalate {
      StayingIsAPrefix(registered, floor, required);
      FilterMembers(Escalating(registered, floor, required), TierIs(floor));
    }
  }

  /** A truncated sorted list keeps the cheapest. */
  lemma TruncationLaws(all: seq<Provider>, n: int)
    requires CheapestFirst(all)
    ensures var kept := Take(all, n);
            && kept <= all && CheapestFirst(kept)
            && forall p, q :: p in all && p !in kept && q in kept ==> q.tier <= p.tier
  {
    var kept := Take(all, n);
    forall p, q | p in all && p !in kept && q in kept ensures q.tier <= p.tier {
      KeptIsCheaper(all, |kept|, p, q);
    }
  }

  lemma KeptIsCheaper(all: seq<Provider>, n: nat, p: Provider, q: Provider)
    requires CheapestFirst(all) && n <= |all| && p in all && p !in all[..n] && q in all[..n]
    ensures q.tier <= p.tier
  {
    assert all == all[..n] + all[n..];
    var i :| 0 <= i < |all[n..]| && all[n..][i] == p;
    var j :| 0 <= j < n && all[j] == q;
    assert all[n + i] == p;
  }

  /** The first candidate, with or without escalation, is the cheapest capable provider. */
  lemma HeadIsCheapestCapable(registered: seq<Provider>, floor: Tier, required: set<Capability>, escalate: bool)
    ensures var all := Candidates(registered, floor, required, escalate);
            && (all != [] ==> CheapestCapable(registered, floor, required) == Some(all[0]))
            && (escalate && all == [] ==> CheapestCapable(registered, floor, required) == None)
  {
    FirstCapableIsHead(AtOrAbove(registered, floor), required);
    StayingIsAPrefix(registered, floor, required);
  }

  /** A provider the request may go to: from the policy's floor and the caller's hint up, no higher than the
      larger of the two unless escalation is allowed, and able to call tools if the request has any. */
  ghost predicate Wanted(p: Provider, policy: Policy, request: Request, complexity: Complexity)
    requires complexity in policy.complexityFloor
  {
    var floor, hint := policy.complexityFloor[complexity], request.tierHint;
    && p.tier >= floor && (hint.Some? ==> p.tier >= hint.value)
    && (policy.allowEscalation || p.tier == floor || Some(p.tier) == hint)
    && (request.tools != [] ==> Tools in p.capabilities)
  }

  lemma WantedIsEligible(p: Provider, registered: seq<Provider>, policy: Policy, request: Request,
                         complexity: Complexity)
    requires complexity in policy.complexityFloor
    ensures Eligible(p, registered, Floor(policy, request, complexity), Required(request), policy.allowEscalation)
            <==> p in registered && Wanted(p, policy, request, complexity)
  {}

  /** The routed list: wanted providers only, cheapest first; none left out by truncation is cheaper than one
      kept; its head is the cheapest capable provider. */
  lemma RouteLaws(registered: seq<Provider>, policy: Policy, request: Request, complexity: Complexity)
    requires complexity in policy.complexityFloor
    ensures var floor, required := Floor(policy, request, complexity), Required(request);
            var route := Route(registered, policy, request, complexity).value;
            && CheapestFirst(route)
            && (forall p :: p in route ==> p in registered && Wanted(p, policy, request, complexity))
            && (forall p, q :: p in registered && Wanted(p, policy, request, complexity) && p !in route && q in route
                               ==> q.tier <= p.tier)
            && (route != [] ==> CheapestCapable(registered, floor, required) == Some(route[0]))
            && (policy.allowEscalation && policy.maxCandidates >= 1 && route == [] ==>
                  CheapestCapable(registered, floor, required) == None)
  {
    var floor, required, escalate := Floor(policy, request, complexity), Required(request), policy.allowEscalation;
    KeptLaws(registered, floor, required, escalate, policy.maxCandidates);
    HeadIsCheapestCapable(registered, floor, required, escalate);
    forall p
      ensures Eligible(p, registered, floor, required, escalate)
              <==> p in registered && Wanted(p, policy, request, complexity)
    {
      WantedIsEligible(p, registered, policy, request, complexity);
    }
  }

  lemma KeptLaws(registered: seq<Provider>, floor: Tier, required: set<Capability>, escalate: bool, n: int)
    ensures var kept := Take(Candidates(registered, floor, required, escalate), n);
            && CheapestFirst(kept)
            && (forall p :: p in kept ==> Eligible(p, registered, floor, required, escalate))
            && (forall p, q :: Eligible(p, registered, floor, required, escalate) && p !in kept && q in kept
                               ==> q.tier <= p.tier)
  {
    var all := Candidates(registered, floor, required, escalate);
    CandidatesAreEligible(registered, floor, required, escalate);
    TruncationLaws(all, n);
    assert forall p :: p in Take(all, n) ==> p in all;
  }

  lemma {:induction false} FirstCapableIsHead(xs: seq<Provider>, required: set<Capability>)
    ensures var capable := Filter(xs, Capable(required));
            FirstCapable(xs, required) == if capable == [] then None else Some(capable[0])
  {
    if xs != [] { FirstCapableIsHead(xs[1..], required); }
  }

  // ---- the routed list, place by place --------------------------------------------------

  /** `at` says which of the registered providers each listed one is. */
  ghost predicate Places(listed: seq<Provider>, registered: seq<Provider>, at: seq<nat>) {
    && |at| == |listed|
    && forall k :: 0 <= k < |at| ==> at[k] < |registered| && listed[k] == registered[at[k]]
  }

  ghost predicate Covers(registered: seq<Provider>, keep: Provider -> bool, at: seq<nat>) {
    forall i: nat :: i in at <==> i < |registered| && keep(registered[i])
  }

  ghost predicate Ascending(at: seq<nat>) {
    forall j, k :: 0 <= j < k < |at| ==> at[j] < at[k]
  }

  ghost predicate InTierOrder(listed: seq<Provider>, at: seq<nat>)
    requires |at| == |listed|
  {
    forall j, k :: 0 <= j < k < |at| ==>
      listed[j].tier < listed[k].tier || (listed[j].tier == listed[k].tier && at[j] < at[k])
  }

  lemma {:induction false} FilterTrace(xs: seq<Provider>, keep: Provider -> bool) returns (at: seq<nat>)
    ensures Places(Filter(xs, keep), xs, at) && Covers(xs, keep, at) && Ascending(at)
  {
    if xs == [] {
      at := [];
    } else {
      var n := |xs| - 1;
      at := FilterTrace(xs[..n], keep);
      FilterSnoc(xs[..n], xs[n], keep);
      assert xs == xs[..n] + [xs[n]];
      OneMore(xs, keep, Filter(xs[..n], keep), at);
      if keep(xs[n]) { at := at + [n]; }
    }
  }

  lemma {:induction false} FilterSnoc(xs: seq<Provider>, x: Provider, keep: Provider -> bool)
    ensures Filter(xs + [x], keep) == if keep(x) then Filter(xs, keep) + [x] else Filter(xs, keep)
  {
    FilterAppend(xs, [x], keep);
    FilterCons(x, [], keep);
    var none: seq<Provider> := [];
    assert [x] + none == [x];
  }

  lemma OneMore(xs: seq<Provider>, keep: Provider -> bool, listed: seq<Provider>, before: seq<nat>)
    requires xs != [] && Places(listed, xs[..|xs| - 1], before) && Covers(xs[..|xs| - 1], keep, before)
    requires Ascending(before)
    ensures var n := |xs| - 1;
            if keep(xs[n])
            then Places(listed + [xs[n]], xs, before + [n]) && Covers(xs, keep, before + [n]) && Ascending(before + [n])
            else Places(listed, xs, before) && Covers(xs, keep, before)
  {
    var n := |xs| - 1;
    var at := if keep(xs[n]) then before + [n] else before;
    forall i: nat ensures i in at <==> i < |xs| && keep(xs[i]) {
      assert i in before <==> i < n && keep(xs[..n][i]);
    }
  }

  lemma {:induction false} FilterTwice(xs: seq<Provider>, f: Provider -> bool, g: Provider -> bool,
                                       both: Provider -> bool)
    requires forall p :: p in xs ==> (both(p) <==> f(p) && g(p))
    ensures Filter(Filter(xs, f), g) == Filter(xs, both)
  {
    if xs != [] {
      var x, rest := xs[0], xs[1..];
      FilterTwice(rest, f, g, both);
      FilterCons(x, Filter(rest, f), g);
      FilterCons(x, rest, f);
      FilterCons(x, rest, both);
      assert xs == [x] + rest && x in xs;
    }
  }

  /** Exactly the kept ones, by tier and within a tier in registration order. */
  ghost predicate ListsInOrder(listed: seq<Provider>, registered: seq<Provider>, keep: Provider -> bool, at: seq<nat>)
  {
    Places(listed, registered, at) && Covers(registered, keep, at) && InTierOrder(listed, at)
  }

  lemma {:induction false} BucketsTrace(xs: seq<Provider>, lo: nat) returns (at: seq<nat>)
    ensures ListsInOrder(Buckets(xs, lo), xs, TierAtLeast(lo), at)
    decreases 4 - lo
  {
    if lo >= 4 {
      at := [];
    } else {
      var here := FilterTrace(xs, TierIs(lo));
      var there := BucketsTrace(xs, lo + 1);
      at := here + there;
      BothCovered(xs, lo, here, there);
      BothPlaced(xs, Filter(xs, TierIs(lo)), here, Buckets(xs, lo + 1), there);
      FilterMembers(xs, TierIs(lo));
      BucketMembers(xs, lo + 1);
      OneMoreTier(lo, Filter(xs, TierIs(lo)), here, Buckets(xs, lo + 1), there);
    }
  }

  lemma BothPlaced(xs: seq<Provider>, first: seq<Provider>, here: seq<nat>, rest: seq<Provider>, there: seq<nat>)
    requires Places(first, xs, here) && Places(rest, xs, there)
    ensures Places(first + rest, xs, here + there)
  {}

  lemma BothCovered(xs: seq<Provider>, lo: nat, here: seq<nat>, there: seq<nat>)
    requires Covers(xs, TierIs(lo), here) && Covers(xs, TierAtLeast(lo + 1), there)
    ensures Covers(xs, TierAtLeast(lo), here + there)
  {
    forall i: nat ensures i in here + there <==> i < |xs| && TierAtLeast(lo)(xs[i]) {
      assert i in here + there <==> i in here || i in there;
    }
  }

  lemma OneMoreTier(lo: nat, first: seq<Provider>, here: seq<nat>, rest: seq<Provider>, there: seq<nat>)
    requires |first| == |here| && |rest| == |there| && Ascending(here) && InTierOrder(rest, there)
    requires (forall p :: p in first ==> p.tier == lo) && forall p :: p in rest ==> p.tier > lo
    ensures InTierOrder(first + rest, here + there)
  {
    forall j, k | 0 <= j < k < |here + there|
      ensures var all, at := first + rest, here + there;
              all[j].tier < all[k].tier || (all[j].tier == all[k].tier && at[j] < at[k])
    {
      if j < |first| { assert first[j] in first; }
      if k < |first| { assert first[k] in first; } else { assert rest[k - |first|] in rest; }
    }
  }

  lemma SortTrace(registered: seq<Provider>, keep: Provider -> bool) returns (at: seq<nat>)
    ensures ListsInOrder(StableSort(Filter(registered, keep)), registered, keep, at)
  {
    var xs := Filter(registered, keep);
    SortIsBuckets(xs);
    var kept := FilterTrace(registered, keep);
    var within := BucketsTrace(xs, 0);
    forall k | 0 <= k < |within| ensures within[k] < |kept| {}
    at := Through(kept, within);
    ThroughCovers(registered, keep, kept, xs, within);
    ThroughOrdered(StableSort(xs), kept, within);
  }

  /** Places within a filtered list, as places in the list itself. */
  ghost function Through(kept: seq<nat>, within: seq<nat>): seq<nat>
    requires forall k :: 0 <= k < |within| ==> within[k] < |kept|
  {
    seq(|within|, k requires 0 <= k < |within| => kept[within[k]])
  }

  lemma ThroughCovers(registered: seq<Provider>, keep: Provider -> bool, kept: seq<nat>, xs: seq<Provider>,
                      within: seq<nat>)
    requires Covers(registered, keep, kept) && |xs| == |kept| && Covers(xs, TierAtLeast(0), within)
    requires forall k :: 0 <= k < |within| ==> within[k] < |kept|
    ensures Covers(registered, keep, Through(kept, within))
  {
    var at := Through(kept, within);
    forall i: nat | i < |registered| && keep(registered[i]) ensures i in at {
      var k: nat :| k < |kept| && kept[k] == i;
      assert TierAtLeast(0)(xs[k]) && k in within;
      var l :| 0 <= l < |within| && within[l] == k;
      assert at[l] == i;
    }
    forall i: nat | i in at ensures i < |registered| && keep(registered[i]) {
      var l :| 0 <= l < |at| && at[l] == i;
      assert kept[within[l]] in kept;
    }
  }

  lemma ThroughOrdered(listed: seq<Provider>, kept: seq<nat>, within: seq<nat>)
    requires |listed| == |within| && Ascending(kept) && InTierOrder(listed, within)
    requires forall k :: 0 <= k < |within| ==> within[k] < |kept|
    ensures InTierOrder(listed, Through(kept, within))
  {}

  lemma {:induction false} RouteIsTheSort(registered: seq<Provider>, policy: Policy, request: Request,
                                          complexity: Complexity, wanted: Provider -> bool)
    requires complexity in policy.complexityFloor
    requires forall p :: wanted(p) <==> Wanted(p, policy, request, complexity)
    ensures Candidates(registered, Floor(policy, request, complexity), Required(request), policy.allowEscalation)
            == StableSort(Filter(registered, wanted))
  {
    var floor, required := Floor(policy, request, complexity), Required(request);
    var high := Filter(registered, TierAtLeast(floor));
    var able := Filter(high, Capable(required));
    FilterCommutesWithSort(high, Capable(required));
    if policy.allowEscalation {
      FilterTwice(registered, TierAtLeast(floor), Capable(required), wanted);
    } else {
      FilterCommutesWithSort(able, TierIs(floor));
      var both := (p: Provider) => p.tier >= floor && required <= p.capabilities;
      FilterTwice(registered, TierAtLeast(floor), Capable(required), both);
      FilterTwice(registered, both, TierIs(floor), wanted);
    }
  }

  /** What a request is routed to: every wanted provider, by tier and within a tier in registration order, cut to
      the policy's number of candidates, a negative number leaving that many off the end. */
  lemma RouteMeaning(registered: seq<Provider>, policy: Policy, request: Request, complexity: Complexity)
    returns (all: seq<Provider>, at: seq<nat>)
    ensures Route(registered, policy, request, complexity) == None <==> complexity !in policy.complexityFloor
    ensures complexity in policy.complexityFloor ==>
              && Places(all, registered, at) && InTierOrder(all, at)
              && (forall i: nat :: i in at
                    <==> i < |registered| && Wanted(registered[i], policy, request, complexity))
              && var n := policy.maxCandidates;
              var kept := if n >= |all| then |all| else if n >= 0 then n else if |all| + n >= 0 then |all| + n else 0;
              Route(registered, policy, request, complexity) == Some(all[..kept])
  {
    all, at := [], [];
    if complexity in policy.complexityFloor {
      var wanted := (p: Provider) => Wanted(p, policy, request, complexity);
      all := StableSort(Filter(registered, wanted));
      at := SortTrace(registered, wanted);
      RouteIsTheSort(registered, policy, request, complexity, wanted);
      assert all[..|all|] == all;
    }
  }

  // ---- the registry ---------------------------------------------------------------------

  /** Insertion-ordered and keyed by name; replacing keeps the old position. */
  class ProviderRegistry {
    var providers: seq<Provider>

    ghost predicate Valid()
      reads this
    {
      forall i, j :: 0 <= i < j < |providers| ==> providers[i].name != providers[j].name
    }

    constructor ()
      ensures Valid() && providers == []
    {
      providers := [];
    }

    method Register(provider: Provider)
      requires Valid()
      modifies this
      ensures Valid()
      ensures forall k :: 0 <= k < |old(providers)| && old(providers)[k].name == provider.name ==>
                providers == old(providers)[k := provider]
      ensures (forall k :: 0 <= k < |old(providers)| ==> old(providers)[k].name != provider.name) ==>
                providers == old(providers) + [provider]
    {
      for i := 0 to |providers|
        invariant providers == old(providers)
        invariant forall j :: 0 <= j < i ==> providers[j].name != provider.name
      {
        if providers[i].name == provider.name {
          providers := providers[i := provider];
          return;
        }
      }
      providers := providers + [provider];
    }

    /** The lowest-tier provider that meets the floor and the capabilities, or None. */
    method FindCheapest(floor: Tier, required: set<Capability>) returns (found: Option<Provider>)
      ensures found == CheapestCapable(providers, floor, required)
      ensures found.Some? ==> Eligible(found.value, providers, floor, required, true)
      ensures found.Some? ==>
                forall p :: Eligible(p, providers, floor, required, true) ==> found.value.tier <= p.tier
      ensures found.None? ==> forall p :: p in providers ==> !Eligible(p, providers, floor, required, true)
    {
      var sorted := AtOrAbove(providers, floor);
      CandidatesAreEligible(providers, floor, required, true);
      FirstCapableIsHead(sorted, required);
      for i := 0 to |sorted|
        invariant FirstCapable(sorted, required) == FirstCapable(sorted[i..], required)
      {
        if required <= sorted[i].capabilities { return Some(sorted[i]); }
        assert sorted[i..][1..] == sorted[i + 1..];
      }
      return None;
    }
  }
}
