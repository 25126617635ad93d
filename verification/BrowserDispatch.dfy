/** The browser agent's dispatch over an ordered list of providers, each with its pooled keys. */
module BrowserDispatch {
  import opened ChatHistory

  const OLLAMA := "ollama"

  datatype ProviderCredential = ProviderCredential(provider: string, model: string, apiKeys: seq<string>)

  datatype AgentConfig = AgentConfig(providers: seq<ProviderCredential>, ollamaUrl: string)

  datatype Candidate = Candidate(provider: string, model: string, apiKey: string, ollamaUrl: string)

  datatype FailedAttempt = FailedAttempt(provider: string, error: string)

  datatype Reply = Text(text: string) | Fails(error: string)

  /** One candidate's stream: the texts it delivers, then its end. */
  datatype Stream = Stream(chunks: seq<string>, end: Reply)

  datatype Outcome =
    | Answered(text: string)
    | NotConfigured
    | Exhausted(attempts: seq<FailedAttempt>)
    | Broken(error: string)

  function KeysUsed(keys: seq<string>): seq<string> {
    if |keys| == 0 then []
    else KeysUsed(keys[..|keys| - 1]) + if keys[|keys| - 1] == "" then [] else [keys[|keys| - 1]]
  }

  function CandidatesOfOne(cred: ProviderCredential, url: string): seq<Candidate> {
    if cred.provider == OLLAMA then [Candidate(OLLAMA, cred.model, "", url)]
    else
      var keys := KeysUsed(cred.apiKeys);
      seq(|keys|, i requires 0 <= i < |keys| => Candidate(cred.provider, cred.model, keys[i], url))
  }

  /** Every provider's usable keys in order, before the next provider's. */
  function Flattened(providers: seq<ProviderCredential>, url: string): seq<Candidate> {
    if |providers| == 0 then []
    else Flattened(providers[..|providers| - 1], url) + CandidatesOfOne(providers[|providers| - 1], url)
  }

  // ---- the candidates, place by place ---------------------------------------------------

  /** A provider and one of its keys; Ollama, which needs none, has the single place 0. */
  datatype Place = Place(provider: nat, key: nat)

  ghost predicate Usable(cred: ProviderCredential, key: nat) {
    if cred.provider == "ollama" then key == 0 else key < |cred.apiKeys| && cred.apiKeys[key] != ""
  }

  ghost predicate Offers(cred: ProviderCredential, key: nat, url: string, candidate: Candidate) {
    && Usable(cred, key)
    && candidate == Candidate(cred.provider, cred.model,
                              if cred.provider == "ollama" then "" else cred.apiKeys[key], url)
  }

  ghost predicate Before(a: Place, b: Place) {
    a.provider < b.provider || (a.provider == b.provider && a.key < b.key)
  }

  ghost predicate Ordered(at: seq<Place>) {
    forall j, k :: 0 <= j < k < |at| ==> Before(at[j], at[k])
  }

  ghost predicate OfferedAt(providers: seq<ProviderCredential>, url: string, candidates: seq<Candidate>, at: seq<Place>)
  {
    && |at| == |candidates|
    && forall k :: 0 <= k < |at| ==>
         at[k].provider < |providers| && Offers(providers[at[k].provider], at[k].key, url, candidates[k])
  }

  ghost predicate CoversAll(providers: seq<ProviderCredential>, at: seq<Place>) {
    forall place :: place in at <==> place.provider < |providers| && Usable(providers[place.provider], place.key)
  }

  lemma {:induction false} KeysTrace(keys: seq<string>) returns (at: seq<nat>)
    ensures |at| == |KeysUsed(keys)|
    ensures forall k :: 0 <= k < |at| ==> at[k] < |keys| && KeysUsed(keys)[k] == keys[at[k]]
    ensures forall j, k :: 0 <= j < k < |at| ==> at[j] < at[k]
    ensures forall j: nat :: j in at <==> j < |keys| && keys[j] != ""
  {
    if keys == [] {
      at := [];
    } else {
      var n := |keys| - 1;
      at := KeysTrace(keys[..n]);
      if keys[n] != "" { at := at + [n]; }
    }
  }

  ghost function PlacesOf(provider: nat, keys: seq<nat>): (at: seq<Place>)
    ensures |at| == |keys| && forall k :: 0 <= k < |at| ==> at[k] == Place(provider, keys[k])
  {
    seq(|keys|, k requires 0 <= k < |keys| => Place(provider, keys[k]))
  }

  /** The last provider's candidates: all its usable places, in order. */
  lemma LastProvider(providers: seq<ProviderCredential>, url: string) returns (keys: seq<nat>)
    requires providers != []
    ensures var n := |providers| - 1;
            && OfferedAt(providers, url, CandidatesOfOne(providers[n], url), PlacesOf(n, keys))
            && Ordered(PlacesOf(n, keys)) && forall key: nat :: key in keys <==> Usable(providers[n], key)
  {
    var cred := providers[|providers| - 1];
    if cred.provider == OLLAMA {
      keys := [0];
    } else {
      keys := KeysTrace(cred.apiKeys);
    }
  }

  lemma OneMoreProvider(providers: seq<ProviderCredential>, url: string, before: seq<Candidate>, at: seq<Place>,
                        more: seq<Candidate>, keys: seq<nat>)
    requires providers != [] && OfferedAt(providers[..|providers| - 1], url, before, at)
    requires Ordered(at) && CoversAll(providers[..|providers| - 1], at)
    requires OfferedAt(providers, url, more, PlacesOf(|providers| - 1, keys))
    requires Ordered(PlacesOf(|providers| - 1, keys))
    requires forall key: nat :: key in keys <==> Usable(providers[|providers| - 1], key)
    ensures var all := at + PlacesOf(|providers| - 1, keys);
            OfferedAt(providers, url, before + more, all) && Ordered(all) && CoversAll(providers, all)
  {
    var n := |providers| - 1;
    var there := PlacesOf(n, keys);
    OfferedTogether(providers, url, before, at, more, there);
    OrderedTogether(at, there, n);
    CoveredTogether(providers, at, keys);
  }

  lemma PlacesOfMembers(provider: nat, keys: seq<nat>)
    ensures forall place: Place ::
              place in PlacesOf(provider, keys) <==> place.provider == provider && place.key in keys
  {
    var at := PlacesOf(provider, keys);
    forall place: Place | place.provider == provider && place.key in keys ensures place in at {
      var k :| 0 <= k < |keys| && keys[k] == place.key;
      assert at[k] == place;
    }
  }

  lemma CoveredTogether(providers: seq<ProviderCredential>, at: seq<Place>, keys: seq<nat>)
    requires providers != [] && CoversAll(providers[..|providers| - 1], at)
    requires forall key: nat :: key in keys <==> Usable(providers[|providers| - 1], key)
    ensures CoversAll(providers, at + PlacesOf(|providers| - 1, keys))
  {
    var n := |providers| - 1;
    PlacesOfMembers(n, keys);
    forall place
      ensures place in at + PlacesOf(n, keys)
              <==> place.provider < |providers| && Usable(providers[place.provider], place.key)
    {
      assert place in at + PlacesOf(n, keys) <==> place in at || place in PlacesOf(n, keys);
      assert place in at <==> place.provider < n && Usable(providers[..n][place.provider], place.key);
    }
  }

  lemma OfferedTogether(providers: seq<ProviderCredential>, url: string, before: seq<Candidate>, at: seq<Place>,
                        more: seq<Candidate>, there: seq<Place>)
    requires providers != [] && OfferedAt(providers[..|providers| - 1], url, before, at)
    requires OfferedAt(providers, url, more, there)
    ensures OfferedAt(providers, url, before + more, at + there)
  {}

  lemma OrderedTogether(at: seq<Place>, there: seq<Place>, n: nat)
    requires Ordered(at) && Ordered(there)
    requires forall k :: 0 <= k < |at| ==> at[k].provider < n
    requires forall k :: 0 <= k < |there| ==> there[k].provider == n
    ensures Ordered(at + there)
  {}

  /** The candidates are exactly the usable places, provider by provider and key by key, each with its own
      provider's name and model and the key at its place. */
  lemma {:induction false} CandidatesMeaning(providers: seq<ProviderCredential>, url: string) returns (at: seq<Place>)
    ensures OfferedAt(providers, url, Flattened(providers, url), at) && Ordered(at) && CoversAll(providers, at)
  {
    if providers == [] {
      at := [];
    } else {
      var n := |providers| - 1;
      var before := CandidatesMeaning(providers[..n], url);
      var keys := LastProvider(providers, url);
      OneMoreProvider(providers, url, Flattened(providers[..n], url), before, CandidatesOfOne(providers[n], url), keys);
      at := before + PlacesOf(n, keys);
    }
  }

  // ---- the dispatch ---------------------------------------------------------------------

  lemma OneMoreKey(cred: ProviderCredential, j: nat, url: string)
    requires cred.provider != OLLAMA && j < |cred.apiKeys|
    ensures CandidatesOfOne(cred.(apiKeys := cred.apiKeys[..j + 1]), url)
            == CandidatesOfOne(cred.(apiKeys := cred.apiKeys[..j]), url)
               + if cred.apiKeys[j] == "" then [] else [Candidate(cred.provider, cred.model, cred.apiKeys[j], url)]
  {
    assert cred.apiKeys[..j + 1][..j] == cred.apiKeys[..j];
  }

  method CandidatesOfKeys(cred: ProviderCredential, url: string) returns (candidates: seq<Candidate>)
    requires cred.provider != OLLAMA
    ensures candidates == CandidatesOfOne(cred, url)
  {
    candidates := [];
    for j := 0 to |cred.apiKeys|
      invariant candidates == CandidatesOfOne(cred.(apiKeys := cred.apiKeys[..j]), url)
    {
      OneMoreKey(cred, j, url);
      if cred.apiKeys[j] != "" {
        candidates := candidates + [Candidate(cred.provider, cred.model, cred.apiKeys[j], url)];
      }
    }
    assert cred.apiKeys[..|cred.apiKeys|] == cred.apiKeys;
  }

  method CandidatesOf(cfg: AgentConfig) returns (candidates: seq<Candidate>)
    ensures candidates == Flattened(cfg.providers, cfg.ollamaUrl)
  {
    candidates := [];
    for i := 0 to |cfg.providers|
      invariant candidates == Flattened(cfg.providers[..i], cfg.ollamaUrl)
    {
      var cred := cfg.providers[i];
      assert cfg.providers[..i + 1][..i] == cfg.providers[..i];
      if cred.provider == OLLAMA {
        candidates := candidates + [Candidate(OLLAMA, cred.model, "", cfg.ollamaUrl)];
        continue;
      }
      var more := CandidatesOfKeys(cred, cfg.ollamaUrl);
      candidates := candidates + more;
    }
    assert cfg.providers[..|cfg.providers|] == cfg.providers;
  }

  /** Every candidate failed, and the report says how, in order. */
  ghost predicate ReportsAll(candidates: seq<Candidate>, reply: nat -> Reply, attempts: seq<FailedAttempt>) {
    && |attempts| == |candidates|
    && forall i :: 0 <= i < |candidates| ==>
         reply(i).Fails? && attempts[i] == FailedAttempt(candidates[i].provider, reply(i).error)
  }

  lemma ReportsOneMore(candidates: seq<Candidate>, reply: nat -> Reply, attempts: seq<FailedAttempt>, i: nat)
    requires i < |candidates| && ReportsAll(candidates[..i], reply, attempts) && reply(i).Fails?
    ensures ReportsAll(candidates[..i + 1], reply,
                       attempts + [FailedAttempt(candidates[i].provider, reply(i).error)])
  {
    assert candidates[..i + 1] == candidates[..i] + [candidates[i]];
  }

  function Replies(reply: (nat, seq<ChatMessage>) -> Reply, messages: seq<ChatMessage>): nat -> Reply {
    (i: nat) => reply(i, messages)
  }

  function Ends(stream: (nat, seq<ChatMessage>) -> Stream, messages: seq<ChatMessage>): nat -> Reply {
    (i: nat) => stream(i, messages).end
  }

  /** What the caller of a dispatch over these candidates can rely on. */
  ghost predicate CompleteLaws(candidates: seq<Candidate>, reply: nat -> Reply, outcome: Outcome, tried: nat) {
    && tried <= |candidates|
    && (outcome == NotConfigured <==> candidates == [])
    // the first success wins; everyone before it was tried and failed
    && (forall i :: 0 <= i < tried - 1 ==> reply(i).Fails?)
    && (outcome.Answered? <==> tried > 0 && reply(tried - 1).Text?)
    && (outcome.Answered? ==> reply(tried - 1) == Reply.Text(outcome.text))
    // otherwise everyone failed, and the report lists exactly them
    && (outcome.Exhausted? ==> tried == |candidates| && ReportsAll(candidates, reply, outcome.attempts))
    && !outcome.Broken?
  }

  /** Ask candidate after candidate; `reply(i, messages)` is what the i-th one comes back with. */
  method Complete(cfg: AgentConfig, messages: seq<ChatMessage>, reply: (nat, seq<ChatMessage>) -> Reply)
    returns (outcome: Outcome, tried: nat)
    ensures CompleteLaws(Flattened(cfg.providers, cfg.ollamaUrl), Replies(reply, messages), outcome, tried)
  {
    var candidates := CandidatesOf(cfg);
    tried := 0;
    if |candidates| == 0 { return NotConfigured, 0; }
    var attempts: seq<FailedAttempt> := [];
    for i := 0 to |candidates|
      invariant tried == i == |attempts|
      invariant forall j :: 0 <= j < i ==> reply(j, messages).Fails?
      invariant ReportsAll(candidates[..i], Replies(reply, messages), attempts)
    {
      tried := i + 1;
      match reply(i, messages) {
        case Text(text) => return Answered(text), tried;
        case Fails(error) =>
          ReportsOneMore(candidates, Replies(reply, messages), attempts, i);
          attempts := attempts + [FailedAttempt(candidates[i].provider, error)];
      }
    }
    assert candidates[..|candidates|] == candidates;
    return Exhausted(attempts), tried;
  }

  /** A text the caller saw, and the candidate it came from. */
  datatype Delivery = Delivery(candidate: nat, text: string)

  function Deliveries(i: nat, chunks: seq<string>): seq<Delivery> {
    seq(|chunks|, k requires 0 <= k < |chunks| => Delivery(i, chunks[k]))
  }

  /** One candidate's texts, each noting that streaming has started. */
  method StreamOne(i: nat, s: Stream) returns (startedStreaming: bool, delivered: seq<Delivery>)
    ensures delivered == Deliveries(i, s.chunks)
    ensures startedStreaming <==> s.chunks != []
  {
    startedStreaming, delivered := false, [];
    for k := 0 to |s.chunks|
      invariant delivered == Deliveries(i, s.chunks[..k]) && startedStreaming == (k > 0)
    {
      startedStreaming := true;
      delivered := delivered + [Delivery(i, s.chunks[k])];
    }
    assert s.chunks[..|s.chunks|] == s.chunks;
  }

  /** The first n candidates fail without delivering anything. */
  ghost predicate SilentFailures(messages: seq<ChatMessage>, stream: (nat, seq<ChatMessage>) -> Stream, n: nat) {
    forall i :: 0 <= i < n ==> stream(i, messages).end.Fails? && stream(i, messages).chunks == []
  }

  /** What the caller of a streaming dispatch over these candidates can rely on. */
  ghost predicate StreamLaws(candidates: seq<Candidate>, messages: seq<ChatMessage>,
                             stream: (nat, seq<ChatMessage>) -> Stream, outcome: Outcome, delivered: seq<Delivery>,
                             tried: nat)
  {
    && tried <= |candidates|
    && (outcome == NotConfigured <==> candidates == [])
    // everyone before the last candidate tried failed without delivering anything
    && (tried > 0 ==> SilentFailures(messages, stream, tried - 1))
    // so all text ever delivered is the last candidate's
    && delivered == (if tried == 0 then [] else Deliveries(tried - 1, stream(tried - 1, messages).chunks))
    && (outcome.Answered? <==> tried > 0 && stream(tried - 1, messages).end.Text?)
    && (outcome.Answered? ==> stream(tried - 1, messages).end == Reply.Text(outcome.text))
    && (outcome.Broken? <==> tried > 0 && delivered != [] && stream(tried - 1, messages).end.Fails?)
    && (outcome.Broken? ==> stream(tried - 1, messages).end == Fails(outcome.error))
    && (outcome.Exhausted? ==> tried == |candidates| && delivered == [])
    && (outcome.Exhausted? ==> ReportsAll(candidates, Ends(stream, messages), outcome.attempts))
  }

  /** The candidate the dispatch stops at has answered, or broken off after delivering text. */
  lemma StopsHere(candidates: seq<Candidate>, messages: seq<ChatMessage>,
                  stream: (nat, seq<ChatMessage>) -> Stream, i: nat, outcome: Outcome)
    requires i < |candidates| && SilentFailures(messages, stream, i)
    requires match stream(i, messages).end
             case Text(text) => outcome == Answered(text)
             case Fails(error) => outcome == Broken(error) && stream(i, messages).chunks != []
    ensures StreamLaws(candidates, messages, stream, outcome, Deliveries(i, stream(i, messages).chunks), i + 1)
  {}

  /** Stream candidate after candidate, but never past one that has delivered text. */
  method StreamComplete(cfg: AgentConfig, messages: seq<ChatMessage>, stream: (nat, seq<ChatMessage>) -> Stream)
    returns (outcome: Outcome, delivered: seq<Delivery>, tried: nat)
    ensures StreamLaws(Flattened(cfg.providers, cfg.ollamaUrl), messages, stream, outcome, delivered, tried)
  {
    var candidates := CandidatesOf(cfg);
    if |candidates| == 0 { return NotConfigured, [], 0; }
    var attempts: seq<FailedAttempt> := [];
    for i := 0 to |candidates|
      invariant |attempts| == i
      invariant SilentFailures(messages, stream, i)
      invariant ReportsAll(candidates[..i], Ends(stream, messages), attempts)
    {
      var s := stream(i, messages);
      var startedStreaming, texts := StreamOne(i, s);
      match s.end {
        case Text(text) =>
          StopsHere(candidates, messages, stream, i, Answered(text));
          return Answered(text), texts, i + 1;
        case Fails(error) =>
          if startedStreaming {
            StopsHere(candidates, messages, stream, i, Broken(error));
            return Broken(error), texts, i + 1;
          }
          ReportsOneMore(candidates, Ends(stream, messages), attempts, i);
          attempts := attempts + [FailedAttempt(candidates[i].provider, error)];
      }
    }
    assert candidates[..|candidates|] == candidates;
    return Exhausted(attempts), [], |candidates|;
  }

  /** Streaming chat: the providers only ever see the normalised history. */
  method StreamChat(cfg: AgentConfig, ui: seq<ChatMessage>, options: Options, stream: (nat, seq<ChatMessage>) -> Stream)
    returns (outcome: Outcome, delivered: seq<Delivery>, tried: nat)
    ensures StreamLaws(Flattened(cfg.providers, cfg.ollamaUrl), Built(ui, options), stream, outcome, delivered, tried)
  {
    var messages := BuildMessages(ui, options);
    outcome, delivered, tried := StreamComplete(cfg, messages, stream);
  }
}
