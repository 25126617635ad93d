# A verified model of the ModelDispatcher gateway

The gateway sends a tenant's request to one of several language-model providers. It reserves token quota
before each attempt, rotates the keys pooled for a provider, retries or waits where that helps, falls back to
the next provider where it does not, and loops while the model asks for tools. This project models that engine
and a few neighbouring components in Dafny and proves what they guarantee.

How it is built:

* **Specification functions, then classes.** What one model turn does is a function on the state it changes
  (`Fallback.Execute`), and so is a whole agent run (`AgentTurns.Loop`). The classes that mutate an invocation
  context, a quota store and a conversation (`FallbackChain`, `AgentRun`, `QuotaStore`, `QuotaManager`) are proved
  equal to those functions, loops and all; the theorems are about the functions, for every input and every run.
* **Meanings.** Each operation's result is also stated in terms of its inputs alone, without the functions that
  specify it: `RecordTheorem` for agent runs, `CallsAreSent`, `EntriesTell` and `PausesAreRight` for turns,
  `DecideIsRight` for quota, `ContentsTheorem` for transcripts, and the lemmas whose names end in `Meaning`.
* **The outside world is an oracle.** `Env` answers the n-th provider call, yields the n-th clock reading (whole
  seconds, never decreasing where a lemma says so), estimates tokens, resolves credentials (any resolver; the
  gateway's own where a lemma says so) and speaks for the perimeter. `Host` additionally logs what the vendors
  saw and how long the chain slept. Raised exceptions are constructors of `Error`.
* **Ghost trails.** The context carries a trail of calls and a list of granted reservations. They are bookkeeping
  for statements: `AttemptTrail.TrailTheorem` ties the trail to the audit log, the vendors' log and the pauses;
  `Conservation.GrantsTheorem` ties the grants to the candidates called on and their estimates, and
  `Conservation.TurnConservation` ties those to the counters.

| file | subject |
|---|---|
| `Vocabulary`, `Text` | value objects; splitting, joining, trimming |
| `QuotaStore`, `QuotaManager`, `QuotaLedger` | tumbling windows, reserve/commit, all interleavings of many dispatches |
| `TurnLedger` | turns and runs of the chain as runs of that ledger |
| `Fallback`, `FallbackChain` | the four links and the chain: specification, classes |
| `AttemptTrail`, `CallRecords`, `Waiting`, `Conservation`, `RouteOrder`, `Denial`, `KeyRotation` | theorems about every run of one turn |
| `AgentTurns`, `AgentRun`, `RunRecords`, `Spill`, `Gemini` | the agent loop, its classes, the record of a run, a run that loses quota, and the adapter that reads transcripts |
| `Credentials`, `Routing`, `Redaction` | key pools, the router and registry, secret scrubbing |
| `LineStream`, `ChatHistory`, `BrowserDispatch` | the browser client |

Where the code and its own description differ, the model follows the code:

* A rate limit with nowhere else to go is described as retried up to `rate_limit_max_attempts` times
  (`src/model_dispatcher/fallback/handlers.py:272-283`), but the attempt loop ends at `max_attempts`. A pause is
  followed by another call exactly when attempts remain (`WaitIsForARetry`), so a rate-limit budget larger than the
  attempt budget pauses once in vain (`PauseInVain`) and one within it never does (`NoPauseInVain`). The gateway sets
  the attempt budget only (`src/model_dispatcher/gateway.py:178`), so one of 1 or 2 is smaller than the default
  rate-limit budget of 3.
* Commit is described as keeping counters from drifting. A settlement in a later period than its reservation moves
  the later period's counter only, and a reservation abandoned by fallback is never returned: `LedgerTheorem`,
  `RunConservation` and `MinuteCanExceedDay` state the ledger as it is, and `AbandonedStaysCharged` exhibits a run
  that reports 30 tokens and charges 130. Without rollover, accounting is exact if and, where estimates are
  positive, only if no turn calls on a second candidate (`NothingAbandoned`).
* Call ids made for Gemini need not be unique within a message, because ids of the vendor's own are taken as they
  come (`VendorIdCanCollide`). They are exactly if no such id is used twice or equals the id minted for another part
  (`IdsAreDistinct`), so always if the vendor sends none (`MintedIdsAreDistinct`). Every result goes back under
  the right name exactly if clashing calls of one reply call the same tool (`NamesTheorem`, `RoundTrip`).

## Model

| member | source | states |
|---|---|---|
| QuotaStore.ReadIsLoggedSum | src/model_dispatcher/quota/store.py:62-96 | after any history of increments and sweeps under a forward clock, a read is the sum of the amounts logged for that tenant and window in the current period |
| QuotaStore.ReadIsSpent | src/model_dispatcher/quota/store.py:20-96 | the same in seconds: the sum of the increments of that tenant and window whose clock is in the same 60-second stretch as the read, for the day window the same 86,400-second one |
| QuotaStore.ReadsDependOnOwnIncrements | src/model_dispatcher/quota/store.py:72-96 | histories that agree on one counter's increments read alike there: sweeps and other tenants or windows are unobservable |
| QuotaStore.InMemoryQuotaStore.Read | src/model_dispatcher/quota/store.py:72-77 | returns that counter, 0 for a bucket of another period |
| QuotaStore.InMemoryQuotaStore.Incr | src/model_dispatcher/quota/store.py:79-86 | returns the old reading plus the amount, stores it under the current period and logs exactly one increment |
| QuotaStore.InMemoryQuotaStore.ResetExpired | src/model_dispatcher/quota/store.py:88-96 | keeps exactly the buckets of the current period |
| QuotaManager.DecideIsRight | src/model_dispatcher/quota/manager.py:77-110 | a denial exactly when what the counter shows plus one request exceeds requestsPerMin, or plus the estimate tokensPerMin or tokensPerDay, naming the first such window in that order; otherwise a warning naming the last window past its share of the cap |
| QuotaManager.QuotaManager.Check | src/model_dispatcher/quota/manager.py:77-110 | the method returns that verdict, stated likewise in the quota's own fields |
| QuotaManager.QuotaManager.Reserve | src/model_dispatcher/quota/manager.py:60-121 | that verdict; unless denied, the tenant's request counter rises by one and both token counters by the estimate, and no other tenant's moves |
| QuotaManager.QuotaManager.Commit | src/model_dispatcher/quota/manager.py:123-139 | both token counters move by actual minus reserved, the request counter and other tenants' not at all |
| QuotaLedger.StepKeeps | src/model_dispatcher/quota/manager.py:60-139 | each atomic reserve, commit or sweep keeps every counter equal to its book balance and within its cap plus overruns |
| QuotaLedger.EveryInterleavingConsistent | src/model_dispatcher/quota/manager.py:60-139 | so does every interleaving of any number of dispatches |
| QuotaLedger.LedgerTheorem | src/model_dispatcher/quota/manager.py:80-139 | a counter is uncommitted reservations plus settled actuals plus late corrections; requests stay in [0, requestsPerMin], minute tokens at most tokensPerMin and day tokens at most tokensPerDay plus this period's overruns, and above minus the late refunds |
| QuotaLedger.TwoWindowTheorem | src/model_dispatcher/quota/store.py:25-29 | the day counter is the sum of that day's minutes; the minute exceeds it by at most what settlements in today's other minutes gave back on earlier days' reservations, so never unless one is settled across midnight |
| QuotaLedger.MinuteCanExceedDay | src/model_dispatcher/quota/manager.py:135-139 | across midnight it can: minute 10, day -90 |
| TurnLedger.TurnIsSteps | src/model_dispatcher/fallback/handlers.py:213-230 | a turn of the chain is a run of the ledger from wherever its store stands: one booking per grant, the last one settled at the answer's usage exactly if the turn is answered |
| TurnLedger.RunIsSteps | src/model_dispatcher/orchestration/loop.py:68-80 | so is an agent run |
| TurnLedger.RunWithinBounds | src/model_dispatcher/quota/manager.py:80-139 | a run over a store brought about by any interleaving of dispatches leaves every tenant's counters within the same bounds, in the quota's own fields |
| Denial.PerimeterComesFirst | src/model_dispatcher/fallback/handlers.py:162-165 | a routed request is refused exactly when the perimeter does not admit it; then nothing is called, reserved or consumed |
| Denial.NoCredentialStops | src/model_dispatcher/fallback/handlers.py:185-193 | a candidate without a credential ends the turn, naming it, with nothing called, reserved or changed |
| FallbackChain.FallbackChain.AttachCredentials | src/model_dispatcher/fallback/handlers.py:185-193 | attaches the current candidate's resolved pool, or raises if there is none |
| FallbackChain.FallbackChain.ReserveQuota | src/model_dispatcher/fallback/handlers.py:213-230 | reserves the estimate and keeps the decision, or takes the denial path |
| FallbackChain.FallbackChain.OnDenied | src/model_dispatcher/fallback/handlers.py:236-256 | falls back only for a zero-setup tenant with a free candidate left; else a hand-off with 429 for per-minute windows and 402 for the day |
| FallbackChain.FallbackChain.Invoke | src/model_dispatcher/fallback/handlers.py:313-349 | the nested key and attempt loops make exactly the specified calls, records, pauses and settlement |
| FallbackChain.FallbackChain.CallOnce | src/model_dispatcher/fallback/handlers.py:324-346 | one call, its record, and what follows it |
| FallbackChain.FallbackChain.OnSuccess | src/model_dispatcher/fallback/handlers.py:390-407 | records the success and settles the reservation against reported usage |
| FallbackChain.FallbackChain.OnError | src/model_dispatcher/fallback/handlers.py:409-466 | records the failure and chooses between retry, moving on and abort |
| FallbackChain.FallbackChain.Attempt | src/model_dispatcher/fallback/handlers.py:324-346 | each call advances the specified trail of its candidate, or concludes it |
| FallbackChain.FallbackChain.Recover | src/model_dispatcher/fallback/handlers.py:329-345 | records the call with the pause chosen for it, pauses before a retry and only then; with a hint h the pause is h + 1 seconds, or rateLimitMaxWait if that is less |
| FallbackChain.FallbackChain.Execute | src/model_dispatcher/fallback/chain.py:40-68 | walks the links, consumes a candidate per fallback, stops on success, stop, exception or exhaustion |
| FallbackChain.InvocationContext.ResetCandidateState | src/model_dispatcher/fallback/handlers.py:122-125 | clears credentials and reservation |
| AttemptTrail.CandidateTrail | src/model_dispatcher/fallback/handlers.py:320-349 | the calls made on one candidate obey the grammar, start at its first key, and their last one determines how it ends |
| AttemptTrail.TrailTheorem | src/model_dispatcher/fallback/chain.py:57-68 | every turn: logs and pauses match the trail; calls go to routed candidates with their own pool; each call may only be followed as its error class, attempt, remaining keys and candidates allow; the outcome is read off the last call |
| AttemptTrail.AuditTheorem | src/model_dispatcher/fallback/handlers.py:398-441 | entries name the candidates called, in order; an error-free one exists exactly when the turn succeeded, and is then the last |
| AttemptTrail.InnerCallsFailed | src/model_dispatcher/fallback/handlers.py:459-466 | INVALID and CONTENT are always final; AUTH is followed only by another key of the same candidate |
| AttemptTrail.OneEntryPerCall | src/model_dispatcher/fallback/handlers.py:324-328 | one audit entry per call, except for a last call that raised a library error |
| CallRecords.CallsAreSent | src/model_dispatcher/fallback/handlers.py:318-328 | the vendors' log gains one entry per call, in order: the routed candidate's provider, the raw key at that place of its resolved pool (none if it resolved none), and the turn's own request |
| CallRecords.EntriesTell | src/model_dispatcher/fallback/handlers.py:390-441 | each audit entry tells of its call: the provider's name, the reference of the credential used, and the class and detail of the error it met, if any |
| CallRecords.PausesAreSlept | src/model_dispatcher/fallback/handlers.py:329-345 | the gateway sleeps exactly the pauses of its calls, each in its place |
| AttemptTrail.CallsAreOrdered | src/model_dispatcher/fallback/handlers.py:318-349 | calls are ordered by candidate, then key, then attempt |
| AttemptTrail.TurnBudget | src/model_dispatcher/fallback/handlers.py:320-349 | a turn calls at most keys times max attempts per candidate, summed |
| Waiting.WaitsAreBounded | src/model_dispatcher/fallback/handlers.py:443-488 | pauses follow transient failures or a rate limit on the last key of the last candidate, never exceed the larger ceiling, never undercut a rate limit's hint |
| Waiting.PausesAreRight | src/model_dispatcher/fallback/handlers.py:468-488 | the exact length of every pause of every run: after a failure with hint h it is h + 1 seconds, otherwise the base doubled once for each earlier attempt; where the maximum for hints, or the cap, is less, it is that |
| Waiting.PauseInBlock | src/model_dispatcher/fallback/handlers.py:488 | the exact exponential pause before a retry that follows hint-free transient failures, whatever the retry comes back with |
| Waiting.TransientTotal | src/model_dispatcher/fallback/handlers.py:443-488 | n calls, all but the last failing transiently without a hint: the pauses between them total at most base*(2^(n-1)-1) and (n-1)*cap |
| Waiting.RetryPausesAreBounded | src/model_dispatcher/fallback/handlers.py:323-345 | the same for any such stretch of calls with one key in any turn |
| Waiting.WaitIsForARetry | src/model_dispatcher/fallback/handlers.py:323-349 | a pause is followed by the same key again exactly when attempts remain |
| Waiting.NoPauseInVain | src/model_dispatcher/fallback/handlers.py:270-283 | with the rate-limit budget within the attempt budget, every pause leads to a retry |
| Waiting.PauseInVain | src/model_dispatcher/fallback/handlers.py:450-458 | a turn whose only candidate has one key and is always rate-limited makes as many calls as both budgets allow, but one in any case; it pauses after each within the rate-limit budget, so after the last one exactly if that budget is the larger |
| Conservation.GrantsTheorem | src/model_dispatcher/fallback/handlers.py:213-230 | a turn's reservations are at the candidates' own estimates, in route order, one per candidate; where an attempt is allowed, they belong to exactly the candidates called on, so the last one of an answered turn is the answerer's |
| Conservation.TurnConservation | src/model_dispatcher/fallback/handlers.py:404-407 | one turn charges the answer's usage plus the estimates of the candidates called on and left behind; a failed turn keeps every such estimate charged; each candidate called on costs one request |
| Conservation.TurnFrame | src/model_dispatcher/fallback/handlers.py:213-230 | no other tenant's counter moves |
| RouteOrder.PassedOverWereDenied | src/model_dispatcher/fallback/handlers.py:219-256 | every candidate before the one a turn ends at held a reservation of its own, unless the tenant is zero-setup and it was refused one |
| RouteOrder.NobodyPassedOver | src/model_dispatcher/fallback/chain.py:57-68 | the turn of a tenant that is not zero-setup calls on the candidates in route order from the first, leaving out nobody |
| RouteOrder.ExhaustedExactly | src/model_dispatcher/fallback/chain.py:46-68 | a turn ends exhausted exactly when it has consumed every candidate, and reports no route exactly when there was none |
| Denial.DenialStaysFree | src/model_dispatcher/fallback/handlers.py:243-256 | on a tier-sorted list a denied round raises, or moves a zero-setup tenant from one free candidate to another, changing no counter |
| Denial.DenialEndsInHandoff | src/model_dispatcher/fallback/handlers.py:219-256 | with equal estimates and no rollover, the first denial ends the turn: no call, no charge, hand-off naming the last free candidate (or the head), status by the first breached window |
| Denial.DenialHandsOff | src/model_dispatcher/fallback/handlers.py:236-256 | a denial that cannot move on raises a hand-off naming the current candidate, with 429 and 402 told apart by the per-minute caps and the message by the tenant's setup |
| Denial.SoftLimitWarns | src/model_dispatcher/fallback/handlers.py:213-230 | a reservation that takes a window past its share of the cap leaves one warning, naming the last such window |
| KeyRotation.KeysFormPrefix | src/model_dispatcher/fallback/handlers.py:318-346 | one candidate's calls use a prefix of its pool, in order |
| KeyRotation.KeyCallsAreABlock | src/model_dispatcher/fallback/handlers.py:323-340 | the calls with one key are consecutive, attempts counting up from one |
| KeyRotation.PooledKeysAreSent | src/model_dispatcher/security/credentials.py:114-126 | each call to a vendor with a usable pooled key carries the visitor's own key at its place in the rotation, trimmed and split at commas, unchanged if poolable |
| Credentials.ResolveMeaning | src/model_dispatcher/security/credentials.py:97-161 | for any provider named by a family, alone or before a colon: the keys under user_key:<family>, else under tenant_key:<family>, each as a credential of that source under the provider's full name, its reference ending in the key's last four characters; else a keyless one on the free tier, the shared one for a zero-setup tenant, or none |
| Credentials.KeysMeaning | src/model_dispatcher/security/credentials.py:164-172 | the keys of a metadata value are its comma-separated pieces that are not blank, in order, without the space around them |
| Credentials.ResolveCandidates | src/model_dispatcher/security/credentials.py:97-161 | never an empty pool; raises only for a paid provider and a tenant that is not zero-setup |
| Credentials.SplitOfJoin | src/model_dispatcher/security/credentials.py:164-172 | splitting a joined pool is splitting each key |
| Credentials.PoolRoundTrip | src/model_dispatcher/byok/registry.py:76-85 | a pool comes back unchanged exactly when every key is non-empty, comma-free and trimmed |
| Credentials.CarriedKeysResolve | src/model_dispatcher/security/credentials.py:114-126 | pooled keys resolve as USER credentials in order, whatever else the metadata holds |
| Credentials.BroughtKeysResolve | src/model_dispatcher/security/credentials.py:114-161 | with pooled keys as the only metadata, a vendor without a usable one falls through the precedence; poolable keys come unchanged |
| AgentRun.ToolRegistry.Register | src/model_dispatcher/orchestration/tools.py:45-47 | adds a tool or replaces the one of its name |
| AgentRun.ToolExecutor.Execute | src/model_dispatcher/orchestration/tools.py:72-91 | total: the specified result for unknown, handler-less, failing and working tools |
| AgentTurns.ExecuteTool | src/model_dispatcher/orchestration/tools.py:72-91 | every result carries its call's id |
| AgentRun.ConversationState.Append | src/model_dispatcher/orchestration/state.py:42-44 | appends one message |
| AgentRun.ConversationState.AddUsage | src/model_dispatcher/orchestration/state.py:46-48 | adds to the running usage |
| AgentRun.AgentLoop.Run | src/model_dispatcher/orchestration/loop.py:40-80 | the loop, its transcript, usage, steps, outcome and every effect on quota and vendors are the specified ones |
| AgentRun.AgentLoop.DispatchTurn | src/model_dispatcher/orchestration/loop.py:118-133 | runs the chain on a fresh context with its own copy of the candidates, asking with all messages so far, the conversation's tenant and tools and no tier hint |
| AgentRun.AgentLoop.TakeTurn | src/model_dispatcher/orchestration/loop.py:72-73 | one dispatched turn, absorbed exactly if it was answered |
| AgentRun.AgentLoop.RunToolCalls | src/model_dispatcher/orchestration/loop.py:165-171 | appends the results of the calls in order |
| AgentRun.AgentLoop.Finish | src/model_dispatcher/orchestration/loop.py:186-203 | assembles the result with the last assistant message |
| AgentTurns.TranscriptTheorem | src/model_dispatcher/orchestration/loop.py:65-80 | the transcript is the opening plus, per turn, the assistant message and exactly its results in order; usage sums the steps; COMPLETED iff the last turn asked for no tool, MAX_ITERATIONS iff all allowed turns ran and all did |
| AgentTurns.FinalMessageIsLast | src/model_dispatcher/orchestration/loop.py:186-203 | the final message is the last turn's answer |
| AgentTurns.RunBudget | src/model_dispatcher/orchestration/loop.py:68-80 | a run makes at most max_iterations turn budgets of calls, candidates being copied per turn |
| RunRecords.RecordTheorem | src/model_dispatcher/orchestration/loop.py:65-80 | a finished run from its inputs: turn k asks with the tenant, the tools, no tier hint and the prefix of the transcript that ends where turn k begins; each call is answered by what its tool gave or raised, or by why it could not run; prompt and completion usage are the sums over the steps; the final message is the last of the assistant's; it stops for the deadline only if that has passed; its calls are what the vendors saw and its steps' audit logs record |
| AgentTurns.RunConservation | src/model_dispatcher/orchestration/loop.py:66-80 | a run that returns raises the token counters by its usage plus the estimates of the candidates called on and left behind in any turn, and requests by the number of candidates called on |
| AgentTurns.FailedRunConservation | src/model_dispatcher/orchestration/loop.py:66-80 | a run that fails charges its answered turns likewise, plus the estimate and the request of every candidate the failing turn called on |
| AgentTurns.NothingAbandoned | src/model_dispatcher/quota/manager.py:112-139 | the rise is exactly the reported usage (one request per step) if every turn called on one candidate only; for requests, and for tokens where estimates are positive, only then |
| Spill.AbandonedStaysCharged | src/model_dispatcher/fallback/handlers.py:122-125 | a run whose first vendor's quota is used up and whose second answers for 30 tokens charges 130 |
| Gemini.BuildContents | src/model_dispatcher/providers/gemini_provider.py:139-198 | the loop yields one content per non-system message and as system text the non-empty system messages joined by newlines |
| Gemini.ContentsTheorem | src/model_dispatcher/providers/gemini_provider.py:139-198 | message by message, for any request: a plain user message becomes a user content of its text, an assistant's a model content of its text and then each call's name and arguments in order, a tool result a user content with its error flag, its text and the name last given to its call id before it |
| Gemini.TurnContents | src/model_dispatcher/providers/gemini_provider.py:159-189 | whatever was seen before, one turn becomes its message followed by its results in order, content and error flag intact, all named right exactly when its calls sharing an id share a name |
| Gemini.NamesTheorem | src/model_dispatcher/providers/gemini_provider.py:153-198 | the same for whole transcripts of the loop, ids repeating freely across turns |
| Gemini.ToMessage | src/model_dispatcher/providers/gemini_provider.py:202-223 | the reply's texts joined and its calls in order, ids minted from the part index where missing |
| Gemini.MessageMeaning | src/model_dispatcher/providers/gemini_provider.py:202-223 | an assistant message of all the parts' texts together and one call for each textless part that is a call, in order, under the vendor's id or "call_" and the part's index |
| Gemini.ContentOfReply | src/model_dispatcher/providers/gemini_provider.py:219-223 | the message is without content exactly when no part is text |
| Gemini.IdsAreDistinct | src/model_dispatcher/providers/gemini_provider.py:207-217 | a reply's call ids are distinct exactly when no vendor id is used twice or equals the id minted for another part |
| Gemini.RoundTrip | src/model_dispatcher/providers/gemini_provider.py:153-217 | in any transcript of the loop made of such replies, every result goes back under its call's name exactly when clashing calls of one reply call the same tool |
| Gemini.MintedIdsAreDistinct | src/model_dispatcher/providers/gemini_provider.py:207-217 | in particular, a vendor that sends no ids gets distinct ones |
| Gemini.VendorIdCanCollide | src/model_dispatcher/providers/gemini_provider.py:211 | a vendor id can equal a minted one |
| Routing.SortIsTheStableSort | src/model_dispatcher/providers/registry.py:55-62 | the tier order is the unique stable sort |
| Routing.FilterCommutesWithSort | src/model_dispatcher/routing/router.py:49-53 | filtering by capability commutes with sorting |
| Routing.RaisingTheFloor | src/model_dispatcher/routing/router.py:44-53 | a higher floor leaves a suffix of the untruncated list |
| Routing.StayingIsAPrefix | src/model_dispatcher/routing/router.py:55-56 | without escalation the list is a prefix of the escalating one |
| Routing.RouteMeaning | src/model_dispatcher/routing/router.py:26-66 | exactly the registered providers with a tier from the policy's floor and the hint up (no higher than the larger without escalation) and with tools if the request has any, by tier and then by registration, cut to max_candidates as a slice cuts, also for a negative number |
| Routing.RouteLaws | src/model_dispatcher/routing/router.py:26-58 | none of those left out is cheaper than one kept, the head being the cheapest capable provider |
| Routing.ProviderRegistry.Register | src/model_dispatcher/providers/registry.py:35-37 | replaces in place or appends, names staying unique |
| Routing.ProviderRegistry.FindCheapest | src/model_dispatcher/providers/registry.py:64-77 | an eligible provider no eligible one undercuts, or none if there is none |
| Redaction.ScrubTextTheorem | src/model_dispatcher/security/redaction.py:26-30 | no substring of the output matches the secret pattern; exactly clean texts are unchanged |
| Redaction.NoMatchIsClean | src/model_dispatcher/security/redaction.py:26-30 | the greedy ordered matcher finds nothing anywhere exactly when no substring is in the pattern's language |
| Redaction.SecretIsWritten | src/model_dispatcher/security/redaction.py:26-30 | the pattern's language spelled out: sk- and 16 or more alphanumerics, Bearer, space and 16 or more token characters, or 32 or more blob characters |
| Redaction.MatchMeaning | src/model_dispatcher/security/redaction.py:26-30 | at each place the longest key is matched, else the longest bearer token, else the longest blob |
| Redaction.ScrubReplaces | src/model_dispatcher/security/redaction.py:60-62 | scrubbing replaces the leftmost matches that do not overlap and nothing else |
| Redaction.ScrubTheorem | src/model_dispatcher/security/redaction.py:44-58 | nested values come out clean, with structure and keys kept, unchanged exactly if already clean |
| Redaction.ScrubMeaning | src/model_dispatcher/security/redaction.py:44-58 | value by value: a field whose key holds a sensitive word in any case becomes the sentinel whatever it was, and one whose key holds none keeps its scrubbed value |
| Redaction.SensitiveMeaning | src/model_dispatcher/security/redaction.py:19-23 | the search finds a key sensitive exactly if one of the words stands somewhere in it in some letter case |
| Redaction.SensitiveWordRedacts | src/model_dispatcher/security/redaction.py:50-52 | whatever stands before and after the word |
| Redaction.ScrubIsIdempotent | src/model_dispatcher/security/redaction.py:44-62 | scrubbing twice is scrubbing once |
| LineStream.ConsumeLines | clients/browser-agent/src/http.ts:80-92 | for every chunking, the newline-terminated lines of the whole text |
| LineStream.LinesMeaning | clients/browser-agent/src/http.ts:80-92 | those lines hold no newline and, each with one after it, make up the text but for a newline-free rest |
| LineStream.StreamOpenAICompatible | clients/browser-agent/src/providers/openaiCompatible.ts:65-89 | emissions and result depend on the concatenated text only; the result is the last emission or empty |
| LineStream.DeltaMeaning | clients/browser-agent/src/providers/openaiCompatible.ts:73-83 | a line adds the delta of the frame after "data: ", whatever space stands around it, and nothing if it begins otherwise or the frame is [DONE] or has none |
| LineStream.EmissionsMeaning | clients/browser-agent/src/providers/openaiCompatible.ts:73-88 | one emission for each line that adds text, of all deltas up to that line |
| LineStream.EmissionsGrow | clients/browser-agent/src/providers/openaiCompatible.ts:73-88 | each emission strictly extends the earlier ones; the last is all deltas |
| ChatHistory.BuildMessages | clients/browser-agent/src/messages.ts:32-61 | the merge loop computes the specified normalisation |
| ChatHistory.BuiltLaws | clients/browser-agent/src/messages.ts:32-61 | non-empty, user and assistant only, strictly alternating, user first or last as the option says |
| ChatHistory.MergeIsGrouping | clients/browser-agent/src/messages.ts:51-59 | merging is grouping into maximal runs, each joined by blank lines |
| ChatHistory.BuiltMeaning | clients/browser-agent/src/messages.ts:32-61 | the output from the input: contents trimmed and cut to 4000 characters, every role but the assistant's turned into the user's, empty and marker messages dropped, the filler placed last if forced or first before an assistant, and each maximal run of a role joined into one turn; the filler alone if nothing is left |
| ChatHistory.Idempotence | clients/browser-agent/src/messages.ts:38-60 | without a forced trailing filler, normalising again changes nothing exactly when each turn is within the limit, ends in a non-space and is not the marker to drop, save an opening filler that is itself dropped and put back |
| BrowserDispatch.CandidatesOf | clients/browser-agent/src/agent.ts:67-79 | every provider's usable keys in order, Ollama once without a key |
| BrowserDispatch.CandidatesMeaning | clients/browser-agent/src/agent.ts:67-79 | each candidate carries its provider's name and model and its own non-empty key, exactly one for each such key (one without a key for Ollama), by provider and then by key |
| BrowserDispatch.Complete | clients/browser-agent/src/agent.ts:112-130 | the first success wins; if all fail the report lists exactly them |
| BrowserDispatch.StreamComplete | clients/browser-agent/src/agent.ts:162-191 | all delivered text is the last tried candidate's; nobody is tried after text was delivered; exhaustion means nothing was |
| BrowserDispatch.StreamChat | clients/browser-agent/src/agent.ts:199-206 | all of that, over the normalised history |

## Left out

- Asynchronous twins (`aexecute`, `ahandle`, `arun`) and the thread bridge: same control flow as the synchronous forms.
- Clock readings inside one reserve or commit: the code reads the clock once per store access; the model takes one reading for the whole reserve or commit, so a window edge between two accesses is not captured. `QuotaStore` itself allows a reading per access.
- Dynamic dispatch over handler objects: links are a tag (`HandlerKind`), since their set is fixed by the gateway; the chain still runs any sequence of them.
- Perimeter checks: an arbitrary predicate on request and tenant.
- Vendor SDK calls, error classification and retry-hint parsing: each failing call carries its class and optional hint.
- Tool handlers: the n-th execution returns a text or raises, by oracle; tool specifications are passed through, and their registration order is not modelled.
- The run's deadline: an arbitrary predicate on the turn number, instead of a comparison with the clock.
- Thread-level races inside the in-memory store: reserve and commit are atomic steps.
- Token estimation, cost accounting, metrics, triage scoring and the HTTP layer.
- LineStream.ConsumeLines: works on characters, so incremental UTF-8 decoding is not modelled; a read error in mid-stream is the caller's `Stream` ending in failure in `BrowserDispatch`.
- LineStream.StreamOpenAICompatible: what a frame's JSON contributes is an arbitrary function; the other vendors' accumulators have the same shape.
- ChatHistory.BuildMessages: lengths count characters, not UTF-16 code units; an absent content is the empty text.
- Redaction.ScrubTheorem: keys themselves are not scrubbed by the code, so a secret used as a key survives; the theorem speaks of values.
- Float rounding: delays and the soft-limit ratio are reals, tokens integers.
