# StreamGuard: a verified model of the streaming gateway

StreamGuard forwards a chat completion from one of several providers to a client as server-sent
events. When a provider fails in mid-stream the gateway tells the client, gives back the tokens the
failed attempt had reserved and starts again on the next provider whose circuit breaker admits it.
This project models that cascade and the data structures under it in Dafny, and proves what holds of
every run.

`dafny verify dfyconfig.toml` checks everything.

## How the model is built

- **The cascade** (`Gateway`, `System`). Any number of streams of one key run against one token
  budget, one rate limiter, one circuit breaker per provider, one clock and one ledger. Each stream is
  a program counter with the local variables of the request handler; a step is one action on shared
  state (one locked breaker or limiter call, one load or compare-and-swap on the budget cell, one
  ledger write) or one answer of a provider or of the client's connection. A run is any list of labels:
  requests passing the budget check and then the limiter, steps of any stream in any order, clock
  ticks, breaker calls made for other keys, and expiry of the budget period. The
  theorems quantify over all such lists. The state also records what is only needed to state them:
  the attempts of a stream with the frames they took, the calls made on each breaker and on the
  limiter, and what a stream reserved, released and settled.
- **What a stream keeps** (`Accounting`, `Transcript`, `Reports`, `Metering`, `Clock`, `Hop`). The invariants of
  one stream and their sums over all streams: the wire grammar and the exact content of the wire, the
  books between reserved, released, billed and delivered tokens, the results reported to the breakers,
  the tokens metered by the limiter, the times of records and calls, and the announcement of the next
  provider.
- **The handler as loops** (`Handler`, `Cascade`). `handleStream`, `runAttempt` and
  `nextAttemptableProvider` as loops over local variables, with the session log updated in place. Every
  step of the loops is proved to be a step of the cascade, so a handled request is a run of the system
  and everything above holds of it.
- **The objects** (`Breaker`, `RateLimit`, `Ledger`, `Reconcile`, `Calibration`, `Auth`). Classes with
  the fields of the original, proved against functions of their state; the theorems are about whole
  call sequences. The limiter keeps its events in arrays that are compacted in place.
- **The wire** (`Protocol`, `Sse`, `SseProofs`, `Json`, `Printed`, `Wire`). Printers, framing loop, frame
  parser and the reference client's reader over characters. JSON is a parameter with two laws; `Json`
  writes the five objects the way Go's encoder does and shows that the laws can be met.
- **The providers' side of the wire** (`Texts`, `Feed`, `Upstream`). What the string functions of the
  parser mean, every event a provider can send under its own name, and the way from a provider's bytes
  to what an attempt counts.
- **Shutdown** (`Drain`) and **configuration** (`Providers`).
- **Where the guarantees end** (`Walk`, `Periods`, `Probes`, `Scenarios`). Exact conditions for a stream
  between two attempts, for the bill of a budget period and for a probe that is lost, and runs that
  show each shortfall.

Hypotheses that some theorems carry, and why:

- *Atomic hops.* The search for the next provider only looks at a closed breaker; admission comes
  later. What is said about the announced provider assumes that nothing else runs and the clock stands
  still in between (`Hop.Atomic`). Without that the announced provider may not be the one attempted:
  `Walk.StrandedExactly` gives, for a stream left alone in any state, the exact condition under which
  it attempts no provider and is never settled, and which provider it attempts otherwise;
  `Scenarios.InterferenceStrandsAnnouncement` is a run in which the condition holds.
- *Amounts.* A step whose 64-bit sum would overflow is not an execution: at each load of a reservation
  `TokensUsed` plus the amount, and the attempt's running count plus the amount, fit a 64-bit integer
  (`Gateway.LoadOk`). `System.LoadFitsWithoutReset` shows that without resets the second bound follows
  from the first and that amounts up to `MaxInt64 - TokenBudget` always fit; the handler's loops assume
  such amounts, or that all of a request's amounts fit beside the usage it starts with. `Budget.SoundIsExact` shows what happens above: a full key grants the request and its
  usage turns negative.
- *No reset.* The equations between usage and ledger, and that billed tokens stay within usage, are for
  runs in which the budget period does not expire; with resets the inequality of `System.Conservation`
  remains. Over any stretch between resets `Periods.PeriodBillBounded` bounds what is billed by the budget
  and what the streams held at its start; `Periods.OverbillsExactly` says that a period can bill more
  than its budget if and only if some stream holds tokens when it begins.
- *Plain periods.* A billing period contains no `|`: it is an RFC 3339 time, a slash and a duration. So
  the keys `hash|period` of the ledger are unambiguous for every hash (`Ledger.KeyInjective`).

Where the code and its documentation differ the model follows the code:

- `README.md:248` of the repository says `gateway_status` is emitted once at the start of a stream. It
  is missing if and only if every provider refuses the request (`Walk.StatusMissingExactly`), as in the
  run of `Scenarios.NoProviderNoStatus`; the wire is then a lone truncation.
- `README.md:293` says exactly one concurrent request becomes the half-open probe. What a claim excludes
  is exactly other claims until a result is recorded, by anyone (`Breaker.ClaimRefusedExactly`). In every
  configuration a late result lets two probes be out at once: `Scenarios.TwoProbesAtOnce`. And a probe
  may answer to nobody, so that no request of the key becomes one again: `Probes.ProbeLostExactly` gives
  the exact condition, `Probes.CancelledProbeIsLost` a run in every configuration.
- Usage of a key is expected to return to what the ledger billed. It does if and only if no attempt was
  cancelled by the client after delivering tokens, lost a write, or was corrected downward by a usage
  report (`System.AccountingGap`); `Scenarios.CancelledUsageStays` is a run in which it does not.

## Model

| member | source | states |
|---|---|---|
| System.Conservation | internal/server/server.go:202-262 | For any number of streams interleaved at load/compare-and-swap granularity, `TokensUsed` is the sum over streams of reserved minus released tokens when no period reset intervenes, and at most that with resets; the ledger holds exactly what the streams billed. |
| System.BilledWithinUsage | internal/budget/budget.go:17-46 | In every run without a reset, at every moment: billed tokens never exceed `TokensUsed`, which never exceeds the budget, and a release under way finds at least the tokens it gives back, so its floor at zero is never reached. |
| Periods.PeriodBillBounded | internal/server/server.go:202-262 | Over any stretch of any run without a reset in it, whatever resets came before: what is billed or stranded is at most the growth of usage plus what the streams held at its start and no longer hold at its end. |
| Periods.OverbillsExactly | internal/auth/auth.go:91-111 | After a reset, some continuation without another bills more than the budget if and only if some stream held tokens at the reset, reserved earlier and not yet billed, released or stranded; any reservation under way is taken to fit 64 bits. |
| Periods.SecondPeriodOverbills | internal/auth/auth.go:91-111 | In every configuration there is a run whose second period bills more than the budget. |
| System.AccountingGap | internal/server/server.go:205-237 | When all streams are done, usage exceeds the ledger total by exactly the tokens of client-cancelled attempts plus downward usage corrections plus reservations of failed writes; the two agree if and only if no attempt had any of these, after any number of superseded attempts. |
| System.UsageEqualsLedgerSummary | internal/ledger/ledger.go:73-91 | With none of these, usage equals the total the ledger reports for the key. |
| System.EntriesAreAttributed | internal/server/server.go:209-262 | In every run, at every moment, the provider tokens of every entry of a ledger holding the streams' records add up to exactly what the entry billed. |
| System.LoadFitsWithoutReset | internal/server/server.go:308-336 | Without a reset the running count of an attempt plus a reservation fits 64 bits whenever usage plus the reservation does, and amounts up to `MaxInt64 - TokenBudget` always fit. |
| Scenarios.CancelledUsageStays | internal/server/server.go:219-222 | In every configuration there is a run at rest without a reset with one token used and none billed. |
| System.DeliveredTotals | internal/server/server.go:238-262 | The running total is the sum of the counts of all attempts; the `tokens_delivered` of a truncation is the sum of `tokens_delivered_before_failure` over all failovers plus what the request was billed. |
| System.SettledExactlyOnce | internal/server/server.go:205-263 | A finished stream has exactly one ledger record unless the client cancelled it or an announced replacement was not admitted; the record's provider, tokens and truncated mark, and the truncation and reason the client sees, are those of the last attempt. |
| System.WireAlwaysInGrammar | internal/server/server.go:173-263 | Under any interference the wire is empty, a lone truncation, or status, content, numbered failovers each followed by a regenerating event, with nothing after a truncation; its failovers report the superseded attempts in order. |
| Scenarios.NoProviderNoStatus | internal/server/server.go:183-263 | In every configuration there is a run in which a stream receives nothing but a truncation. |
| System.LedgerIsProper | internal/server/server.go:209-262 | Every record the streams write is for their key, not negative, and names a provider when it bills tokens. |
| System.StepMovesBooks | internal/server/server.go:297-337 | Any step of the system moves the shared usage and the ledger by exactly what the streams' books moved, except that a release stops at zero and a reset stores zero. |
| Accounting.NextKeepsInv | internal/server/server.go:183-337 | Every step of the handler, on any input and any shared state within bounds, keeps the stream's wire, count and book invariants and posts to the shared state exactly what the books say. |
| Accounting.CountIsLastUsagePlusText | internal/server/server.go:296-336 | The token count of an attempt is its last usage value plus the counts of the text frames after it, or all text counts if no usage came. |
| Accounting.OpenWireIsPositional | internal/server/server.go:197-247 | The recursive wire grammar and its position-by-position reading agree: status exactly once and first, every failover numbered by its rank, preceded by output and immediately followed by its regenerating event. |
| Accounting.NetCovers | internal/server/server.go:237-262 | For every stream at every moment the net reservation covers bill and gap, exactly so once it has finished, and covers a release under way. |
| Accounting.LogTokens | internal/server/server.go:238-244 | The tokens that the failover events report add up to the counts of the superseded attempts. |
| Transcript.WireRetellsAttempts | internal/server/server.go:183-263 | Under any interference the wire is exactly the story of the attempts: the first provider's status, each attempt's texts in order, each superseded attempt's failover event with its reason, count and provider and a replacement of lower priority, and a truncation only at the end. |
| Transcript.StatusNamesFirst | internal/server/server.go:197-201 | The status event names the provider attempted first. |
| Reports.ReportsConserved | internal/server/server.go:183-235 | Every breaker is in the state its calls lead to; the failures and successes recorded on it, other keys' aside, are one for each attempt on that provider that failed, or that succeeded or ran out of budget, once handed on, and none for cancelled or shut-down attempts; its grants are the attempts, the unused claims, and the claims lost by claiming a provider twice, of which atomic hops have none. |
| Reports.NoUnclaimedAttemptInCoolDown | internal/breaker/breaker.go:68-154 | In the whole system, after a provider's breaker opened, not forced and before its time-out, a stream whose turn it is starts an attempt there if and only if it holds a claim granted before. |
| Metering.EveryReservationIsMetered | internal/server/server.go:308-330 | At every moment of every run the limiter has been told of exactly the tokens the streams reserved, once each, but for those whose compare-and-swap has just succeeded. |
| Metering.AdmissionSeesTheWindow | internal/server/server.go:158-165 | A request that passed the budget check becomes a stream if and only if the tokens metered for the key in `(now - window, now]`, straight from the history, are below the limit. |
| Clock.RecordsAreStamped | internal/server/server.go:205-262 | Every ledger record, which its time assigns to a billing period, was written by one step of the run and carries the clock of that step: the start plus the time that had passed. |
| Clock.BreakerCallsAreStamped | internal/breaker/breaker.go:140-154 | Every call on a breaker was made by one step of the run and carries its clock, so the laws of the breaker speak of the system's own time. |
| Clock.StepStamps | internal/server/server.go:162-330 | A step adds at most one record, limiter call or call on each breaker, each with the time of the clock, and only the clock's own step moves the clock. |
| Clock.EntersExactly | internal/server/server.go:158-165 | A request passes the budget check if and only if usage is below the budget, and changes nothing else; the limiter answers each such request once. |
| Clock.OverBudgetExactly | internal/budget/budget.go:17-30 | In any run, a step ends an attempt for its budget if and only if it is the load of a reservation that does not fit beside the usage it loads; a lost compare-and-swap never does. |
| Hop.AnnouncedProviderIsAttempted | internal/server/server.go:183-263 | With atomic hops each failover event names the provider attempted before it and the one attempted next; at most the announced provider is claimed and nothing at exit; failovers are attempts minus one; providers strictly ascend; every run the client did not cancel settles once. |
| Hop.HopPicksFirst | internal/server/server.go:442-456 | With atomic hops the search settles on the first provider that can be attempted and gives up only when the breakers of all remaining ones would refuse. |
| Hop.AttemptsFollowPriority | internal/server/server.go:429-440 | Attempted providers have strictly ascending configured priorities and no repeats, whatever the interference. |
| Walk.StrandedExactly | internal/server/server.go:183-264 | In any state of any run: a stream whose attempt was announced as replaced, left alone, ends with no ledger record and no truncation if and only if every provider left would refuse it and it holds no claim; otherwise it attempts the first of which this is not so, which is the announced one if and only if that is the first. |
| Walk.StatusMissingExactly | internal/server/server.go:183-263 | A stream that attempted nothing yet, left alone, receives a lone truncation if and only if every provider left would refuse it; otherwise its status names the first that would not. |
| Scenarios.InterferenceStrandsAnnouncement | internal/server/server.go:235-264 | In every configuration with two providers there is a run that announces a provider, attempts no second one, and ends with neither truncation nor ledger record. |
| Gateway.NextKeepsShape | internal/server/server.go:183-337 | At every program point the current attempt's outcome and the order of superseded attempts are as the handler's control flow implies. |
| Handler.Request.constructor | internal/server/server.go:166-181 | A new request is a new stream with an empty session log. |
| Handler.Request.HandleStream | internal/server/server.go:173-264 | The provider loop, whatever the providers and the client do: its steps are steps of the cascade from a new stream to a finished one; the client was sent the stream's wire; the session logs each attempt with its outcome and tokens, its final provider, final token count and status; each attempt took its provider's frames. |
| Handler.Request.RunAttempt | internal/server/server.go:296-338 | The attempt loop takes the provider's frames in order and ends with its outcome unless a reservation did not fit the budget or a write failed; the result is the last usage value among the frames taken plus, for each text after it, the tokenizer's own count, or one where that is zero. |
| Handler.TakenCount | internal/server/server.go:308-336 | The count of the frames taken, from the tokenizer's own counts: the last usage value, the counts of the texts after it, and one for each of those counted zero. |
| Handler.Request.Meter | internal/server/server.go:314-330 | The limiter is told of a granted reservation before its tokens are counted. |
| Handler.Request.NextAttemptableProvider | internal/server/server.go:442-456 | The search loop over the breakers, with the probe it claims. |
| Handler.Request.TryReserve | internal/budget/budget.go:17-30 | Undisturbed, a reservation is granted exactly if it fits the budget, and only then counted. |
| Handler.Request.Release | internal/budget/budget.go:32-46 | Undisturbed, a release gives back the superseded attempt's tokens and the attempt is announced as replaced. |
| Handler.HandledRequestIsARun | internal/server/server.go:124-264 | A request handled alone from any reachable state that admits it ends in a reachable state with its stream added. |
| Handler.HandlingIsARun | internal/server/server.go:124-264 | A request handled from a state in which a reachable system admits it has taken that system to a reachable state, with its stream the newest and the shared state the one the handler left. |
| Cascade.Session.StartAttempt | internal/cascade/cascade.go:42-48 | Appends an unfinished attempt and returns its index. |
| Cascade.Session.FinishAttempt | internal/cascade/cascade.go:50-57 | Finishes exactly the attempt at the index, and changes nothing for an index out of range. |
| Budget.UsageStaysInBounds | internal/budget/budget.go:17-46 | Under every interleaving of the micro-steps of `TryReserve`, `Release` and resets, also a reset between a load and its compare-and-swap, usage stays between zero and the budget. |
| Budget.SoundIsExact | internal/budget/budget.go:23-27 | 64-bit amounts are harmless at every usage level if and only if they are at most `MaxInt64 - TokenBudget`; above that a full key grants them and its usage turns negative. |
| Budget.ReserveStepSound | internal/budget/budget.go:17-30 | One micro-step of a reservation keeps usage within bounds; it adds the amount exactly when it is granted, is granted exactly by a compare-and-swap that finds what was loaded, and refused exactly at a load beside which the amount does not fit. |
| Budget.ReleaseStepSound | internal/budget/budget.go:32-46 | One micro-step of a release keeps usage within bounds, is never refused, and subtracts the amount, but not below zero, exactly when it completes, which it does when the compare-and-swap finds what was loaded. |
| Auth.Store.Add | internal/auth/auth.go:49-74 | A key is stored unused if and only if key and allowlist are not empty and the budget is not negative; otherwise nothing changes. |
| Auth.Store.ResetExpired | internal/auth/auth.go:91-111 | Exactly the records with a period that has run out get usage zero and the time of the sweep as their start, all else is unchanged, and their number is returned. |
| Auth.RenewalsArePeriodApart | internal/auth/auth.go:91-111 | With a clock that does not go back, two resets of a key lie at least a period apart, however often the sweep runs. |
| Breaker.Normalize | internal/breaker/breaker.go:33-42 | The result is valid; it is the given configuration exactly if that is valid; each unusable field, and no other, gets its default. |
| Breaker.ProviderCircuitState.constructor | internal/breaker/breaker.go:33-49 | A new breaker is closed, with the normalised settings. |
| Breaker.ProviderCircuitState.GetState | internal/breaker/breaker.go:51-56 | One locked call moves the fields as its function of the state does, to which all the laws over call sequences below apply. |
| Breaker.ProviderCircuitState.ForceState | internal/breaker/breaker.go:58-66 | One locked call moves the fields as its function of the state does, to which all the laws over call sequences below apply. |
| Breaker.ProviderCircuitState.TryClaimProbe | internal/breaker/breaker.go:68-77 | One locked call moves the fields and answers as its function of the state does, to which all the laws over call sequences below apply. |
| Breaker.ProviderCircuitState.AllowAttempt | internal/breaker/breaker.go:79-97 | One locked call moves the fields and answers as its function of the state does, to which all the laws over call sequences below apply. |
| Breaker.ProviderCircuitState.RecordSuccess | internal/breaker/breaker.go:99-112 | One locked call moves the fields as its function of the state does, to which all the laws over call sequences below apply. |
| Breaker.ProviderCircuitState.RecordFailure | internal/breaker/breaker.go:114-127 | One locked call moves the fields as its function of the state does, to which all the laws over call sequences below apply. |
| Breaker.OpensExactly | internal/breaker/breaker.go:114-127 | Every move to Open starts the time-out; in an open circuit exactly a recorded failure with the failure counter at its threshold starts it anew. |
| Breaker.FailuresFollowHistory | internal/breaker/breaker.go:99-127 | In every state, after every call sequence, the failure counter is the number of failures recorded outside HalfOpen since the last success or forced state. |
| Breaker.SinceFollowsHistory | internal/breaker/breaker.go:58-154 | The time of the last change is that of the last call that moved or forced the state, or that was a failure in an open circuit with that number at the threshold. |
| Breaker.RestartsExactly | internal/breaker/breaker.go:114-127 | In an open circuit a failure restarts the time-out if and only if the failures recorded since the last success, with this one, reach the threshold. |
| Breaker.LeavesOpenExactly | internal/breaker/breaker.go:58-154 | Unless forced, Open is left if and only if a read or claim comes once the time-out has passed since the last change, for HalfOpen. |
| Breaker.GrantedExactly | internal/breaker/breaker.go:68-97 | After every call sequence a call is granted if and only if it is an attempt on a closed circuit, or an attempt or claim on one half open, or open past its time-out, with no earlier claim outstanding. |
| Breaker.CoolDown | internal/breaker/breaker.go:68-154 | With a clock that does not go back and no forced state, no call sequence makes a claim succeed before the time-out after a call that moved the circuit to Open or restarted its time-out. |
| Breaker.CoolDownIsExact | internal/breaker/breaker.go:140-154 | If only reads and claims follow such a call, a claim is granted if and only if the time-out has passed. |
| Breaker.ProbingImpliesHalfOpen | internal/breaker/breaker.go:58-154 | In every reachable state a held probe means HalfOpen. |
| Breaker.ProbeExclusive | internal/breaker/breaker.go:58-127 | Between a granted half-open claim and any later grant a result was recorded or the state forced. |
| Breaker.ProbingIsOutstandingClaim | internal/breaker/breaker.go:58-127 | After every call sequence the probe flag is set if and only if some granted half-open claim has had no result recorded and no forced state since. |
| Breaker.ClaimRefusedExactly | internal/breaker/breaker.go:68-97 | On a breaker that is half open when asked, a claim is refused if and only if an earlier one has had no result recorded since, by anyone. |
| Probes.ProbeLostExactly | internal/server/server.go:183-222 | A half-open breaker whose probe is claimed stays so in every continuation, however far the clock moves, in which other keys record nothing on it, if and only if no stream has an attempt on its provider whose result it can still hand on, or a claim on it that it can still use. |
| Probes.LostForEveryone | internal/server/server.go:183-222 | Then no stream of the key ever waits for or writes from that provider again. |
| Probes.CancelledProbeIsLost | internal/server/server.go:219-222 | In every configuration a run loses the probe of its first provider: its client cancels. |
| Breaker.LateResultFreesProbe | internal/breaker/breaker.go:99-111 | A success recorded while a probe is out that does not close the breaker lets the very next call claim another probe, whoever recorded it. |
| Scenarios.TwoProbesAtOnce | internal/breaker/breaker.go:68-127 | In every configuration there is a run that ends with two streams attempting one provider, each admitted as the probe of its half-open breaker. |
| Breaker.CountersFollowHistory | internal/breaker/breaker.go:99-127 | The counters equal the failures in a row since the last success or entry to Closed, and the successes since entering HalfOpen, both below their thresholds. |
| Breaker.LeavesClosedExactlyAtThreshold | internal/breaker/breaker.go:114-127 | Unless forced, Closed is left exactly at the threshold-th failure in a row, for Open. |
| Breaker.LeavesHalfOpenExactly | internal/breaker/breaker.go:99-127 | Unless forced, HalfOpen closes exactly at the threshold-th success since it was entered and reopens exactly at a failure. |
| RateLimit.Compact | internal/ratelimit/ratelimit.go:49-61 | The in-place loop leaves exactly the events after the cutoff at the front of the same array, in order, with their token sum. |
| RateLimit.Append | internal/ratelimit/ratelimit.go:45-46 | Appending in place or into a grown copy adds the event at the end. |
| RateLimit.Limiter.constructor | internal/ratelimit/ratelimit.go:20-28 | An empty history, with the defaults for unusable settings. |
| RateLimit.Limiter.PruneLocked | internal/ratelimit/ratelimit.go:49-61 | A key's survivors, in the key's own array or a fresh empty one, with their sum. |
| RateLimit.Limiter.Admit | internal/ratelimit/ratelimit.go:30-36 | Admits if and only if the surviving tokens are below the limit; the cache stays in agreement with the history of calls and other keys' slices are untouched. |
| RateLimit.Limiter.Add | internal/ratelimit/ratelimit.go:38-47 | The cache stays in agreement with the history extended by the call; other keys' slices are untouched. |
| RateLimit.CacheIsLiveEvents | internal/ratelimit/ratelimit.go:30-61 | For any calls in any clock order a key's slice holds exactly the events added for it whose time lies after `now - window` of every later call on the key. |
| RateLimit.AdmitSeesNaiveWindow | internal/ratelimit/ratelimit.go:30-61 | With a clock that does not go back, the sum `Admit` compares with the limit is the naive sum over `(now - window, now]`. |
| Ledger.KeyInjective | internal/ledger/ledger.go:120-121 | Two keys are equal if and only if hash and period are, for any hashes, since no billing period contains the separator. |
| Ledger.Store.GetLocked | internal/ledger/ledger.go:120-132 | Finds the entry of a hash and period, or adds one with no tokens, no truncations and no reconciliation, and changes nothing else. |
| Ledger.Store.RecordTerminal | internal/ledger/ledger.go:47-62 | Field by field: exactly one entry gains the tokens, negative ones counting as none, in total and for the record's provider, and the truncation; all else is unchanged, and all entries stay consistent with the history of records. |
| Ledger.Store.UpsertReconciliation | internal/ledger/ledger.go:64-71 | Field by field: exactly one entry gets the given time and the given flag, all else is unchanged; all entries stay consistent with the history. |
| Ledger.Store.Summarize | internal/ledger/ledger.go:73-91 | Whatever the iteration order, the summary is the sum over every record ever made for the hash, its flag the OR and its time the latest over the hash's entries. |
| Ledger.Store.Entries | internal/ledger/ledger.go:93-118 | A snapshot with every entry exactly once. |
| Ledger.ChargeKeepsConsistent | internal/ledger/ledger.go:47-62 | Charging an entry keeps all entries equal to their part of the history. |
| Ledger.ReconcileKeepsConsistent | internal/ledger/ledger.go:64-71 | Reconciling an entry keeps all entries equal to their part of the history. |
| Ledger.ProviderTokensWithinBilled | internal/ledger/ledger.go:55-58 | An entry's provider tokens never exceed what it billed, with equality if and only if every positive record named its provider. |
| Reconcile.Drift | internal/reconcile/reconcile.go:46-49 | Drift is not negative, zero exactly for equal counts or when the provider reports none, and times the provider's count it is a hundred times the difference. |
| Reconcile.Index | internal/reconcile/reconcile.go:67-70 | The map built from the configured providers finds for every name, letter case aside, what a search of the list finds. |
| Reconcile.LookupIsLastMatch | internal/reconcile/reconcile.go:67-81 | That is the last provider configured under the name, and none if and only if no configured name equals it but for letter case. |
| Reconcile.Job.DriftsExactly | internal/reconcile/reconcile.go:45-53 | A provider drifts if and only if a hundred times the difference of its report on the entry's own hash and period exceeds the threshold times the report, or, when it reports nothing, the threshold is negative. |
| Reconcile.Job.CompleteExactly | internal/reconcile/reconcile.go:77-85 | An entry can be reconciled if and only if the provider configured for each of its names reports on the entry's hash and period. |
| Reconcile.Job.ReportFields | internal/reconcile/reconcile.go:86-98 | A result names the entry's hash and period, the provider as the entry names it, both counts, the drift, its flag and the time. |
| Reconcile.Job.Apply | internal/reconcile/reconcile.go:45-61 | Computes the drift and writes the provisional flag of one provider to the entry. |
| Reconcile.Job.RunEntry | internal/reconcile/reconcile.go:73-102 | For one entry and any provider order: fails exactly if a fetch fails; else the entry carries the OR over its configured providers and there is exactly one result for each. |
| Reconcile.Job.Run | internal/reconcile/reconcile.go:63-105 | Over a snapshot: fails exactly if a fetch fails; else the ledger and the results are those of reconciling each entry. |
| Reconcile.Job.SettleIsFinal | internal/reconcile/reconcile.go:63-105 | Reconciled entries carry the OR over their providers; other entries and all billing fields are unchanged. |
| Reconcile.Job.RunOnce | internal/reconcile/reconcile.go:141-147 | Fails exactly if some entry's provider does not report; otherwise every entry with provider tokens has the time of the run and is flagged if and only if one of its configured providers drifts, all else is unchanged, and there is exactly one result for each such provider of each entry. |
| Calibration.PercentileIsNearestRank | internal/calibration/calibration.go:40-62 | Between 0 and 100 the percentile is a sample; the samples at or below it are at least `pct / 100` of all, and those strictly below are fewer. |
| Calibration.PercentileExtremes | internal/calibration/calibration.go:48-53 | At or beyond 0 and 100 it is the least and the greatest sample. |
| Calibration.PercentileMonotone | internal/calibration/calibration.go:40-62 | A higher percentile never gives a smaller value. |
| Calibration.Clamp | internal/calibration/calibration.go:64-72 | The result lies in the range; a value in the range is kept and one outside becomes the nearer bound. |
| Calibration.Logger.Sample | internal/calibration/calibration.go:25-32 | Appends a sample that is not negative, to its kind only. |
| Calibration.Logger.Percentile | internal/calibration/calibration.go:40-62 | Computes the percentile of the samples of a kind. |
| Calibration.Logger.SilentHangDeadline | internal/calibration/calibration.go:74-90 | Exists once there is a sample, stays in [1000, 15000], and is the scaled 99th percentile, or the bound nearer to it. |
| Calibration.Logger.DriftThreshold | internal/calibration/calibration.go:92-104 | Exists once there is a sample, stays in [1, 25], and is the 95th percentile, or the bound nearer to it. |
| Drain.DrainGuarantee | internal/server/server.go:112-122 | The force timer is armed at most once; a stream that was active when it was armed or registered while it was armed, and is not released, keeps it armed, is in the snapshot it takes, and is cancelled when it is done; only snapshot streams are force-closed. |
| Drain.CoveredExactly | internal/server/server.go:534-567 | Once shutdown has begun and before the snapshot, an active stream that is not released stays covered until the snapshot, which then holds it and can be reached, if and only if the timer is not stopped. |
| Drain.LateRegistrationExactly | internal/server/server.go:534-545 | A request that registers once shutdown has begun can be force-closed if and only if the timer is armed when it registers. |
| Drain.DisarmedOnlyWhenIdle | internal/server/server.go:547-555 | A ticking timer is stopped if and only if the last active stream is released. |
| Drain.ForcedUnlessClientLeft | internal/server/server.go:557-567 | A snapshot stream whose client stays gets the forced-shutdown cause at its turn, and keeps it. |
| Drain.EntersExactlyBefore | internal/server/server.go:124-128 | A request gets past the draining check if and only if shutdown has not begun. |
| Drain.NoneEnterAfter | internal/server/server.go:124-128 | Once it has begun no continuation lets another request in. |
| Drain.ActiveExactly | internal/server/server.go:534-555 | A registered stream is active until it is released, and nothing else changes the active streams. |
| Drain.FirstCauseStays | internal/server/server.go:557-567 | The first cancellation of a stream decides its cause for ever; only its client's leaving or its turn in the snapshot cancels it. |
| Drain.LateRegistrationEscapes | internal/server/server.go:124-128 | A request that passed the draining check early can register after the timer was disarmed and is then never force-closed. |
| Providers.Validate | internal/config/config.go:131-166 | Accepts exactly the non-empty lists of acceptable providers with pairwise different names and priorities, under acceptable breaker settings, shared and per provider; each error it reports holds of the list. |
| Providers.SortOrders | internal/config/config.go:95 | Sorting a valid configuration yields the same providers in strictly ascending priority. |
| Providers.OrderIsUnique | internal/config/config.go:95 | That order is unique, so the stability of the sort does not matter. |
| Providers.AllowedProviders | internal/server/server.go:429-440 | The selection loop keeps the configured order. |
| Providers.SelectionIsOrdered | internal/server/server.go:429-440 | It selects exactly the allowed providers, in strictly ascending priority. |
| Sse.ReadRawFrame | internal/parser/parser.go:92-115 | The byte loop returns the first frame of what is left of the input and where the next begins. |
| Sse.ParseFrameForProvider | internal/parser/parser.go:121-157 | The line loop computes the parse of a frame, which `Feed.FeedReadBack` ties to what a provider said. |
| Sse.ReadLines | client-ref/main.go:109-121 | The client's first loop: the lines up to an empty one. |
| Sse.ReadFrame | client-ref/main.go:109-132 | The client's reader: event and data of the next frame, and what follows it. |
| Texts.TrimExactly | internal/parser/parser.go:127-131 | White space at both ends is taken off, and nothing else. |
| Texts.TrimSplits | internal/parser/parser.go:127-131 | Every text is its trimmed form between white space. |
| Texts.NormalizeReplaces | internal/parser/parser.go:122 | Every CR LF becomes one LF. |
| Texts.NormalizeKeeps | internal/parser/parser.go:122 | A text without CR LF is unchanged. |
| Texts.SplitCuts | internal/parser/parser.go:122 | The lines have no LF in them, and joined by LF they are the text. |
| Texts.JoinedSplits | internal/parser/parser.go:136 | Data lines joined by LF can be told apart again. |
| Texts.FirstLineExactly | client-ref/main.go:112-115 | The client's line is what comes before the first LF, and there is one exactly if there is an LF. |
| Texts.TrimLineEndExactly | client-ref/main.go:116 | All CR and LF at its end are taken off, and nothing else. |
| Texts.ScanReads | internal/parser/parser.go:125-132 | For any lines, with any white space around the values: the parser takes the last name and all data in order, the client the last name and the last data. |
| Texts.LineIsFine | internal/parser/parser.go:125-132 | Every line is an event line, a data line or neither, so this covers all of them. |
| Texts.CutOff | internal/parser/parser.go:108-113 | Of a stream that ends inside an event the parser takes what there is as a frame, while the client reports the end of the stream. |
| Feed.FeedReadBack | internal/parser/parser.go:121-217 | A provider that sends any events in either format, over any lines and with LF or CR LF, is heard to say exactly what they say, one after the other: text deltas their text, a message delta its token count, stops and `[DONE]` the end, errors and undecodable data the malformed error, everything else nothing. |
| Feed.SaysSomething | internal/parser/parser.go:121-217 | Every event name and data, in either format, is covered by that. |
| Feed.Understood | internal/parser/parser.go:159-200 | The same for the fields of one event; a gateway event of an upstream gateway is read as itself. |
| Feed.ValidExactly | internal/parser/parser.go:219-245 | The validation accepts exactly the gateway's own events: a healthy status with a provider, a failover with a known reason counted from one, a regenerating event that keeps the partial, a final truncation with a known reason. |
| Upstream.AttemptOnBytes | internal/server/server.go:297-337 | From bytes to tokens: an attempt on a provider that sends these events counts what the events it took say, each text at least one token and each usage report in place of all before it, and ends as the first ending event says, with a dead socket if there is none, unless the budget or the client's connection ended it before. |
| SseProofs.FramesSplitLosslessly | internal/parser/parser.go:92-115 | Frames concatenate to the input, none is empty, no proper prefix of a frame ends in a terminator, and every frame but the last does. |
| SseProofs.LineEndingsDoNotMatter | internal/parser/parser.go:104-122 | For any input without CR, replacing every LF by CR LF gives the same number of frames and the same parse of each. |
| SseProofs.PrintedFrame | internal/protocol/protocol.go:84-104 | A printed event followed by anything is framed as exactly itself and parses back to the event. |
| SseProofs.InterpretPrinted | internal/parser/parser.go:219-245 | Every gateway event the printer writes passes the parser's validation. |
| SseProofs.ParseUndoesPrint | internal/parser/parser.go:121-157 | Framing and parsing a printed stream of events returns the events. |
| SseProofs.ClientAgrees | client-ref/main.go:109-132 | The reference client reads the same event and data as the parser, and the same rest. |
| SseProofs.ClientReadsPrinted | client-ref/main.go:109-132 | Over a whole printed stream the client reads as many frames as the parser, each with the parser's event and data. |
| SseProofs.UsageIsPositive | internal/parser/parser.go:176-189 | Usage is only ever reported from an Anthropic message delta, with a positive count and no text. |
| Json.MarshalRoundTrip | internal/protocol/protocol.go:31-64 | The five objects, written as Go's encoder writes them, are one line in braces and can be read back. |
| Printed.PrintedBytes | internal/protocol/protocol.go:84-104 | A printed event is the line of its name, which the contract of `Sse.EventName` spells out, if it has one, the line of its object, and a blank line. |
| Printed.ObjectFields | internal/protocol/protocol.go:31-64 | The keys and values of each event's object, in order. |
| Printed.ObjectBytes | internal/protocol/protocol.go:84-104 | An object is written as quoted keys before their values, between commas and in braces. |
| Printed.CodedEscapes | internal/protocol/protocol.go:84-104 | Control characters, `<`, `>`, `&` and the two line separators are written as four hexadecimal digits. |
| Json.GoCodecIsValid | internal/protocol/protocol.go:84-104 | The laws assumed of the JSON library hold of that encoding. |
| Wire.ReachableWiresRoundTrip | internal/protocol/protocol.go:84-104 | The bytes any stream of any run has sent at any moment frame and parse back to exactly its events, every gateway event passing validation. |
| Wire.ClientReadsReachableWires | client-ref/main.go:109-132 | From the bytes of any stream of any run the client reads, frame by frame, what the parser reads. |
| Wire.WireIsEmittable | internal/server/server.go:197-260 | Every event on a reachable wire is one the parser accepts: its status names a provider, its failovers count from one. |

## Left out

- The handler's loops run against shared state held as a value in `Handler.Request`; concurrency with other requests is in `System`, whose steps interleave, not in the loops.
- The compare-and-swap loops of the budget are micro-steps, since under contention they need not end; the sequential handler takes their undisturbed path.
- HTTP parsing, authentication of requests, method and body checks, upstream requests, address checks and the usage and health endpoints: they have no state that the cascade shares.
- The times at which the session log starts and ends an attempt: the handler's loops run at one moment of the clock.
- The read timer and goroutine of the parser's reader: a silent hang is one of the ways an attempt may end.
- Failure of a write of a gateway event: the handler ignores it, so the wire is what was written, not what arrived.
- The tokenizer: its counts are arbitrary natural numbers; its registry of suspected mismatches is not modelled.
- Decoding of arbitrary JSON: `decode` is only required to read back what `encode` wrote, and `Json` reads only that form.
- Reading of provider chunks is covered up to the JSON values they carry; strings are sequences of Unicode characters, so invalid UTF-8 is not represented.
- SHA-256, redaction and constant-time comparison: a hash is an opaque string.
- Configuration and key files, environment variables, URL checks and the checks of the other sections in `Validate`: text, I/O and single comparisons.
- Floating-point rounding in drift and percentiles: exact real arithmetic; NaN and infinities do not occur.
- The library's sort is an insertion sort here; `Providers.OrderIsUnique` and the counting properties of percentiles do not depend on the choice.
- Metering.AdmissionSeesTheWindow: the clock is read in the same step as the limiter's lock is taken, while the handler reads it before, so that calls may enter out of order; `RateLimit.CacheIsLiveEvents` holds for any order.
- A breaker call reads the clock once; the original may read it a second time when it changes state.
- The text of a billing period is an arbitrary function of the time of a record that never contains the separator of ledger keys.
- Counters of the ledger, the delivery count and time values are unbounded integers; 64-bit wrap-around is modelled for the budget cell.
- Reconciliation samples for calibration and the tokenizer registry inside `Job.Apply`; provider names are lower-cased in ASCII only; a job without a ledger or fetcher.
- The callback that stops the drain timer and the server's listener; `Drain` covers the flag, the sessions, the timer and the cancellations.
- Gateway.NextKeepsShape: states only the control flow; what the steps do to wire, books and breakers is in the rows of `Accounting`, `Transcript`, `Reports` and `Hop`.
