# deebus: a model of its request path

deebus is a Go client for language-model providers. A request is copied, checked and rewritten by
a policy, handed to one provider after the other until one answers, and on its way passes a
circuit breaker, a retry loop and a token bucket. Above this stand an agent loop that runs tools
between model calls, and a streaming assembler that puts tool calls together from fragments;
beside it, a JSON-RPC connection matches responses to concurrent callers.

The project models these parts and proves what they keep over whole runs. Time is an integer
number of nanoseconds given to each call. Providers, models, tools and random draws are functions
that may answer anything. What a mutex guards is one atomic step, and interleavings are sequences
of such steps (or free choices inside a loop), so a theorem about every sequence is a theorem
about every schedule.

| File | What it models |
|---|---|
| `RateLimit.dfy` | the token bucket of `middleware/ratelimit.go`, balances scaled by 10^9 so that refills are integers |
| `Breaker.dfy` | the three-state machine of `internal/circuit/breaker.go` with the requests in flight around it (`BreakerRuns`) |
| `Retry.dfy`, `Errors.dfy` | backoff, the retry loop, and the classification of errors |
| `Trees.dfy`, `Settings.dfy`, `Requests.dfy` | nested values, tools and other settings, and whole requests as they lie in memory; the copy of `request_clone.go` |
| `Billing.dfy`, `CacheKey.dfy`, `Policy.dfy` | the billing-header rewrite, the cache-key builder, and the policy as a function on request values |
| `PolicyInPlace.dfy` | the same policy and limits as methods that change a request in memory, for messages that may share texts, and when they agree with the functions |
| `Client.dfy` | the fallback chain of `Client.Complete`, with the isolation of attempts |
| `Statistics.dfy` | the counters of `stats.go`, under records that overlap |
| `History.dfy`, `Agent.dfy` | history trimming, tool dispatch and the agent loop |
| `Stream.dfy`, `StreamResult.dfy`, `StreamStats.dfy` | the event-to-chunk machine and the three readers of its chunks |
| `Rpc.dfy`, `RpcRuns.dfy` | the steps of callers and reader of `mcp/conn.go`, and theorems over every interleaving |
| `Text.dfy`, `Sequences.dfy`, `Arithmetic.dfy`, `Options.dfy`, `Messages.dfy` | strings, a few facts about sequences and division, shared values |

Methods and their specifications share small functions: which text of a delta is sent, what becomes of an unset store
flag, which line is a response, in which order models are asked. What each of these does is stated by a law of its own, on
plain fields, that does not mention the function (for these, `Stream.ContentSent`, `Policy.StoreFilled`,
`RpcRuns.ResponseArrives` and `Client.Client.PrimaryFirst`).

Where the code and what is said of it disagree, the model follows the code:

- A limiter "capped at requestsPerSecond req/s" (`middleware/ratelimit.go:23`) keeps to the cap, counted
  as a full bucket plus the refill, exactly when the rate divides 10^9 (`RateLimit.CapHoldsExactly`). For any other
  rate the wait is cut down to a whole number of nanoseconds, and a wait of 0 lets any number of calls through
  unpaid (`RateLimit.ExcessUnbounded`).
- The equal-jitter contract (`middleware/retry.go:271-273`) holds exactly for the attempts 0 to 34
  (`Retry.JitterExactly`); from 35 on the conversion to int64 is out of range.
- `BuildPromptCacheKey` panics for a maximum of 17 and a longer key, and for no other input
  (`CacheKey.LengthBound`, `CacheKey.PanicExists`). A key is rebuilt from its own colon-separated parts exactly
  when the first call did not lose its whole prefix (`CacheKey.RebuildsExactly`); one that does exists
  (`CacheKey.ColonKeyExists`).
- `CloneRequest` is called a deep copy (`request_clone.go:3-4`), but a copy shares nothing with the original if and
  only if there are no stop sequences, no content block of a type `cloneContentBlock` does not know, and no reference
  of a type `cloneAny` does not know, such as `map[string]string` or `[]int`, in the parameters of a tool, the options
  or the response schema (`Requests.SharesExactly`; that each of the five is shared is shown by
  `Requests.StopIsShared`, `Requests.BlockIsShared`, `Requests.ToolForeignIsShared`, `Requests.ForeignIsShared` and
  `Requests.SchemaForeignIsShared`).
- Normalising billing headers is meant for system prompts, but a text that a message of another role shows through
  the same pointer changes with it (`PolicyInPlace.LeakExists`); normalising is a function of each message alone if
  and only if no changed text is shown so (`PolicyInPlace.UnleakedExactly`). Copies never show one
  (`PolicyInPlace.SeparateUnleaked`).
- The breaker never wedges while every admitted request is recorded (`BreakerRuns.NeverWedged`). A request whose
  provider panics is not. Nothing is ever admitted again if and only if the breaker is half-open, its trial is full
  and nothing is in flight (`BreakerRuns.WedgedExactly`), and losing the requests of a trial leads there under every
  configuration (`BreakerRuns.WedgeReached`).
- "trimHistory keeps at most max messages" (`agent.go:366`) fails exactly as `History.TrimExceedsExactly` says.
  "The newest turn is kept even when that turn alone is larger than the limit" (`agent.go:72-74`) holds
  exactly when the system messages do not use up the limit (`History.NewestKeptExactly`); when they do, every later
  request of a run is the system messages alone (`Agent.NewestTurnSent`).
- `CollectStream` promises "final usage collected up to that point" with an error (`stream_result.go:102-104`), but an
  error chunk of the assembler is marked done and carries no usage, which overwrites what was reported: the usage
  reported is returned if and only if the events do not end in an error or none was reported
  (`StreamResult.UsageKeptExactly`, `StreamResult.UsageLost`).
- The reader of an MCP connection calls the notification handler itself. It can be stopped, and is exactly while that
  handler is inside a call on the same connection (`RpcRuns.ReaderBlocksExactly`). Without the cancellation of that
  call it comes back in some run if and only if the call does not wait for its response yet (`RpcRuns.BackExactly`);
  from then on it comes back in none (`RpcRuns.StuckStays`).
- When every attempt allows fallback, the error returned is that of the last entry of the chain: an entry that is
  invalid or not configured hides what the providers answered (`Client.ErrorReturned`).

## Model

| member | source | states |
|---|---|---|
| RateLimit.AfterValid | middleware/ratelimit.go:147-168 | the balance stays between 0 and the capacity, before and after a token is taken |
| RateLimit.PaidWithinRate | middleware/ratelimit.go:147-164 | over every run and every window, the calls that take a token are at most rps plus rps times the window |
| RateLimit.WaitIsLeast | middleware/ratelimit.go:162-168 | an uncontended caller that sleeps less than the wait it was told is refused for exactly the rest; after the whole wait it pays if and only if nothing was cut off |
| RateLimit.SleepSuffices | middleware/ratelimit.go:131-142 | a caller that sleeps at least its wait is told to proceed |
| RateLimit.GrantIsPaid | middleware/ratelimit.go:160-167 | for a rate that divides 10^9, a call proceeds exactly when it took a token |
| RateLimit.GrantedIsPaid | middleware/ratelimit.go:147-168 | for such a rate, calls let through and tokens taken are equal in every window of every run |
| RateLimit.CapHoldsExactly | middleware/ratelimit.go:23-33 | the cap on calls let through holds for all runs if and only if the rate divides 10^9 |
| RateLimit.ExcessUnbounded | middleware/ratelimit.go:166-167 | for any other rate, any number of calls can be let through at one instant |
| RateLimit.IdleRefills | middleware/ratelimit.go:147-160 | a second after the last call, whatever came before, rps calls at once are let through |
| RateLimit.TokensConserved | middleware/ratelimit.go:147-164 | while the bucket never overflows, tokens there and tokens taken are what was there and flowed in |
| RateLimit.RefusedOnlyWhenEmpty | middleware/ratelimit.go:160-167 | and a call takes none only if one more than was taken is more than that |
| RateLimit.Limiter.TryAcquire | middleware/ratelimit.go:147-168 | the fields move as the bucket does, the returned wait is never negative, and is 0 exactly for a paid token when the rate divides 10^9 |
| RateLimit.Limiter.Acquire | middleware/ratelimit.go:127-143 | an uncontended caller sleeps at most once; no limit is applied to a rate of zero or less |
| Breaker.Config.WithDefaults | internal/circuit/breaker.go:51-63 | the configuration used is valid and a valid one is kept |
| Breaker.CircuitBreaker.Allow | internal/circuit/breaker.go:81-108 | which calls are let in, and the state after |
| Breaker.CircuitBreaker.RecordSuccess | internal/circuit/breaker.go:111-118 | the state after a success |
| Breaker.CircuitBreaker.RecordFailure | internal/circuit/breaker.go:121-130 | the state after a failure |
| Breaker.CircuitBreaker.Record | middleware/circuit.go:154-181 | which outcomes count as failures of the provider |
| Breaker.CircuitBreaker.Complete | middleware/circuit.go:32-39 | a call that is let in records once; one that is not gets an error that allows fallback and no retry |
| BreakerRuns.RunKeepsInv | internal/circuit/breaker.go:81-130 | over every interleaving: half-open means between 1 and HalfOpenRequests probes sent, of which at most as many are in flight, and exactly as many if no request was lost; closed means fewer failures than the limit |
| BreakerRuns.NeverWedged | middleware/circuit.go:32-39 | while no request is lost: in every reachable half-open state a request is in flight, and whichever finishes first ends the trial, after which a new request is let in at once or after one reset timeout |
| BreakerRuns.OpenBlocks | internal/circuit/breaker.go:86-96 | nothing is let in within the reset timeout of a trip, whatever late results arrive |
| BreakerRuns.AdmissionsWhileNotClosed | internal/circuit/breaker.go:86-104 | in any window without a closed state at most HalfOpenRequests times (window / ResetTimeout + 1) requests are let in |
| BreakerRuns.ClosedCountsRun | internal/circuit/breaker.go:111-129 | while closed, the failure count is the length of the trailing run of failures, and below the limit |
| BreakerRuns.OpensExactlyAtLimit | internal/circuit/breaker.go:121-129 | a closed breaker opens with exactly the failure that makes the run reach the limit |
| BreakerRuns.ClosesByTrialOnly | internal/circuit/breaker.go:86-118 | on every way from open to closed there is a half-open request that succeeded, no earlier than one reset timeout after the trip |
| BreakerRuns.WedgedStays | internal/circuit/breaker.go:81-130 | from a full trial with nothing in flight nothing is admitted, and the breaker keeps its state, in any run |
| BreakerRuns.WedgedExactly | internal/circuit/breaker.go:81-130 | in any state whatever, no continuation admits anything if and only if it is such a state |
| BreakerRuns.WedgeReached | middleware/circuit.go:32-39 | under every configuration a run from the start reaches such a state by requests that are never recorded |
| BreakerRuns.FailureRestarts | internal/circuit/breaker.go:121-130 | a failure that comes in while open starts the reset timeout anew: nothing is admitted before its end, whatever arrives, and a request then is |
| BreakerRuns.SuccessKeepsOpen | internal/circuit/breaker.go:111-118 | a success that comes in while open changes no admission |
| BreakerRuns.CountsExactly | middleware/circuit.go:154-181 | a success and the statuses 400, 401 and 403 do not count as failures; other statuses and errors do |
| Errors.UnwrapProviderError | providers/error_types.go:70-83 | the loop finds the first provider error of the chain |
| Errors.ParseError | providers/errors.go:21-78 | which statuses allow retry and fallback, the bound on the hint, and that 400 neither falls back nor counts for the breaker |
| Errors.WrappingIsTransparent | providers/error_types.go:55-83 | wrapping an error, however often, changes no classification |
| Errors.StatusClasses | providers/errors.go:30-78 | retried are 408, 429 and all from 500 on; all but 400 fall back; all but 400, 401 and 403 count for the breaker |
| Errors.UntypedClasses | providers/error_types.go:70-83 | an error of no provider is not retried; another provider is tried, and it counts for the breaker |
| Errors.HintClasses | providers/errors.go:82-105 | the hint is that of the header, at most two minutes, and only with status 429 |
| Retry.JitterExactly | middleware/retry.go:270-292 | an unhinted wait lies between half the cap and the cap, for every draw and platform, if and only if the attempt is at most 34 |
| Retry.CapMono | middleware/retry.go:281-285 | the cap never decreases with the attempt |
| Retry.NoWaitAfterOverflow | middleware/retry.go:281-291 | where the conversion gives the least int64, attempts from 35 on do not wait at all |
| Retry.WaitBounds | middleware/retry.go:274-292 | up to attempt 34 every wait is positive and at most two minutes |
| Retry.CapDoubles | middleware/retry.go:281-285 | the caps start at half a second and double up to thirty seconds |
| Retry.JitterReaches | middleware/retry.go:286-291 | every wait between half the cap and the cap comes of some draw |
| Retry.HintWaited | middleware/retry.go:275-280 | a hint is waited as it is, up to two minutes, whatever the attempt |
| Retry.RetryAfterWaited | middleware/retry.go:274-301 | after a 429 with a Retry-After in seconds exactly that is waited, however the error is wrapped |
| Retry.InterruptionEnds | middleware/retry.go:35-54 | an interrupted sleep ends the loop without another call |
| Retry.RetryValue | middleware/retry.go:35-54 | the loop makes as many calls, and ends in the way, that the answers and interruptions determine |
| Retry.FirstDecisive | middleware/retry.go:35-54 | if no sleep is interrupted before it, the first success or unretryable error, at whatever call it comes, or else the last answer, is returned |
| Retry.SleepAtMost | middleware/retry.go:274-292 | a loop of any length sleeps at most two minutes for each wait |
| Retry.SleepAtLeast | middleware/retry.go:274-292 | up to 35 unhinted waits last at least the sum of the half caps |
| Trees.CloneAny | request_clone.go:172-206 | the copy of a nested value is made of new objects only and has the same value |
| Trees.ForeignKept | request_clone.go:203-205 | a map and a copy of it hold the same reference of an unknown type under the same key |
| Trees.SumRemove | request_limits.go:190-195 | the order in which a map is walked makes no difference to its size |
| Trees.AnySize | request_limits.go:184-214 | the size of a nested value, by its types |
| Trees.MapGrows | request_limits.go:190-195 | what an entry adds to the size of a map |
| Trees.ListGrows | request_limits.go:196-201 | what an element adds to the size of a list |
| Trees.StringsGrow | request_limits.go:202-203 | strings count as joined by commas, and two bytes more for each |
| Trees.SizeOfOthers | request_limits.go:186-212 | what is no map and no list counts as it is printed |
| Trees.SameAny | request_clone.go:172-206 | values of one tree are of one kind and hold the same |
| Settings.CloneTools | request_clone.go:136-150 | the copied tools are new, with their parameters and cache controls, and equal |
| Settings.CloneSettings | request_clone.go:12-36 | so are the options, seed, response format, reasoning and the parallel flag |
| Settings.ToolSchemaBytes | request_limits.go:172-182 | the total is the sum over all tools, whatever the order of the maps |
| Settings.SchemaGrows | request_limits.go:172-182 | what a tool adds: its type, name, description and parameters |
| Settings.SameTools | request_clone.go:136-150 | tools of one value agree field by field |
| Settings.SameSettings | request_clone.go:12-36 | settings of one value agree field by field |
| Requests.CloneMessages | request_clone.go:49-134 | the copy of a conversation is new, equal, and shares nothing between its messages |
| Requests.CloneRequest | request_clone.go:5-47 | the copy has the same value, and what can be written to through both is exactly the stop sequences and the references of unknown types in messages, tools, options and response schema |
| Requests.SameMessage | request_clone.go:49-134 | messages of one value agree field by field and block by block |
| Requests.SameMessages | request_clone.go:49-59 | conversations of one value have as many messages, of the same values in the same order |
| Requests.SameFields | request_clone.go:5-47 | requests of one value, as a request and its copy are, agree field by field |
| Requests.SharesExactly | request_clone.go:5-47 | nothing is shared if and only if there are no stop sequences and no such reference in any of the four places |
| Requests.StopIsShared | request_clone.go:10-46 | writing to the stop sequences of a copy changes the original |
| Requests.BlockIsShared | request_clone.go:131-133 | a content block of an unknown type is the same object in the copy |
| Requests.ForeignIsShared | request_clone.go:203-205 | an option of an unknown type is the same object in the copy |
| Requests.ToolForeignIsShared | request_clone.go:136-143 | so is one among the parameters of a tool |
| Requests.SchemaForeignIsShared | request_clone.go:24-28 | and one in a response schema |
| Billing.RewriteByPattern | request_policy.go:422-428 | the test for the header never rejects a text the pattern matches, so the rewrite replaces the first value whenever there is one |
| Billing.Canonical | request_policy.go:422-428 | texts that differ only in the value are rewritten to the same text |
| Billing.Idempotent | request_policy.go:422-428 | rewriting twice is rewriting once |
| Billing.ChangesOnlyTheValue | request_policy.go:422-428 | a text changes exactly when its value is another one, and all text around the value is kept |
| Billing.RewriteChanges | request_policy.go:422-428 | a header with a value other than the replacement does change |
| Billing.HeaderRewritten | request_policy.go:422-428 | a header written out keeps all but the value of its first mark |
| Billing.OtherTextsKept | request_policy.go:422-428 | a text that does not begin with the header stays |
| Billing.Replacement | request_policy.go:430-445 | the replacement used is always a value the pattern accepts |
| Billing.ReplacementUsed | request_policy.go:430-445 | a configured word is used as it is, and "stable" if there is none |
| CacheKey.NormalizeCacheKeyPart | request_policy.go:313-340 | a part is normalised to nothing or to a text of the allowed shape |
| Text.TrimExactly | request_policy.go:313-318 | trimming cuts exactly the runes to be cut at both ends |
| CacheKey.NormalFixed | request_policy.go:313-340 | normalising a normalised part changes nothing |
| CacheKey.WordsKept | request_policy.go:313-340 | a part of letters, digits, dots, underscores and inner dashes is kept as it is |
| CacheKey.SeparatorsToDash | request_policy.go:313-340 | a run of separators inside a part becomes one dash |
| CacheKey.OthersDropped | request_policy.go:313-340 | any other rune is dropped |
| CacheKey.BlankIgnored | request_policy.go:284-296 | a blank part makes no difference, wherever it stands |
| CacheKey.PartsShown | request_policy.go:298-301 | normal parts that fit make the key that has them between its colons |
| CacheKey.LongKeyShown | request_policy.go:303-310 | a longer key is as much of it as fits and the digest of the whole, or digits of the digest alone |
| CacheKey.LengthBound | request_policy.go:284-311 | a key never exceeds the effective maximum, and the builder panics exactly for a maximum of 17 and a longer key |
| CacheKey.DefaultLength | request_policy.go:284-288 | a maximum that is not positive stands for 256 |
| CacheKey.ColonExactly | request_policy.go:298-310 | a key starts with a colon if and only if the maximum is above 17, the normalised key is longer, and what fits before the suffix is all colons, dashes and underscores |
| CacheKey.RebuildsExactly | request_policy.go:281-311 | building from the colon-separated parts of a key gives the key back if and only if that is not so |
| CacheKey.ColonKeyExists | request_policy.go:304-310 | a key that starts with a colon exists |
| CacheKey.PanicExists | request_policy.go:306-307 | a key that makes the builder panic exists |
| CacheKey.DerivedKeyOrderFree | request_policy.go:254-279 | the derived key does not depend on the order of the metadata keys |
| CacheKey.DerivedText | request_policy.go:254-279 | scope, client, provider, model, user and metadata enter the derived key as configured, and provider and model if there is nothing else to go by |
| Text.LeqByFirstDifference | request_policy.go:268 | the order of the metadata keys is that of the first runes that differ |
| Policy.Fixpoint | request_policy.go:69-111 | a policy that succeeded succeeds again and then changes nothing |
| Policy.StoreFilled | request_policy.go:187-193 | once the first check has passed, an unset store flag becomes the default and a set one stays |
| Policy.RetentionFilled | request_policy.go:224-237 | an empty retention becomes the configured one, and another stays |
| Policy.KeyFilled | request_policy.go:239-250 | the key is the caller's, unless there is none or it is overridden; then it is built from the configured text, or the derived one if that is blank |
| Policy.MessagesFilled | request_policy.go:366-381 | the messages are normalised exactly if that is configured |
| Policy.RewrittenByRole | request_policy.go:393-417 | every text of a system message is rewritten, and all else stays |
| Policy.AnswerLeft | request_policy.go:74-111 | the limits are checked before and after; a policy that succeeds leaves what it answers |
| Policy.AllowsExactly | request_limits.go:32-63 | a request is accepted exactly if it is within each limit that is positive |
| Policy.TextMeasured | request_limits.go:110-137 | what counts as text: blocks, names and arguments of calls, names and ids of messages |
| Policy.MediaMeasured | request_limits.go:138-170 | what counts as media |
| Text.BytesAppend | request_limits.go:130-137 | the bytes of texts add up |
| Text.BytesOfRune | request_limits.go:130-137 | and a rune counts one to four, as in UTF-8 |
| Policy.WritesOnlyWith | request_policy.go:69-111 | whether it succeeds, is rejected or panics, a policy writes only the store flag, cache key and retention, and what normalising makes of the messages; explicit settings survive |
| Policy.WritesOnly | request_policy.go:69-111 | where no text is shared, of the messages only header values in those of the system are written |
| Policy.SecondPassReportsNone | request_policy.go:384-420 | a second normalisation reports 0 changes |
| PolicyInPlace.NormalizeMessages | request_policy.go:384-420 | for messages that may share texts, the loops rewrite exactly the texts of system messages, wherever they show, and count those that changed |
| PolicyInPlace.NormalizeConversation | request_policy.go:384-420 | the same, as values before and after |
| PolicyInPlace.UnleakedExactly | request_policy.go:395-417 | normalising is a function of each message alone if and only if no changed text is shown in a message of another role |
| PolicyInPlace.LeakExists | request_policy.go:408-416 | two messages in memory with one text: normalising changes the one that is not of the system |
| PolicyInPlace.SeparateUnleaked | request_clone.go:49-71 | in a copy no text is shared, so the condition holds |
| PolicyInPlace.SeparateCounts | request_policy.go:393-419 | in a copy the number reported is the number of blocks that changed |
| PolicyInPlace.FixedStays | request_policy.go:384-420 | a conversation whose messages are fixed one by one is left alone, whatever texts they share |
| PolicyInPlace.NormalizeTwice | request_policy.go:384-420 | a second call of the normaliser changes nothing and reports 0, for shared texts too |
| PolicyInPlace.WritesOnlyShared | request_policy.go:69-111 | whatever texts the messages share, a policy changes no more of them than values of billing headers |
| PolicyInPlace.ApplyTwice | request_policy.go:69-111 | a policy applied again to the request it succeeded on succeeds and changes nothing, for shared texts too |
| PolicyInPlace.PayloadBytes | request_limits.go:110-162 | the totals are the sums over all messages |
| PolicyInPlace.Validate | request_limits.go:32-63 | the checks accept exactly the requests within all seven limits |
| PolicyInPlace.FillCacheIn | request_policy.go:224-252 | the cache options in memory become what the policy on values says, in new objects where there were none |
| PolicyInPlace.ApplyTo | request_policy.go:69-111 | the answer, and the request left behind by a success, by a rejection before or after the rewriting, or by a panic |
| Client.ParseModelExactly | client.go:558-567 | which model strings are accepted, and the two parts they give |
| Statistics.Stats.RecordRequest | stats.go:18-30 | every counter after one record |
| Statistics.RecordAlone | stats.go:18-30 | the run in which the additions of one record follow each other gives just that |
| Statistics.Conserved | stats.go:18-30 | at every moment of any interleaving of records, a counter and what is still to be added to it make up the sum of the records begun |
| Statistics.IdleTotals | stats.go:18-30 | with no record under way, total is the number of records, and equals succeeded plus failed |
| Statistics.MidwayDiffers | stats.go:18-30 | within a record that equation fails |
| Client.CallProvider | middleware/retry.go:59-77 | the outcome of an attempt and the number of its upstream calls, from its breaker, the answers and the interruptions |
| Client.Attempt | client.go:343-349 | the provider is handed the policy applied to a copy with the attempt's model, the outcome is that of the layers, and nothing that existed before is written to |
| Client.Client.Complete | client.go:323-364 | every attempt is handed what the policy makes of the caller's request however earlier providers changed their copies; the caller's request is unchanged; every outcome is that of its attempt's layers; the chain stops at the first success or the first error without fallback, and otherwise returns what its last entry left; one record is made |
| Client.Client.PrimaryFirst | client.go:330-349 | the primary model is asked first, and its answer ends the run |
| Client.Client.FallbackInTurn | client.go:543-548 | a fallback is asked exactly when the primary and the fallbacks before it, as far as they are configured, all failed with an error that allows fallback |
| Client.PreparedModel | client.go:343-349 | a provider is handed its own model, the caller's store flag or the default, and all else but cache options and messages as the caller gave it |
| Client.AttemptShows | middleware/circuit.go:32-39 | an open breaker answers for the provider; otherwise the outcome is the first answer that ends the retries, or the interruption |
| Client.ErrorReturned | client.go:331-363 | giving up returns the error of the last attempt, unless the last entry is invalid or not configured: then it says that |
| Client.CallsBound | client.go:329-360 | a run makes at most (maxRetries + 1) * (1 + fallbacks) upstream calls |
| Client.BadRequestEndsRun | providers/errors.go:32-37 | a response of status 400 ends the run, after however many retries and however wrapped: no call follows, and its error is returned |
| History.GroupTurnsLoop | agent.go:411-427 | the loop gives the turn groups, which put together are the history |
| History.TrimHistory | agent.go:370-408 | searching from the newest group keeps what dropping the oldest groups one by one would |
| History.TrimKeeps | agent.go:366-369 | all system messages stay, in order, and of the rest a suffix of whole groups |
| History.TrimIsLongest | agent.go:386-402 | that suffix is the longest that fits; the limit is exceeded only by system messages alone or with exactly the newest group |
| History.TrimExceedsExactly | agent.go:366-371 | the limit is exceeded if and only if the system messages exceed it, or leave room but less than the newest group needs |
| History.NewestKeptExactly | agent.go:70-75 | the newest group is kept if and only if the system messages do not use up the limit |
| History.TrimTwice | agent.go:370-408 | trimming is idempotent |
| History.TrimWellFormed | agent.go:367-369 | trimming never parts a call turn from its results |
| History.TrimByRole | agent.go:370-408 | every message of role "system" is kept, as often as it occurs, nothing is added, and a history within the limit stays |
| History.CallGroup | agent.go:411-427 | an assistant message with tool calls makes a group with the messages of role "tool" that follow it |
| History.SingleGroup | agent.go:411-427 | any other message makes a group of its own |
| Agent.InOrder | agent.go:325-333 | sequential dispatch returns all results in order, or the error of the first call that fails, having run no later one |
| Agent.Concurrently | agent.go:335-363 | for every schedule: success exactly when all calls succeed, results in call order, otherwise the error of some call that failed, and every call has run |
| Agent.DispatchTools | agent.go:281-364 | both ways of dispatch meet one specification |
| Agent.SchedulesAgree | agent.go:281-364 | any two dispatches with the same tool outcomes agree on success and on every result |
| Agent.ResultsShow | agent.go:281-333 | dispatch succeeds exactly if every call returns, and then result i has the output of call i and its id and name |
| Agent.ErrorShows | agent.go:281-333 | an error is the wrapped one of a call, or says that one panicked or that there is no tool function |
| Agent.WithDefaults | agent.go:440-453 | the number of rounds is positive, and the other options are used as they are |
| Agent.RunAgent | agent.go:83-146 | how many model calls are made, with which messages, and how the run ends with which history |
| Agent.RunsAgree | agent.go:83-146 | runs with the same outcomes make the same calls and end alike, but for which failing tool is reported |
| Agent.RoundIsTurn | agent.go:126-139 | a round is appended as one call turn with exactly its results, same ids and order |
| Agent.GoesExactly | agent.go:107-136 | a run goes on exactly if the model asks for tools and every call returns |
| Agent.RoundCarries | providers/helpers.go:69-76 | a round holds the model's text and calls, and for every call the output of its tool |
| Agent.OutputsReachModel | agent.go:126-140 | the next request ends with just that, unless the system messages use up the limit |
| Agent.RequestsWellFormed | agent.go:100-104 | every model call is given all system messages and, if the run started so, a well-formed history |
| Agent.ReturnedWellFormedExactly | agent.go:107-145 | the history returned is well formed if and only if no tool failed |
| Agent.NewestTurnSent | agent.go:100-104 | the turn just made is the newest group of the next request, or that request is the system messages alone |
| Stream.ParseStream | providers/openai.go:339-528 | the loop sends the chunks of the one-event machine |
| Stream.ContentConserved | providers/openai.go:456-470 | the chunks carry exactly the texts of the events read |
| Stream.ContentSent | providers/openai.go:456-470 | where every choice has content, or no reasoning, exactly the contents are sent |
| Stream.ReasoningContentSent | providers/openai.go:456-470 | without content it is reasoning_content |
| Stream.ReasoningSent | providers/openai.go:456-470 | and without either it is reasoning |
| Stream.FedIsBatch | providers/openai.go:440-454 | the accumulators hold, per index, the first id and type, the last name and all fragments in order |
| Stream.EveryChunk | providers/openai.go:472-517 | every done chunk without error is the final chunk of an event read, with the tool calls up to it |
| Stream.FinalToolCalls | providers/openai.go:480-493 | the tool calls of a final chunk are, index by index, what the deltas up to its event say |
| Stream.FinalShows | providers/openai.go:480-517 | a final chunk is done, has the finish reason its event gives, and no text |
| Stream.OneFinish | providers/openai.go:355-517 | with one finish reason one final chunk is sent, with its own usage or the first one reported later, and none exactly if malformed data comes before any usage |
| Stream.OneFinishShows | providers/openai.go:480-517 | that chunk has the finish reason of its event and its usage, if there is one |
| Stream.LaterUsageShows | providers/openai.go:416-432 | otherwise it has the usage of the first later event that reports one without a choice |
| Stream.NoUsageShows | providers/openai.go:511-517 | and without any such report no usage |
| StreamResult.StreamAccumulator.Add | stream_result.go:44-79 | the accumulated result after one chunk |
| StreamResult.CollectStream | stream_result.go:105-132 | the result collected, with and without an error chunk or a cancellation |
| StreamResult.CompleteFromSSE | providers/openai.go:216-247 | the whole response: all text and the last final chunk, or the first error |
| StreamResult.SplitInvisible | providers/openai.go:438-470 | cutting an event in two anywhere in its text or its fragments changes nothing collected but the number of chunks |
| StreamResult.StreamedAndWholeAgree | stream_result.go:44-79 | collecting a stream and reading the same body whole agree on error, text, tool calls, finish reason and usage |
| StreamResult.ErrsExactly | providers/openai.go:409-524 | an error is sent if and only if malformed data comes before the end mark, or the connection breaks without either |
| StreamResult.PartialResult | stream_result.go:102-132 | the text of every event read is returned, and an error exactly then |
| StreamResult.UsageKeptExactly | stream_result.go:57-69 | the usage reported is returned if and only if that is not so or none was reported |
| StreamResult.UsageReturned | stream_result.go:57-69 | without an error the usage returned is that of the last final chunk, part by part, with the sum for a missing total |
| StreamResult.CollectsAll | stream_result.go:44-56 | without an error all texts and reasoning are put together in order and every chunk is counted |
| StreamResult.LatestKept | stream_result.go:44-79 | tool calls and finish reason are the latest given |
| StreamResult.UsageLost | stream_result.go:57-69 | any usage can be reported and then lost |
| StreamStats.WrapStream | client.go:506-541 | the chunks are forwarded in order and one record is made, whichever way the stream ends |
| StreamStats.CountedAsCollected | client.go:514-527 | a stream read to its end counts as a success exactly when collecting it gives no error, with the same token counts |
| Rpc.StepKeepsInv | mcp/conn.go:42-141 | each step of a caller or the reader keeps: numbers distinct, pending exact, only own messages in a channel |
| Rpc.Channel.Offer | mcp/conn.go:129-132 | a message is dropped when the channel is full |
| Rpc.Conn.TakeNumber | mcp/conn.go:43 | the step that draws a number |
| Rpc.Conn.Enter | mcp/conn.go:59-62 | the step that registers a call with a new channel |
| Rpc.Conn.Receive | mcp/conn.go:75-79 | the step that takes the response |
| Rpc.Conn.StopWaiting | mcp/conn.go:80-83 | the steps that give up waiting |
| Rpc.Conn.Leave | mcp/conn.go:64-68 | the deferred delete |
| Rpc.Conn.ReadLine | mcp/conn.go:113-139 | the step that reads a line and finds its call, if it is a response to one in pending, or enters the handler |
| Rpc.Conn.Resume | mcp/conn.go:134-139 | the step in which the handler returns |
| Rpc.Conn.Hand | mcp/conn.go:128-133 | the step that hands the message over without waiting |
| RpcRuns.GetsFirstResponse | mcp/conn.go:74-79 | a call that returns a message returns the first line with its own number and no method name that was read while it was registered |
| RpcRuns.ResponseCanBeTaken | mcp/conn.go:125-133 | a waiting call can take a response exactly when such a line was read, and takes the first |
| RpcRuns.ResponseArrives | mcp/conn.go:117-133 | a result or an error with the number of a waiting call is read, handed over and taken by that call |
| RpcRuns.OtherLines | mcp/conn.go:117-140 | a message with a method name goes to the handler; other lines change nothing |
| RpcRuns.EndsForReason | mcp/conn.go:53-84 | a call that ends with a message took one; one that ends without did so for a failed encoding or send, its own cancellation, or the end of the reader, and says which |
| RpcRuns.PendingExactly | mcp/conn.go:58-68 | numbers are distinct and pending holds exactly the registered calls that have not returned |
| RpcRuns.NothingLeaks | mcp/conn.go:64-68 | when every call has returned, pending is empty |
| RpcRuns.ReaderBlocksExactly | mcp/conn.go:112-141 | until it exits the reader has a step, whatever the callers do, if and only if it is not inside a handler whose own call has not returned |
| RpcRuns.BackExactly | mcp/conn.go:74-84 | while the handler is inside a call, some run without the cancellation of that call brings the reader back if and only if the call does not wait yet |
| RpcRuns.StuckStays | mcp/conn.go:134-139 | a handler that waits for a response keeps waiting, and no call is answered, in every run without the cancellation of that call |
| RpcRuns.CancelFrees | mcp/conn.go:80-81 | the cancellation frees the reader |
| RpcRuns.StuckReachable | mcp/conn.go:134-139 | such a state is reached when the handler calls over its own connection |
| RpcRuns.OwnStepsBounded | mcp/conn.go:42-85 | no other step moves a call, and it returns within as many steps of its own as its rank |
| RpcRuns.CanReturn | mcp/conn.go:82-83 | after the reader has exited, every outstanding call returns by its own steps |

## Left out

- Float64: the bucket's balance and refill are exact rationals (scaled integers), the backoff powers exact integers; rounding of the sums is not modelled.
- The clock is monotonic in whole nanoseconds; `time.Duration` saturation in elapsed times is not modelled.
- Client.Attempt: a provider that panics between the breaker's allow and record ends the program's call and is not an outcome here; what it does to the breaker is the event `Lose`.
- Client.Client.Complete: providers write to anything of their copy but what it shares with the caller's request (stop sequences, references of unknown types); isolation cannot hold for those.
- RateLimit.Limiter.Acquire: models the wait of one uncontended caller; contending callers are covered by the theorems over sequences of tryAcquire.
- Breaker.CircuitBreaker.Complete: stands for Stream, Embed and the cache operations too, which pair allow and record in the same way.
- Client.Stream and Client.Embed walk the same chain and are not repeated; panics of the key builder end the run without a record, as in the code.
- Requests.CloneMessages: the cache-control pointers and media payloads of content blocks are left out; media blocks are kept by their size and never held by pointer.
- PolicyInPlace.Validate: the embedding limits are left out. What `fmt.Sprint` prints of a value of an unknown type is any function of its value.
- Policy.Fixpoint: the report and its reporter, which can refuse a request, are left out.
- SHA-256 is any function to 64 hexadecimal digits; the JSON of requests, the regular-expression engine, HTTP, credentials and headers are not modelled. The pattern for the billing header is written out as a scan.
- Retry.RetryValue: a negative number of retries is excluded, as the configuration check does (`client.go:131-191`).
- Agent.RunAgent: hooks and cancellation are left out, and the streaming variant `RunAgentStream`, which differs in forwarding chunks; the tools' answers are fixed per round and index, so the context a failing parallel call cancels changes no other call's answer.
- Stream.ParseStream: takes decoded lines; cancellation and the other providers' assemblers are left out. The accumulators are values in a map, since nothing else refers to them.
- StreamResult.StreamAccumulator.Add: the aliasing of the cloned tool-call slice and the timestamps are left out.
- Rpc.Conn.TakeNumber: numbers are unbounded integers; the int64 counter would wrap after 2^63 calls.
- What a notification handler does besides calling over the connection, and `notify`, which touches neither numbers nor pending.
- The MCP client's tool cache, operations on media, costs, snapshots, logging, configuration files and `Stats.Get` as a snapshot are left out.
