# Inference Forge: verified model of the call path and the job pipeline

This project models the part of Inference Forge that decides what happens to a support ticket: the
circuit breaker, the retry loop, the throttle, the semaphore and the result cache that all tickets
share, the recovery of a JSON answer from a model's text, the priority batcher and its time
estimates, and the accounting of a job from its submission to its final event.

| file | contents |
|---|---|
| `CircuitBreaker.dfy` | the breaker object, each method proved against a function on breaker values |
| `BreakerHistory.dfy` | the breaker with a log of what it did, and the invariant that every stretch of its code keeps |
| `Gates.dfy` | the semaphore and the two locks: holders and a first-come queue |
| `Pipeline.dfy` | the step machine: any number of tickets interleaving at their suspension points |
| `PipelineInvariant.dfy` | the inductive invariant of the machine |
| `PipelineSafety.dfy` | what therefore holds in every reachable world |
| `CloseProbes.dfy` | a concrete run in which two probes start at the same instant |
| `StepLaws.dfy` | what each step does, exactly, said without the functions that compute it |
| `PipelineProgress.dfy` | freedom from deadlock, termination |
| `ApiCall.dfy` | one attempt from its response on: what the retry loop gets to see |
| `Retry.dfy` | the retry loop of one ticket, its decisive answers and its sleeping time |
| `Caller.dfy` | collecting a batch, isolation of tickets |
| `Texts.dfy`, `ThinkTags.dfy`, `Extractor.dfy` | trimming, dropping the reasoning part, finding the JSON object |
| `PriorityQueue.dfy`, `Batcher.dfy` | a binary heap in an object, and the drain into batches |
| `Estimator.dfy` | classes, the batch count, the moving average |
| `Cache.dfy`, `JobStore.dfy`, `Routes.dfy` | first-write-wins cache, job records and events, a whole job |
| `Common.dfy`, `Records.dfy` | spaced instants and rate bounds, JSON values and result dictionaries |

## How the concurrency is modelled

A ticket's coroutine is always in one phase: before or after the cache lookup, queued for the
semaphore, ready for an attempt, queued for the probe lock, launched, queued for the rate-limit lock,
holding it, in flight, between attempts, storing its result, done.  An event moves one ticket at an
instant not earlier than the last one.  Everything the code does between two suspension points is one
event, or several where that only adds interleavings; the breaker's check and start, and its
bookkeeping when a wrapped call ends, are one event each.  Within one event the monotonic clock may be
read several times, and each reading is a parameter; readings never decrease.  A ticket can be
cancelled in any phase; a cancelled wrapped call leaves no failure record, and a write to the cache that was
under way may or may not have arrived.  A sleep is assumed never to end early: `Post` and `Wake` are enabled
only once the instant they wait for has come, on which the throttle's rate bound rests.  The outcome of an
attempt, the jitter draws, the answers of the cache and the availability of the store are parameters
too.  Theorems about runs quantify over all runs from the initial world, so over every arrival of
tickets, every interleaving and every outcome.

## Where the code and its documentation differ

The model follows the code.

- A caller that arrives while a probe is under way waits for the probe lock. The docstring and
  `docs/ADR.md` say that it is rejected. It is refused only if the breaker is open again when it gets
  the lock (`ArrivalDuringProbeWaits`, `WaiterRefusedIffOpen`).
- The first wrapped call to end resolves Half-Open, whatever path it started on, so a stale call from
  the Closed period can do it (`AnyEndingResolvesHalfOpen`).
- A failed probe records its failure twice, and both records count towards the threshold when a stale
  success has closed the breaker under the probe (`FailedProbeRecordsTwice`, `FailingCallTrips`).
- A cancelled probe leaves Half-Open as it is, so the next caller in line starts at once: the spacing of
  probes needs the condition that no probe was cancelled in between (`ProbesApartUnlessCancelled`,
  `CancelledProbeLeavesNoGap`); `ProbesCanBeClose` is a run that breaks both the spacing and the rate bound.
- The extractor tries top-level blocks only; its docstring promises every balanced block
  (`NestedBlockIsNotTried`, `ExtractedIffTopBlockParses`).
- The tag removal by regular expression never removes anything: it is reached only without a closing
  tag (`RegexBranchIsTrim`).
- A status outside both sets, such as 404, goes to the next attempt without a sleep, and a
  `Retry-After` that is not a number ends the ticket with an exception (`WhatFollows`,
  `FirstDecisiveAnswerWins`).
- The published `completed` counts failures, the one in the job record does not (`Books`).
- A job whose tickets are all processed can still be left as failed when the store raises in a late call.
  If only the publication of the done event raises, the results are stored and the status is failed all the
  same; if the call that marks the failure raises as well, the job stays as done or as processing.
  `StatusAfter` gives the status for every combination of replies, and `ProcessJob` and `Serve` prove it.
- The sum over the `tokens` of the results cannot raise on anything that this code produces: a count that
  cannot be added up already raises in `record_api_call`, before the answer is returned, and makes the
  attempt one that is retried (`UncountableIsExhausted`, `SumNeverRaises`). For results that somebody else
  wrote to Redis it can, and `Summable` says when.
- Only for such foreign entries, too, could a pre-cached result carry an error; it would count as completed
  and be listed as a failure (`Closed`). Nothing that this code stores has one (`StoredAddUp`,
  `SumNeverRaises`).
- `estimate_initial` uses the running average once there is one; its docstring names the default only.

## Model

| member | source | states |
|---|---|---|
| `PipelineSafety.ProbeRateBound` | src/inference_forge/pipeline/circuit_breaker.py:107-134 | in every reachable world without a cancelled probe, calls started in Half-Open are at least the recovery time apart, and any span L holds at most floor(L / recovery) + 1 of them, stale completions included |
| `PipelineSafety.ProbesApartUnlessCancelled` | src/inference_forge/pipeline/circuit_breaker.py:114-134 | cancellations allowed: two probe starts are the recovery time apart or a probe was cancelled between them |
| `PipelineSafety.CancelledProbeLeavesNoGap` | src/inference_forge/pipeline/circuit_breaker.py:121-134 | in every world with a live probe and a waiter, cancelling the probe lets the first waiter start a second one at the same instant, in the same episode |
| `CloseProbes.ProbesCanBeClose` | src/inference_forge/pipeline/circuit_breaker.py:107-134 | such a world is reachable: after a run of fifteen events two probes have started at the same instant, and neither the spacing nor the rate bound holds |
| `PipelineSafety.OpenDwell` | src/inference_forge/pipeline/circuit_breaker.py:83-126 | in every interleaving no wrapped call starts while Open, and none sooner than the recovery time after any earlier opening, queued callers included |
| `PipelineSafety.ProbeExclusive` | src/inference_forge/pipeline/circuit_breaker.py:114-134 | in every reachable world at most one call is on the probe path, and it is the one holder of the probe lock, cancellations included |
| `PipelineSafety.WindowIsLog` | src/inference_forge/pipeline/circuit_breaker.py:153-173 | in every reachable world the deque is sorted and equals the full log since the last close filtered by the latest cutoff; Closed means shorter than the threshold; no opening time exactly in Closed |
| `PipelineSafety.OnlyFourEdges` | src/inference_forge/pipeline/circuit_breaker.py:107-112 | every step that changes the state takes one of the four intended edges, each with its cause: recovery due at a call, or the success or failure of a wrapped call |
| `PipelineSafety.ArrivalDuringProbeWaits` | src/inference_forge/pipeline/circuit_breaker.py:97-121 | a caller that arrives in Half-Open during a probe queues on the lock and is not refused |
| `PipelineSafety.WaiterRefusedIffOpen` | src/inference_forge/pipeline/circuit_breaker.py:121-129 | a waiter given the lock is refused if and only if the state is Open, and is the probe if and only if it is Half-Open |
| `StepLaws.AttemptWhileOpen` | src/inference_forge/pipeline/circuit_breaker.py:83-112 | in every reachable world a call while Open goes for the probe if and only if the recovery time since the latest opening has passed, and is refused before; no stale failure postpones that instant |
| `StepLaws.AttemptByState` | src/inference_forge/pipeline/circuit_breaker.py:90-121 | what a call does in every state, with the probe lock free or not, and with the breaker switched off |
| `StepLaws.GrantByState` | src/inference_forge/pipeline/circuit_breaker.py:121-129 | what a waiter does that is given the probe lock, in every state |
| `StepLaws.AnswerIsLearned` | src/inference_forge/pipeline/circuit_breaker.py:143-151 | the ticket learns exactly the outcome that its call had |
| `StepLaws.SuccessAtBreaker` | src/inference_forge/pipeline/circuit_breaker.py:153-156 | a success clears and closes a Half-Open breaker and changes no other |
| `StepLaws.FailureAtBreaker` | src/inference_forge/pipeline/circuit_breaker.py:158-168 | what is recorded, once or twice; Half-Open reopens, Open stays open since the same instant |
| `StepLaws.FailureTrips` | src/inference_forge/pipeline/circuit_breaker.py:167-168 | in every reachable world a failing call trips a Closed breaker exactly when the in-window failures of the whole log reach the threshold |
| `BreakerHistory.TripExact` | src/inference_forge/pipeline/circuit_breaker.py:158-187 | Closed goes to Open exactly when the in-window failures of the full log reach the threshold, and then there are exactly that many |
| `BreakerHistory.FailingCallTrips` | src/inference_forge/pipeline/circuit_breaker.py:128-151 | exact condition for a failing call to open a Closed breaker: once counted on the plain path, twice on the probe path |
| `BreakerHistory.FailedProbeRecordsTwice` | src/inference_forge/pipeline/circuit_breaker.py:128-151 | a failed probe leaves two records and one opening |
| `BreakerHistory.AnyEndingResolvesHalfOpen` | src/inference_forge/pipeline/circuit_breaker.py:153-165 | in Half-Open a success on any path closes and clears, a failure on any path opens |
| `BreakerHistory.EvictIsFullScan` | src/inference_forge/pipeline/circuit_breaker.py:170-173 | on a sorted deque popping from the front keeps exactly the timestamps at or after the cutoff |
| `BreakerHistory.WindowAdvances` | src/inference_forge/pipeline/circuit_breaker.py:158-173 | recording and evicting an already evicted window equals one scan of the whole log |
| `BreakerHistory.ProbeGap` | src/inference_forge/pipeline/circuit_breaker.py:107-134 | between two probe starts without a cancelled probe lies an opening, hence the recovery time |
| `BreakerHistory.FinishKeepsSound` | src/inference_forge/pipeline/circuit_breaker.py:128-168 | every way in which a wrapped call ends, on every path and in every state, keeps the history invariant |
| `CircuitBreakers.CircuitBreaker.EvictOldFailures` | src/inference_forge/pipeline/circuit_breaker.py:170-173 | the popleft loop realises the eviction function |
| `CircuitBreakers.CircuitBreaker.FailureCount` | src/inference_forge/pipeline/circuit_breaker.py:70-73 | counts after evicting |
| `CircuitBreakers.CircuitBreaker.TransitionTo` | src/inference_forge/pipeline/circuit_breaker.py:175-187 | state and opening time after a transition |
| `CircuitBreakers.CircuitBreaker.RecordSuccess` | src/inference_forge/pipeline/circuit_breaker.py:153-156 | the whole new state after a success |
| `CircuitBreakers.CircuitBreaker.RecordFailure` | src/inference_forge/pipeline/circuit_breaker.py:158-168 | the whole new state after a failure |
| `CircuitBreakers.CircuitBreaker.Enter` | src/inference_forge/pipeline/circuit_breaker.py:83-112 | recovery check, then refuse, contend or start |
| `CircuitBreakers.CircuitBreaker.EnterUnderLock` | src/inference_forge/pipeline/circuit_breaker.py:121-129 | the second look at the state, under the lock |
| `CircuitBreakers.CircuitBreaker.Conclude` | src/inference_forge/pipeline/circuit_breaker.py:128-151 | the bookkeeping of a wrapped call that succeeds, fails, raises the breaker's own error or is cancelled |
| `Gates.ShiftKeepsOk` | src/inference_forge/pipeline/circuit_breaker.py:121 | a lock or semaphore never has more holders than places, and its holders and queue are exactly the tasks in those phases |
| `StepLaws.FirstComeFirstServed` | src/inference_forge/pipeline/caller.py:147 | over any run, as long as the earlier of two waiters on a gate stays queued, the later one is behind it or cancelled |
| `StepLaws.NewcomerIsLast` | src/inference_forge/pipeline/caller.py:328 | who starts to wait is behind all that wait already |
| `StepLaws.SlotHeldThroughout` | src/inference_forge/pipeline/caller.py:328-333 | in every reachable world a ticket holds its slot exactly from being let in until the retry loop returns, and each lock exactly inside its block |
| `StepLaws.AskSlotExact` | src/inference_forge/pipeline/caller.py:328 | a free slot is taken at once if nobody waits, and queued for otherwise |
| `PipelineInvariant.StepKeepsInv` | src/inference_forge/pipeline/caller.py:315-335 | every enabled step of the machine keeps the whole invariant: gates, breaker, throttle, retry positions, cache |
| `PipelineInvariant.SoleHolder` | src/inference_forge/pipeline/caller.py:147 | a lock has one holder |
| `PipelineSafety.ConcurrencyCap` | src/inference_forge/pipeline/caller.py:328-329 | in every reachable world the API calls in flight across all jobs never exceed the semaphore's size |
| `PipelineSafety.ThrottleRateBound` | src/inference_forge/pipeline/caller.py:145-153 | the values given to `_last_call_ts` are at least the minimum interval apart, and any span L holds at most floor(L / interval) + 1 of them |
| `StepLaws.PostsWhenDue` | src/inference_forge/pipeline/caller.py:149-153 | in every reachable world the holder of the rate-limit lock may post exactly from one interval after the latest call on |
| `StepLaws.PostExact` | src/inference_forge/pipeline/caller.py:153-156 | a post records its instant and goes out |
| `StepLaws.AskPaceExact` | src/inference_forge/pipeline/caller.py:145-147 | without an interval a call goes out at once, with one it takes the lock or queues for it |
| `Common.RateBound` | src/inference_forge/pipeline/caller.py:145-153 | spaced instants: at most floor(L / gap) + 1 of them in a closed interval of length L |
| `PipelineSafety.CacheValuesAreStable` | src/inference_forge/pipeline/cache.py:68-73 | over any continuation of any run a stored value never changes |
| `PipelineSafety.HitsAreFirstSuccess` | src/inference_forge/pipeline/caller.py:324-335 | every hit is the first result sent to the cache for a ticket with the same normal form, and that result has no error |
| `StepLaws.LookupUsesCache` | src/inference_forge/pipeline/caller.py:324-328 | in every reachable world an answered lookup ends the ticket at once, without an attempt, with the first result sent for its normal form, if and only if there is one |
| `StepLaws.LookupMayRaise` | src/inference_forge/pipeline/caller.py:324 | a lookup that raises ends the ticket with that exception |
| `StepLaws.SaveByReply` | src/inference_forge/pipeline/caller.py:331-335 | a write that returns ends the ticket with its answer, one that raises with an exception, with or without effect; the first value of a key stays |
| `StepLaws.CancelExact` | src/inference_forge/pipeline/circuit_breaker.py:143-151 | cancellation ends the ticket, leaves no failure record, and may let a write that was under way arrive |
| `StepLaws.AnswersAreSent` | src/inference_forge/pipeline/caller.py:331-335 | in every reachable world a ticket that calls answered without an error has its whole result among those sent to the cache |
| `Cache.KeyIgnoresOuterSpace` | src/inference_forge/pipeline/cache.py:20-23 | the key of a trimmed text with white space around it is the text in lower case |
| `PipelineInvariant.WriteKeepsStore` | src/inference_forge/pipeline/cache.py:68-73 | set-if-absent keeps every key explained by the first write for it |
| `PipelineSafety.InterleavingRefinesLoop` | src/inference_forge/pipeline/caller.py:193-335 | however tickets interleave, a ticket answered by calls got the result, made the number of attempts and took the pauses that the sequential loop computes from its own outcomes and draws |
| `PipelineSafety.PauseTimeBound` | src/inference_forge/pipeline/caller.py:202-285 | in every reachable world the pauses of a ticket answered by k attempts add up to at most 1.2·base·(2^(k-1)-1), and to at least 0.8·base·(2^(k-1)-1) when every attempt but the last pauses |
| `StepLaws.PauseIsWaited` | src/inference_forge/pipeline/caller.py:229-278 | after an attempt the ticket returns, or is ready at once, or sleeps, and then wakes exactly when that much time has passed |
| `Retry.SleepsArePauses` | src/inference_forge/pipeline/caller.py:202-285 | the sleeps of the loop are the pauses after its attempts, one by one |
| `PipelineProgress.NoDeadlock` | src/inference_forge/pipeline/caller.py:328-329 | in every world whose gates are in order, so in every reachable one, an unfinished ticket implies that some ticket can go on, without a cancellation or an arrival |
| `PipelineProgress.StepDecreases` | src/inference_forge/pipeline/caller.py:204-278 | every step other than an arrival decreases the measure of remaining attempts and phases |
| `PipelineProgress.RunsAreBounded` | src/inference_forge/pipeline/caller.py:204-278 | a run without arrivals is no longer than the measure of its first world |
| `PipelineProgress.StuckMeansDone` | src/inference_forge/pipeline/caller.py:337-353 | a run without arrivals cannot be continued if and only if every ticket is done |
| `PipelineProgress.EveryBatchCanFinish` | src/inference_forge/pipeline/caller.py:337-353 | from every such world some continuation finishes every ticket |
| `Caller.ProcessBatch` | src/inference_forge/pipeline/caller.py:337-353 | one result per ticket in input order, exceptions turned into failure results |
| `Caller.BatchInInputOrder` | src/inference_forge/pipeline/caller.py:339-353 | for a batch submitted in any world and any run after it, what is collected once its tickets are done is the list of the reports of its own tasks, in input order, whatever the completion order |
| `Caller.BatchStaysReachable` | src/inference_forge/pipeline/caller.py:339-340 | a batch submitted in a reachable world leads to reachable worlds only, so that all that is said of those holds of its reports |
| `Caller.ReportIsItsOwn` | src/inference_forge/pipeline/caller.py:337-353 | the report of a finished ticket depends on its own history and the first stored success only |
| `Caller.SuccessNeedsAnAnswer` | src/inference_forge/pipeline/caller.py:204-285 | a report without an error, if not a hit, comes from a last answer that was a JSON object |
| `Caller.Collected` | src/inference_forge/pipeline/caller.py:342-352 | an exception always becomes a result with a truthy error and no hit flag |
| `Caller.HitFlagIsOrigin` | src/inference_forge/pipeline/caller.py:326-335 | in every reachable world a report is marked as a hit if and only if it comes from the cache |
| `Caller.ErrorMessageIsCut` | src/inference_forge/pipeline/caller.py:349-350 | the whole text if it fits in 500 characters, else its first 500 |
| `ApiCalls.SingleApiCall` | src/inference_forge/pipeline/caller.py:174-190 | the statements after the request, each of which may raise, give the outcome of the response; the rows that follow say what it leads to |
| `ApiCalls.FatalStatusEnds` | src/inference_forge/pipeline/caller.py:228-234 | 400, 401, 403 and 422 end the ticket at that attempt with `http_` and the status as its error |
| `ApiCalls.RateLimitIsHonoured` | src/inference_forge/pipeline/caller.py:236-246 | a 429 that is followed by another attempt sleeps exactly the delay it names; one that names something else ends the ticket with an exception |
| `ApiCalls.TroubleBacksOff` | src/inference_forge/pipeline/caller.py:248-278 | 500, 503, a 429 without a delay, no response, and a success without a usable object pause for the backoff give or take a fifth |
| `ApiCalls.OtherStatusGoesOn` | src/inference_forge/pipeline/caller.py:254-255 | every other failing status goes on to the next attempt at once |
| `ApiCalls.ObjectIsReturned` | src/inference_forge/pipeline/caller.py:206-212 | an object in a successful response ends the ticket with that object and the count |
| `ApiCalls.AnsweredIff` | src/inference_forge/pipeline/caller.py:174-190 | an attempt answers if and only if a successful response holds a completion whose text parses, stripped or as some top-level block, with a count that can be added up |
| `ApiCalls.AnswerIsReturned` | src/inference_forge/pipeline/caller.py:174-212 | end to end: after any reasoning, an object in a successful response is the ticket's result at that attempt, with the count put in |
| `ApiCalls.UncountableIsExhausted` | src/inference_forge/observability/metrics.py:102-107 | a ticket whose answers all name a count that cannot be added up makes every attempt and fails as exhausted |
| `Retry.CallWithRetry` | src/inference_forge/pipeline/caller.py:193-285 | the attempt loop realises the recursive specification: result, attempts, sleeps |
| `Retry.WhatFollows` | src/inference_forge/pipeline/caller.py:214-278 | an attempt ends the loop exactly when it is decisive, sleeps exactly when it pauses and is not the last, for the named delay or the backoff give or take a fifth |
| `Retry.FirstDecisiveAnswerWins` | src/inference_forge/pipeline/caller.py:193-296 | there is a first decisive answer, or none; it fixes the result and the number of attempts, independent of draws and sleeps, and without one all attempts are made |
| `Retry.RetryTimeBound` | src/inference_forge/pipeline/caller.py:40-41 | attempts at most the maximum; if no attempt that was followed by another named a delay, total sleep at most 1.2·base·(2^(k-1)-1), and at least 0.8·base·(2^(k-1)-1) when every attempt but the last pauses |
| `Retry.SleepUpTo` | src/inference_forge/pipeline/caller.py:202-285 | the upper bound from any attempt on |
| `Retry.SleepAtLeast` | src/inference_forge/pipeline/caller.py:202-285 | the lower bound from any attempt on |
| `Retry.JitterBounds` | src/inference_forge/pipeline/caller.py:98-101 | a jittered backoff is within a fifth of its base |
| `Retry.JitterSpreads` | src/inference_forge/pipeline/caller.py:98-101 | every factor between 0.8 and 1.2 occurs |
| `Retry.BackoffStarts` | src/inference_forge/pipeline/caller.py:40-41 | the first backoff is the base; `Retry.BackoffDoubles` says that each further one is twice the last |
| `Retry.BackoffDoubles` | src/inference_forge/pipeline/caller.py:40-41 | each backoff is twice the one before |
| `Retry.DecimalDenotes` | src/inference_forge/pipeline/caller.py:234 | the decimal text of a status reads back as the status, without a leading zero |
| `Texts.StripUnique` | src/inference_forge/pipeline/caller.py:54 | trimming recovers a trimmed body from any white space around it |
| `Texts.WordsAreCounted` | src/inference_forge/pipeline/estimator.py:32 | n words with white space between and around them count n |
| `Texts.AsciiSpaces` | src/inference_forge/pipeline/estimator.py:32 | which ASCII characters are white space |
| `ThinkTags.StripRecoversBody` | src/inference_forge/pipeline/caller.py:53-55 | any reasoning, earlier closing tags included, then the tag, white space and a body without the tag: the body is recovered exactly |
| `ThinkTags.RegexBranchIsTrim` | src/inference_forge/pipeline/caller.py:56-58 | without a closing tag the result is the trimmed text |
| `ThinkTags.StripThinkTagsIdempotent` | src/inference_forge/pipeline/caller.py:44-58 | stripping twice is stripping once, for every text |
| `ThinkTags.NothingAfterTag` | src/inference_forge/pipeline/caller.py:55 | nothing but white space after the last tag: the trimmed text is kept, tag included |
| `Extractor.MatchBrace` | src/inference_forge/pipeline/caller.py:78-93 | the counting loop stops at the closing brace, or at the end of the text with an unclosed one |
| `Extractor.ScanBlocks` | src/inference_forge/pipeline/caller.py:72-95 | the scan returns the parse of the first top-level balanced block that parses, or nothing |
| `Extractor.ExtractJsonObject` | src/inference_forge/pipeline/caller.py:61-95 | the same, over the stripped text or the whole text when nothing is left |
| `Extractor.ExtractedIffTopBlockParses` | src/inference_forge/pipeline/caller.py:72-95 | extraction succeeds if and only if some balanced block outside every other brace, closed or not, parses |
| `Extractor.NestedBlockIsNotTried` | src/inference_forge/pipeline/caller.py:88-93 | for every parser that accepts `{}` and rejects `{x {}}`: in that text the nested balanced block parses, and extraction fails |
| `Extractor.ObjectInProse` | src/inference_forge/pipeline/caller.py:72-90 | one object in prose without an earlier brace is returned |
| `Extractor.ParseContent` | src/inference_forge/pipeline/caller.py:180-185 | stripped text first, then the scan |
| `Extractor.ReasoningIsIgnored` | src/inference_forge/pipeline/caller.py:180-185 | a well-formed body after any reasoning is what the whole content path returns |
| `Extractor.ObjectAfterReasoning` | src/inference_forge/pipeline/caller.py:61-95 | after any reasoning, braces included, an object in brace-free prose is what the content path returns |
| `PriorityQueues.PriorityQueue.Put` | src/inference_forge/pipeline/batcher.py:60 | keeps the heap order and adds exactly the item |
| `PriorityQueues.PriorityQueue.Get` | src/inference_forge/pipeline/batcher.py:80 | removes exactly one item of least priority, ties in any order |
| `PriorityQueues.RootIsLeast` | src/inference_forge/pipeline/batcher.py:74-75 | in a binary heap no item has a smaller priority than the root |
| `Batcher.PriorityBatcher.EnqueueMany` | src/inference_forge/pipeline/batcher.py:49-60 | the queue gains exactly the tickets with their indices and classes |
| `Batcher.PriorityBatcher.DrainBatch` | src/inference_forge/pipeline/batcher.py:69-103 | a batch of the first class present, of at most 5 complex, 10 medium or 20 simple tickets, and that many unless none of the class is left; nothing is lost when the candidate is put back |
| `Batcher.ItemsPointBack` | src/inference_forge/pipeline/batcher.py:51-60 | each index of a batch points back at its ticket, and the ticket is of the batch's class |
| `Batcher.PriorityBatcher.DrainAllBatches` | src/inference_forge/pipeline/batcher.py:113-120 | batches hold exactly what was queued, fit, come complex first and simple last, and number ceil(c/5) + ceil(m/10) + ceil(s/20) |
| `Batcher.BatchesAreQuotients` | src/inference_forge/pipeline/estimator.py:23-27 | the number of batches is ceil(c/5) + ceil(m/10) + ceil(s/20) |
| `Batcher.DrainIsOptimal` | src/inference_forge/pipeline/batcher.py:69-120 | no way of cutting tickets into fitting single-class batches uses fewer |
| `Batcher.OneBatchLess` | src/inference_forge/pipeline/batcher.py:87-98 | one drain lowers the number of batches still needed by exactly one |
| `Batcher.EstimateAgainstDrain` | src/inference_forge/pipeline/estimator.py:106-120 | the weighted count over `breakdown(tickets)` is at most the number of batches the drain makes and less than 3 below it |
| `Estimator.BreakDown` | src/inference_forge/pipeline/estimator.py:62-72 | counts each class, and the counts add up |
| `Estimator.ClassByWords` | src/inference_forge/pipeline/estimator.py:30-37 | a text of n words is simple below 15, medium up to 60, complex above |
| `Estimator.CeilIsRoundedUp` | src/inference_forge/pipeline/estimator.py:22-27 | the batch count is the quotient rounded up |
| `Estimator.InitialEstimateAgreesWithDrain` | src/inference_forge/pipeline/estimator.py:106-120 | weighted batches against rounded-up batches |
| `Estimator.ETAEstimator.Update` | src/inference_forge/pipeline/estimator.py:91-97 | the object's average is that of the whole history |
| `Estimator.EstimateBracket` | src/inference_forge/pipeline/estimator.py:99-104 | `Estimate` is at least the latency of one batch and at least that of remaining / size batches, and at most that of all batches which the remaining tickets, if of one class, need |
| `Estimator.InitialEstimateBracket` | src/inference_forge/pipeline/estimator.py:106-120 | `EstimateInitial` is at most the time of the drain's batches at the current latency, and at most three batches short of it |
| `Estimator.WeightsAreExact` | src/inference_forge/pipeline/estimator.py:114-118 | complex, medium and simple tickets weigh a fifth, a tenth and a twentieth of a batch |
| `Estimator.LatencyFromSamples` | src/inference_forge/pipeline/estimator.py:102 | the latency is the average of all samples, and the default before the first |
| `Estimator.EwmaClosedForm` | src/inference_forge/pipeline/estimator.py:91-97 | the recurrence equals the closed-form weighted sum |
| `Estimator.EwmaBounded` | src/inference_forge/pipeline/estimator.py:91-97 | the average lies between any bounds on the samples |
| `Estimator.EwmaConverges` | src/inference_forge/pipeline/estimator.py:91-97 | k further samples c leave exactly (1 - alpha)^k of the distance to c |
| `Cache.SetIfAbsent` | src/inference_forge/pipeline/cache.py:68-73 | the key is present afterwards and no earlier value changes |
| `Cache.DeduplicationCache.Get` | src/inference_forge/pipeline/cache.py:47-66 | lookup by normal form, counting hits and misses |
| `Cache.DeduplicationCache.Set` | src/inference_forge/pipeline/cache.py:68-73 | first write wins |
| `Cache.DeduplicationCache.HitRate` | src/inference_forge/pipeline/cache.py:79-82 | hits as a fraction of all lookups |
| `JobStores.JobStore.IncrementProgress` | src/inference_forge/pipeline/job_store.py:78-93 | adds to the three counters of one record, a missing one counting from its defaults; no other record is touched |
| `Routes.ProcessTickets` | src/inference_forge/api/routes.py:220-244 | the loop over the request realises the first-occurrence specification |
| `Routes.SubmissionAccounts` | src/inference_forge/api/routes.py:220-244 | every ticket is counted once, and unique plus pre-cached tickets number the distinct normal forms |
| `Routes.SubmissionCovers` | src/inference_forge/api/routes.py:226-241 | no normal form of the request is lost |
| `Routes.UniqueTicketsHaveDistinctKeys` | src/inference_forge/api/routes.py:226-241 | tickets sent to the batcher have pairwise distinct keys |
| `Routes.HitsCarry` | src/inference_forge/api/routes.py:226-239 | the pre-cached results carry, for each first occurrence that the cache answers and in order, every field that the cache held at that lookup |
| `Routes.MissesList` | src/inference_forge/api/routes.py:226-241 | the unique tickets are the first occurrences that the cache does not answer, in order |
| `Routes.PreCachedAreHits` | src/inference_forge/api/routes.py:234-239 | all pre-cached results are marked as hits |
| `Routes.PreCachedAreSuccesses` | src/inference_forge/api/routes.py:234-239 | if no cached result has an error, no pre-cached one has |
| `Routes.Accept` | src/inference_forge/api/routes.py:243-256 | the record at launch agrees with the submission, for every request and every cache |
| `Routes.Tally` | src/inference_forge/api/routes.py:113-125 | the counts of a batch are those of its labelled results |
| `Routes.RunBatch` | src/inference_forge/api/routes.py:107-148 | one turn keeps local counters, record and result list in agreement and announces the new counts; each of the two calls to the store may raise on its own, with or without effect |
| `Routes.DrainLoop` | src/inference_forge/api/routes.py:99-148 | the loop drains the queue in exactly the number of batches needed, or stops at the first turn in which one of the two calls raises |
| `Routes.ProcessJob` | src/inference_forge/api/routes.py:69-199 | for every behaviour of the store: the status in which the job is left, whether its results are stored, which events were published; once all batches are processed, record, counters and results agree, also in a failed job, and each result carries what its ticket's coroutine handed back; other jobs are untouched |
| `Routes.Conclude` | src/inference_forge/api/routes.py:181-182 | the two final writes: results and status even if the publication then raises |
| `Routes.SummableParts` | src/inference_forge/api/routes.py:161 | whether the sum raises depends on the pre-cached results and the reports only, not on the order of the batches |
| `Routes.ReconciledCarries` | src/inference_forge/api/routes.py:117-128 | after the pre-cached results there is one result for each unique ticket, with every field that its coroutine handed back, and the failed count is the number of those that raised or carry an error |
| `Routes.SumNeverRaises` | src/inference_forge/api/routes.py:161 | with caches and outcomes that the step machine supplies, no cached result has an error and every count can be added up, so the final writes are reached exactly when every batch is processed |
| `Routes.OnlyTheStoreFailsJobs` | src/inference_forge/api/routes.py:97-196 | for such caches and outcomes a job ends as failed if and only if it was started, some later call to the store raised, and the call that marks the failure took effect |
| `Caller.ReportsAddUp` | src/inference_forge/pipeline/caller.py:188-212 | in every reachable world the report of every finished ticket, hits included, has a count that can be added up |
| `Caller.StoredAddUp` | src/inference_forge/pipeline/caller.py:331-333 | in every reachable world every stored result lacks an error and has such a count |
| `Routes.TurnAdvances` | src/inference_forge/api/routes.py:127-148 | each batch keeps the agreement, and the published count strictly grows, never past the total, each event matching the results so far |
| `Routes.DuePermutation` | src/inference_forge/api/routes.py:99-119 | the results depend on which tickets were queued, not on the order in which the heap yields them |
| `Routes.Serve` | src/inference_forge/api/routes.py:207-270 | a whole job, for every request, cache, outcome and behaviour of the store: its final status; results stored exactly when they could be, and then completed plus failed is the number of tickets, the listed failures number the failed count (plus errors from the cache), each distinct normal form is answered exactly once, and every result carries what the cache held or the ticket's coroutine handed back |
| `Routes.SplitAccounts` | src/inference_forge/api/routes.py:363-371 | the two lists together are as long as the results, and the failures number the counted errors |
| `Routes.SplitPartitions` | src/inference_forge/api/routes.py:363-371 | every result is in exactly the list that its error says, as often as it occurs |
| `Routes.SplitKeepsOrder` | src/inference_forge/api/routes.py:365-366 | both lists keep the order of the results |
| `Records.FalsyValues` | src/inference_forge/api/routes.py:120-124 | exactly null, false, zero and the empty values are falsy |

## Left out

- The HTTP transport, payloads, headers and mock mode: an attempt has an arbitrary outcome instead.
- Redis: expiry, delivery of published events and pipelining; the cache and the store are maps, events are a list in order of publication. A call that raises, before or after it has taken effect, is modelled everywhere but in the submission; a lookup has no effect, so that one that raises is modelled without the distinction.
- Cancellation of a job's background coroutine itself, at shutdown.
- httpx and prometheus_client: `raise_for_status` is taken to raise for every status outside 200 to 299, and a counter to reject what is neither a number nor a truth value. A counter also rejects negative numbers; the model lets them pass, so that its theorems hold for them too.
- SHA-256 and JSON encoding: the normal form stands for the cache key, and the parser is a parameter.
- Unicode: lower-casing is a parameter, and a character is one code point; white space is the full set that `str.isspace` accepts.
- Floating-point rounding, `nan` and infinite `Retry-After` values: real numbers are used.
- Several background jobs sharing one store: `ProcessJob` is sequential and is proved to touch its own record and channel only; the tickets of all jobs do interleave, in the step machine.
- `process_ticket` and the throttle block have no method of their own: they are steps of the machine, because what matters about them is how they interleave.
- The binary heap lives in a `seq` field that the object's methods update, as the source's list does; growth by doubling is not modelled.
- Routes.Serve: the identifier is taken to be fresh, so that nothing has been published for it; the deduplication, `create` and the first `increment_progress` are taken to succeed, since a request in which they raise launches no job. That no cached result has an error is a case in the contract here, and proved of what the step machine stores (`Routes.SumNeverRaises`).
- Routes.ProcessJob: the outcome of each queued ticket is a parameter, looked up by its text; the tickets of a job have distinct texts (`Routes.UniqueTicketsHaveDistinctKeys`).
- FIFO order within a class: the source does not give it.
- Fairness: termination says that every run without new arrivals ends, provided that API calls and sleeps do.
- `_last_state_change`, the active-job gauge, logging, metrics, percentiles, cost figures, timestamps in the job record, the seconds shown in progress events, `classify_many`, `as_dict`.
- FastAPI routing, validation of requests, the event stream, health and metrics endpoints, progress answers for unfinished jobs: plumbing.
