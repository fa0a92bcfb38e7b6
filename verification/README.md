# Model of the keyword-analysis backend

A Dafny model of the job protocols and the dense pure engines of the backend, with the properties they rest on.
External systems appear as atomic steps (database, Redis, queue) or as oracles (LLM, Ads and SERP clients), and the
protocol theorems are about every interleaving of the concurrent actors.

`dafny verify dfyconfig.toml` checks the whole project.

| file | what it models |
|---|---|
| `AnalysisLifecycle.dfy`, `AnalysisSafety.dfy`, `AnalysisAnswers.dfy`, `AnalysisOwnership.dfy`, `AnalysisSystem.dfy` | submissions, cancellations, worker writes and snapshot transactions over one table: transition system and invariant, theorems over whole runs, what an undisturbed call answers and leaves behind, which failures lose a row or a snapshot, and the stores with one method per atomic operation |
| `AdsRateLimiter.dfy` | slot reservation on an expiring shared key, callers with skewed clocks, retry loop |
| `SerpCredits.dfy`, `AiSearchJob.dfy`, `AiSearchRuns.dfy` | credit ledger of the three paid channels, one job across crashes and re-deliveries, creation and reset of runs against the queue |
| `ResilientBatch.dfy`, `TopicNaming.dfy` | bisecting LLM batches |
| `Intent.dfy`, `IntentStream.dfy`, `IntentTimeline.dfy` | label cleaning and alignment, the two-layer cache, the streaming dispatch, the stream on a cache shared with other jobs |
| `Normalize.dfy`, `AdsExpansion.dfy`, `AdsHistorical.dfy`, `AdsAnswers.dfy`, `ExpandSnapshot.dfy` | candidate merging, request chunks, expansion, exact mode, what either mode hands on of the Ads answers, labelled snapshot rows |
| `Aggregate.dfy`, `AggregateLaws.dfy`, `AggregateMeaning.dfy`, `AggregateText.dfy`, `Paginate.dfy`, `CursorCodec.dfy` | the read engines |
| `JsonText.dfy`, `CanonicalJson.dfy`, `Preimages.dfy` | JSON text, canonical form, hash preimages |
| `BodyLimit.dfy`, `Captures.dfy`, `SweepLease.dfy` | body reader events, concurrent capture ingestion, sweep lease |
| `Base.dfy`, `Sorting.dfy`, `Gathering.dfy` | shared vocabulary |

## How the model reads the code

- A protocol is a state and a step function; a sequence of actions is one interleaving. Beside it stands a class whose
  methods are the single statements of the program; their postconditions say that they perform exactly that step.
- Worker writes are over-approximated: any job ever enqueued may be marked running, report progress, fail or open a
  snapshot transaction at any time and any number of times, or never. This covers stalled and repeated deliveries, lost
  writes, and deliveries that outlive their job. A job may end for good at any time, with or without a terminal status.
- In the analysis lifecycle, the AI-search runs and the AI-search job any database, cache or queue call may fail before or
  after taking effect, and any request or worker may die between two calls. The theorems hold for every such run unless
  they name the failure they exclude.
- The analysis lifecycle has one logical clock that may stand still and never runs backwards. Ids are random and never
  repeat.
- A Redis key whose deadline is exactly now may be visible or gone; the limiter is proved for both.
- Answers of the LLM, Ads and SERP clients are functions of the call number, so every failure pattern and every
  dependence on earlier calls is included. Concurrent batches get independent answer functions, so their relative
  timing does not matter.
- `normalizeText` is an arbitrary function; nothing is assumed about it, in particular not idempotence.
- JavaScript's sort is modelled by its contract: on a total order the sorted arrangement is unique, which is proved, so
  the algorithm does not matter. Strings are compared character by character.
- Numbers in the read engines are exact reals; bucket keys use exact floor division instead of `toPrecision`.
- SHA-256 is not modelled: statements about hashes are statements about their preimages.

## Where the code does less than it promises

- Analyses: a compensating delete and a failure write are to spare the table rows that stay in flight with nobody seeing
  them through. Four events still leave one, and exactly these (`AnalysisOwnership.StrandedIff`,
  `AnalysisOwnership.InFlightRowHasOwner`): the delete itself fails, the creator dies while it holds the row, the answer
  of the insert is lost, or the job ends for good without a terminal status having been written, because the best-effort
  failure write was lost or its worker died. Such a row never gets an owner again and does not change unless somebody
  cancels it or a delivery that outlived its job still writes (`AnalysisOwnership.StrandedForEver`), and every identical
  request is answered with it, however old it is (`AnalysisOwnership.StrandedAnswers`).
  `AnalysisOwnership.StrandingRuns` and `AnalysisOwnership.LostWritesStrand` have a run for each. A delivery whose save
  has returned leaves none (`AnalysisOwnership.SavedNotStranded`).
- Analyses: if `queue.add` takes effect but reports an error, the compensating delete may remove a row whose job is
  already running or finished. The snapshot keeps its analysis id without a foreign key, so it is orphaned
  (`AnalysisOwnership.LostAddOrphans`); nothing else orphans one (`AnalysisOwnership.OrphanedExactly`). The statements that
  a terminal row and its snapshot stay therefore say "as long as the row exists", and the row exists for good once its
  creator has let go of it.
- Analyses: the comment on re-caching says that a cache entry and its row's window run out together. That holds for the
  entry of a row met within its window (`AnalysisAnswers.RecacheEndsWithWindow`). The loser of a rotation race caches the
  winner for a whole window from that moment, so that entry ends with the winner's window only if the winner was created at
  that very moment (`AnalysisAnswers.WinnerEntryIff`).
- AI-search runs: a queued or running run can lose everybody responsible for it, and only a run at its end can be reset.
  It does so when the queue lets go of its job before a delivery has reported the end (by the stall limit, or after a last
  attempt whose failure write is lost), when a request leaves it behind (it dies inside `create`, its failure write is
  lost, or the answer of its insert or reset is), or when a delivery that lost its job writes `running` over the end its
  successor reported. `AiSearchRuns.OnlyTheseStrand` gives the exact condition, `AiSearchRuns.StrandingLosesOwner` the run
  that follows, and `AiSearchRuns.DiscardedJobStrandsRun`, `AiSearchRuns.LostFailureWriteStrandsRun` and
  `AiSearchRuns.LateRunningStrandsRun` are concrete ones.
- AI-search jobs: what is said of rows and credits holds for deliveries one after the other. A worker that lost its job to
  a second delivery and goes on beside it stores its rows too and has paid as well (`AiSearchJob.OverlapMixes`).
- AI-search jobs: the 'done' tick cannot flip a reported status, but a terminal status write that took effect and whose
  answer was lost is followed by `failed` on the last attempt (`AiSearchJob.FinalStatusWrittenOnceAndLast`).
- `dedupeMerge` documents a de-duplicated origin list, but a row with a single candidate copies the candidate's list as
  it is. `Normalize.OriginsAreUnionIff` gives the exact condition, and `AdsExpansion.RepeatedSeedRepeatsOrigin` an
  expansion that meets it: one request with a seed given twice.
- The comment on the limiter's key says that it always outlives its slot; that holds up to a clock disagreement of the
  buffer and not beyond (`AdsRateLimiter.BufferIsExactSkewBound`; one millisecond more if the server keeps a key through
  its deadline, `AdsRateLimiter.BufferBoundWhenKept`).
- The comment on null measures in the chart engine says that they sort last; they are mapped to minus infinity, so they
  sort last in descending and first in ascending order. The model does what the code does.
- A request `error` event without an error makes the body reader call `next` as if it had succeeded, without a body
  (`BodyLimit.SuccessIff`, `BodyLimit.ErrorWithoutErrorPasses`).
- The sweep lease has no owner, so an overdue sweep's release frees the lease of its successor
  (`SweepLease.LateReleaseFreesOthers`).

## Model

| member | source | states |
|---|---|---|
| `AnalysisLifecycle.StepKeeps` | src/keyword-analysis/keyword-analysis.service.ts:152-329 | every atomic step of any interleaving of creates, cancels, worker writes and snapshot transactions, failing before or after its effect, and every death of an actor keeps the invariant tying rows, keys, window, snapshots, queue and positions together |
| `AnalysisLifecycle.PcStable` | src/keyword-analysis/keyword-analysis.service.ts:180-213 | what an actor knows at its position stays true whatever the other actors do meanwhile |
| `AnalysisSafety.OneInFlightPerRequest` | src/keyword-analysis/keyword-analysis.service.ts:152-329 | in every reachable state a request digest, live or archived, has at most one queued or running row |
| `AnalysisSafety.RowsOfOneRequestApart` | src/keyword-analysis/keyword-analysis.service.ts:184-213 | two rows of one request are always created more than the freshness window apart |
| `AnalysisSafety.AnswersOwnRequest` | src/keyword-analysis/keyword-analysis.service.ts:164-168 | every id `create` returns, from cache or database, was minted for the caller's own request digest |
| `AnalysisOwnership.LetGoIff` | src/keyword-analysis/keyword-analysis.service.ts:222-239 | in one step a row is left with neither a live job nor its creator holding it if and only if it was so before, its compensating delete fails, its creator dies holding it, the answer of its insert is lost, or its job ends |
| `AnalysisOwnership.StrandedIff` | src/keyword-analysis/keyword-analysis.processor.ts:209-253 | a row in flight that has an owner is stranded by a step if and only if the step is one of these events: nothing else, no retry, no late write and no other request strands it |
| `AnalysisOwnership.InFlightRowHasOwner` | src/keyword-analysis/keyword-analysis.service.ts:215-239 | in every reachable state a queued or running row has a live job or its creator about to add or delete it if and only if none of the events of the run took them away |
| `AnalysisOwnership.SavedNotStranded` | src/keyword-analysis/result-snapshot.service.ts:82-140 | once a save has returned, the row is never in flight with nobody, whenever its job ends |
| `AnalysisOwnership.StrandedForEver` | src/keyword-analysis/keyword-analysis.service.ts:180-199 | a stranded row never gets an owner again, keeps its live key while in flight, and stays as it is unless somebody cancels it or a delivery that outlived its job writes; a row never enqueued can only be canceled |
| `AnalysisOwnership.StrandedAnswers` | src/keyword-analysis/keyword-analysis.service.ts:180-199 | an identical request that meets a stranded row, queued or running, is answered with it, however old the row is |
| `AnalysisOwnership.StrandingRuns` | src/keyword-analysis/keyword-analysis.service.ts:222-239 | a concrete run that strands a queued row for each way its creator can leave it |
| `AnalysisOwnership.LostWritesStrand` | src/keyword-analysis/keyword-analysis.processor.ts:209-253 | a concrete run in which the job fails for good while its writes are lost: the row stays queued, or running |
| `AnalysisOwnership.OrphanedExactly` | src/keyword-analysis/keyword-analysis.service.ts:236-238 | a snapshot loses its analysis if and only if a failed enqueue is undone on a row that already has it, which never happens unless the answer of a successful add was lost |
| `AnalysisOwnership.LostAddOrphans` | src/keyword-analysis/keyword-analysis.service.ts:222-239 | a concrete run in which the worker completes an analysis that its creator then deletes |
| `AnalysisSafety.OnlyUndoDeletes` | src/keyword-analysis/keyword-analysis.service.ts:236-238 | a row disappears in a step if and only if the step is its compensating delete taking effect |
| `AnalysisSafety.SnapshotMatchesStatus` | src/keyword-analysis/result-snapshot.service.ts:93-110 | a snapshot is linked if and only if the status is completed or partial, and then progress is frozen at intent/100 or metrics/60 with the snapshot's count |
| `AnalysisSafety.EverySnapshotLinked` | src/keyword-analysis/result-snapshot.service.ts:82-117 | no second snapshot of an analysis, and a snapshot is linked, by its own analysis, exactly as long as the row exists |
| `AnalysisSafety.TerminalIsAbsorbing` | src/keyword-analysis/keyword-analysis.processor.ts:239-253 | after a row is terminal no cancel, failure, progress mirror or later save changes status, progress or snapshot; the row never disappears once its creator has let go of it |
| `AnalysisSafety.SaveAnswersStand` | src/keyword-analysis/result-snapshot.service.ts:112-140 | any two saves of one analysis, at any times, that returned a snapshot returned the same id, count and checksum; while the row exists both returned what it links |
| `AnalysisSafety.FirstCommitWins` | src/keyword-analysis/result-snapshot.service.ts:93-110 | the save that commits while the row is open fixes id, count and checksum for every later time, and the final status as long as the row exists |
| `AnalysisSafety.CancelAnswerStands` | src/keyword-analysis/keyword-analysis.service.ts:386-419 | the status `cancel` reports is terminal and stays the row's status |
| `AnalysisAnswers.AloneIsRun` | src/keyword-analysis/keyword-analysis.service.ts:152-240 | an undisturbed stretch of operations, as used below, is one of the runs all other theorems are about |
| `AnalysisAnswers.CreateAnswersIff` | src/keyword-analysis/keyword-analysis.service.ts:152-329 | an undisturbed `create` ends in an answer; it is an existing analysis if and only if an unexpired cache entry names it, or it holds the request digest within its window or in flight; in every other case it is the caller's own new one |
| `AnalysisAnswers.CachedAnswer` | src/keyword-analysis/keyword-analysis.service.ts:164-168 | an unexpired cache entry is the answer and nothing else happens |
| `AnalysisAnswers.NewRequestCreates` | src/keyword-analysis/keyword-analysis.service.ts:170-239 | with the digest free: a queued row created now, its job, and a cache entry for a whole window, and nothing else |
| `AnalysisAnswers.KnownRequestAnswers` | src/keyword-analysis/keyword-analysis.service.ts:180-199 | a holder within its window or in flight is the answer; no row and no job is written, and the cache entry ends with the window, or is not written past it |
| `AnalysisAnswers.ExpiredRequestRotates` | src/keyword-analysis/keyword-analysis.service.ts:200-329 | a holder at its end and past its window loses its key and nothing else, and a new analysis is created and queued under the digest |
| `AnalysisAnswers.DecideAnswers` | src/keyword-analysis/keyword-analysis.service.ts:184-199 | the same decision from the row that was read, whatever the tables say by then |
| `AnalysisAnswers.DecideRotates` | src/keyword-analysis/keyword-analysis.service.ts:200-213 | ... and the rotation from the row that was read |
| `AnalysisAnswers.InsertCreates` | src/keyword-analysis/keyword-analysis.service.ts:176-239 | an insert that goes through: the row as it is created, the job, the cache entry, the answer |
| `AnalysisAnswers.RaceLoserJoins` | src/keyword-analysis/keyword-analysis.service.ts:312-326 | a request whose second insert is refused is answered with the analysis that got there first, and creates nothing |
| `AnalysisAnswers.RecacheEndsWithWindow` | src/keyword-analysis/keyword-analysis.service.ts:285-294 | among any other requests, the entry written for an existing row ends with that row's window |
| `AnalysisAnswers.WinnerEntryIff` | src/keyword-analysis/keyword-analysis.service.ts:317-324 | the race loser's entry ends within the winner's window if and only if the winner was created at that moment |
| `AnalysisAnswers.CancelMeans` | src/keyword-analysis/keyword-analysis.service.ts:386-419 | an undisturbed `cancel`: a missing row is reported, a row at its end told as it is, any other canceled in its status only |
| `AnalysisAnswers.LateCancelMeans` | src/keyword-analysis/keyword-analysis.service.ts:405-419 | a cancel that comes just behind the end reports that end and writes nothing |
| `AnalysisAnswers.SaveMeans` | src/keyword-analysis/result-snapshot.service.ts:69-124 | an undisturbed save of a row in flight: the snapshot, the final status, the frozen progress and the link, and the caller's own outcome |
| `AnalysisAnswers.LateSaveMeans` | src/keyword-analysis/result-snapshot.service.ts:69-80 | a save of a row at its end writes nothing and returns what the row links |
| `AnalysisAnswers.WorkerWritesMean` | src/keyword-analysis/keyword-analysis.processor.ts:239-253 | a worker's writes touch only a row in flight, and there exactly the status or the progress frame they are about |
| `AnalysisSystem.Stores.BeginCreate` | src/keyword-analysis/keyword-analysis.service.ts:164-170 | the cache fast path of `create`, or a fresh id: exactly the start step of the transition system |
| `AnalysisSystem.Stores.InsertQueued` | src/keyword-analysis/keyword-analysis.service.ts:175-180 | the insert succeeds exactly when the unique key is free |
| `AnalysisSystem.Stores.FindHolder` | src/keyword-analysis/keyword-analysis.service.ts:181-184 | reads the row that holds the digest; one that is gone by then ends the call |
| `AnalysisSystem.Stores.Decide` | src/keyword-analysis/keyword-analysis.service.ts:184-199 | answer within the window, coalesce onto a row in flight, rotate otherwise: exactly the step that `AnalysisAnswers.DecideAnswers` and `AnalysisAnswers.DecideRotates` describe |
| `AnalysisSystem.Stores.Rotate` | src/keyword-analysis/keyword-analysis.service.ts:308-311 | archives the key of the observed row and nothing else |
| `AnalysisSystem.Stores.Enqueue` | src/keyword-analysis/keyword-analysis.service.ts:222-235 | adds the job |
| `AnalysisSystem.Stores.Undo` | src/keyword-analysis/keyword-analysis.service.ts:236-238 | deletes the row whose job could not be added and throws the error on |
| `AnalysisSystem.Stores.CacheThenAnswer` | src/keyword-analysis/keyword-analysis.service.ts:285-294 | cache writes before an answer: remaining window for an existing row, none past the window, full window for a new one |
| `AnalysisSystem.Stores.Cancel` | src/keyword-analysis/keyword-analysis.service.ts:396-419 | the conditional cancel, and the re-read of a row it did not hit |
| `AnalysisSystem.Stores.Commit` | src/keyword-analysis/result-snapshot.service.ts:82-117 | commits snapshot, link, progress and status together, or nothing when the row turned terminal |
| `AnalysisSystem.Stores.Next` | src/keyword-analysis/keyword-analysis.service.ts:152-329 | an actor's next operation, failing before its effect, after it or not at all, is exactly the step of the transition system and keeps the invariant |
| `AnalysisSystem.Stores.BeginCancel` | src/keyword-analysis/keyword-analysis.service.ts:386-395 | first read of `cancel`: missing row, terminal row answered at once, or open |
| `AnalysisSystem.Stores.BeginSave` | src/keyword-analysis/result-snapshot.service.ts:69-80 | first read of the snapshot transaction |
| `AnalysisSystem.Stores.UpdateOpen` | src/keyword-analysis/keyword-analysis.processor.ts:239-253 | the conditional status write touches a row exactly when it is not terminal |
| `AnalysisSystem.Stores.OnFailed` | src/keyword-analysis/keyword-analysis.processor.ts:209-231 | only a failure that will not be retried reaches the row, and only if its best-effort write goes through; anything else leaves everything unchanged |
| `AnalysisSystem.Stores.EndJob` | src/keyword-analysis/keyword-analysis.processor.ts:209-231 | a job that has ended for good is no longer live, whatever its row says: exactly the model step |
| `AnalysisSystem.Stores.MirrorProgress` | src/keyword-analysis/keyword-analysis.processor.ts:350-363 | a progress frame reaches the row only while it is not terminal |
| `AdsRateLimiter.SlotsSpaced` | src/google-ads/ads-rate-limiter.ts:35-46 | in any run of reservations by any callers, key expiry included, consecutive slots are at least minTime apart if clock offsets differ pairwise by at most the buffer |
| `AdsRateLimiter.SlotsTight` | src/google-ads/ads-rate-limiter.ts:35-46 | no slot is later than needed: the caller's own time or minTime after the slot before, for clocks past the first minTime of the epoch |
| `AdsRateLimiter.BufferIsExactSkewBound` | src/google-ads/ads-rate-limiter.ts:24-46 | if a key may be gone at its very deadline, the limiter is safe for all runs with a given clock disagreement if and only if that disagreement is at most the buffer in the key's lifetime |
| `AdsRateLimiter.BufferBoundWhenKept` | src/google-ads/ads-rate-limiter.ts:24-46 | if the server keeps a key through its deadline, if and only if the disagreement is at most one millisecond more |
| `AdsRateLimiter.WindowHoldsAtMostQps` | src/google-ads/ads-rate-limiter.ts:79-106 | any half-open second contains at most ceil(qps) reserved slots |
| `AdsRateLimiter.MinTimeMs` | src/google-ads/ads-rate-limiter.ts:102-106 | the spacing is at least one millisecond and respects the effective rate |
| `AdsRateLimiter.MinTimeIsLeast` | src/google-ads/ads-rate-limiter.ts:102-106 | one millisecond less would be shorter than the rate's period |
| `AdsRateLimiter.MinTimeIs` | src/google-ads/ads-rate-limiter.ts:102-106 | a second without a positive rate, else the least whole number of milliseconds that covers the rate's period |
| `AdsRateLimiter.ReservationMeans` | src/google-ads/ads-rate-limiter.ts:35-46 | one reservation: minTime after the slot the caller still sees but not before its own time, and a key kept one second past the slot's use |
| `AdsRateLimiter.BackoffIsCapped` | src/google-ads/ads-rate-limiter.ts:129-133 | waits are base, twice, then four times base, each stretched by the random share of a fifth, rounded down to whole milliseconds |
| `AdsRateLimiter.AttemptsStopAtFirstEnd` | src/google-ads/ads-rate-limiter.ts:79-95 | the retry loop stops at the first reply that is not a quota error, or when the retries are used up |
| `AdsRateLimiter.CallsSentAre` | src/google-ads/ads-rate-limiter.ts:79-95 | the reply is that of the first attempt that is no quota error, or of the last retry, and every attempt up to it was sent, except a last one whose reservation threw |
| `AdsRateLimiter.Limiter.Reserve` | src/google-ads/ads-rate-limiter.ts:113-127 | the script overwrites the account's key and returns the exact wait |
| `AdsRateLimiter.OwnWithinRate` | src/google-ads/ads-rate-limiter.ts:79-127 | whatever other callers reserve in between, a caller's own slots are minTime apart and at most ceil(qps) of them fall into a second, if clocks agree within the buffer |
| `AdsRateLimiter.Limiter.Schedule` | src/google-ads/ads-rate-limiter.ts:79-95 | one slot of its own per call sent among everything others reserve in between, at most adsMaxRetries + 1 attempts, the last reply returned; a reservation that throws, with or without taking a slot, ends it without a call |
| `SerpCredits.PullWithinBudget` | src/ai-search/ai-search.processor.ts:186-221 | over all three channels: credits spent equal credits reported and calls this job sent, never exceed the budget, and after the first query skipped for budget none is sent in any channel |
| `SerpCredits.FetchAllGoverned` | src/serp/serpapi-ai.provider.ts:74-128 | one channel: a row per keyword in order, each credit a call, no call past the budget, an exhausted ledger untouched |
| `SerpCredits.PullGoverned` | src/ai-search/ai-search.processor.ts:186-245 | the same accounting for any order of channels on one shared ledger |
| `SerpCredits.FetchAllAnswers` | src/serp/serpapi-ai.provider.ts:59-217 | every paid query brings what it paid for: call number k goes to the channel's own engine with this query; charged once, the row carries the content of its answer, filed under the channel, or nothing; charged twice, that of the overview page; two calls if and only if an overview search answers with a token and the budget allows; none if and only if the budget is spent |
| `SerpCredits.FetchChannelAnswers` | src/serp/serpapi-ai.provider.ts:59-177 | a provider method whose switches are on answers rows as they were paid for; otherwise every keyword gets an empty row without charge and nobody is called |
| `SerpCredits.PullDelivers` | src/ai-search/ai-search.processor.ts:186-221 | the rows of a pull are those of the three channels in order, each requested and switched-on channel answering every keyword so, its calls following those of the channels before it, and no other channel called |
| `SerpCredits.CapturesInOrder` | src/ai-search/ai-search.processor.ts:236-244 | what is collected is exactly the captures of the rows, in their order |
| `SerpCredits.Provider.FetchAiOverviews` | src/serp/serpapi-ai.provider.ts:59-129 | the overview loop computes exactly the fetch that `SerpCredits.FetchAllAnswers` describes, inline and token path included |
| `SerpCredits.Provider.FetchOverview` | src/serp/serpapi-ai.provider.ts:74-126 | one overview query: one credit and the search's own overview, or a second credit for the token's page if the budget allows |
| `SerpCredits.Provider.FetchAiModes` | src/serp/serpapi-ai.provider.ts:136-150 | switched off it calls nobody, otherwise the single-call engine |
| `SerpCredits.Provider.FetchBingCopilot` | src/serp/serpapi-ai.provider.ts:156-174 | switched off it calls nobody, otherwise the single-call engine |
| `SerpCredits.Provider.RunTopLevelEngine` | src/serp/serpapi-ai.provider.ts:182-217 | one credit and one call per query sent, whatever comes back: the fetch that `SerpCredits.FetchAllAnswers` describes |
| `SerpCredits.Provider.PullChannel` | src/ai-search/ai-search.processor.ts:228-245 | an unrequested channel is never called; missing captures are dropped in order |
| `SerpCredits.Provider.PullSerpapi` | src/ai-search/ai-search.processor.ts:186-221 | a fresh ledger shared by the three channels in order; the output is exactly the captures of the pull's rows, in order |
| `AiSearchJob.NeverPaidAgain` | src/ai-search/ai-search.processor.ts:148-180 | once a delivery has ended with durable rows no later delivery, however it crashes, makes a paid call or replaces a row |
| `AiSearchJob.RowsFromOnePersist` | src/ai-search/ai-search-capture.repository.ts:95-122 | although inserting appends, over any deliveries the stored rows are the initial ones, none, or exactly what one single delivery gathered: two persists never mix and none is stored twice |
| `AiSearchJob.SwallowedCleanSlateMixes` | src/ai-search/ai-search.processor.ts:165-171 | this rests on the clean slate throwing: were its errors swallowed, one of them would leave the old rows beside the new ones |
| `AiSearchJob.OverlapMixes` | src/ai-search/ai-search.processor.ts:148-180 | two deliveries side by side, with nothing failing, store the rows of both and pay for both |
| `AiSearchJob.TotalCreditsBounded` | src/ai-search/ai-search.processor.ts:148-221 | total credits are at most budget times one plus the number of deliveries that ended without durable rows |
| `AiSearchJob.ChargedWithinBudget` | src/ai-search/ai-search.processor.ts:186-221 | no single delivery charges more than the budget, even if it dies inside the pull |
| `AiSearchJob.FinalStatusOnceAndLastIff` | src/ai-search/ai-search.processor.ts:77-125 | for any choice of swallowed stages and any failures: the final status is written once and last if and only if no error reaches the catch handler of a last attempt after the terminal write |
| `AiSearchJob.FinalStatusWrittenOnceAndLast` | src/ai-search/ai-search.processor.ts:104-125 | with the two ticks swallowed only a terminal write whose answer is lost can be followed by failed; completed exactly with full coverage and nothing to review, failed exactly when a stage of the last attempt throws and the failure write goes through |
| `AiSearchJob.UnswallowedDoneTickFlips` | src/ai-search/ai-search.processor.ts:107-111 | if errors of the done tick were not swallowed, one such error alone would flip a completed run to failed |
| `AiSearchJob.FailedIsFinal` | src/ai-search/ai-search.processor.ts:113-125 | over all deliveries of a job, thrown ones counted and dead ones not, failed is written by the last delivery only, never while the queue will still retry |
| `AiSearchJob.JudgedMeans` | src/ai-search/ai-search.processor.ts:83-108 | a delivery that gets to its terminal write judges the stored captures if it reuses them, else what the extension pushed and the pull brought, in this order |
| `AiSearchJob.FineDeliveryFetches` | src/ai-search/ai-search.processor.ts:77-180 | a delivery in which nothing fails and no rows are stored yet: exactly the extension's captures and what the paid calls brought are stored, every call is charged once, and the run is running, then completed if every requested channel has a capture and nothing needs review, else partial |
| `AiSearchJob.FineDeliveryReuses` | src/ai-search/ai-search.processor.ts:155-163 | a re-delivery with stored rows in which nothing fails: rows and credits as they were, and the status by the stored captures |
| `AiSearchJob.KilledPullCharges` | src/ai-search/ai-search.processor.ts:174-178 | a worker killed inside the paid pull leaves the run running, no rows, and the calls it had sent charged |
| `AiSearchJob.Worker.Process` | src/ai-search/ai-search.processor.ts:77-126 | the delivery, stage by stage with its catch handler, does what the fold over the stages says, wherever it throws or dies |
| `AiSearchJob.Worker.Gather` | src/ai-search/ai-search.processor.ts:148-180 | reuse, clean slate, collect, pull, persist: the gathering part of that fold |
| `AiSearchRuns.OnlyTheseStrand` | src/ai-search/ai-search-run.service.ts:82-141 | a covered run in flight becomes uncovered in a step if and only if the queue lets go of a job before the end is reported, a request leaves the run behind, or an outlived delivery writes running over an end, and nobody else covers it |
| `AiSearchRuns.OwnerLostIff` | src/ai-search/ai-search-run.service.ts:82-141 | a covered run loses its last owner in a step if and only if such a step meets a run with no other request inside `create` and, unless it is the job that goes, no live job |
| `AiSearchRuns.StrandingLosesOwner` | src/ai-search/ai-search-run.service.ts:82-141 | every such step costs the run its owner as soon as the delivery in progress has settled and the adding requests have finished |
| `AiSearchRuns.RunInFlightHasOwner` | src/ai-search/ai-search-run.service.ts:82-141 | in every run without such a step, whatever else fails or dies, a queued or running run has a request inside `create` or a live job |
| `AiSearchRuns.DiscardedJobStrandsRun` | src/ai-search/ai-search-run.service.ts:82-141 | a concrete run in which the stall limit leaves a queued run without owner |
| `AiSearchRuns.LostFailureWriteStrandsRun` | src/ai-search/ai-search-run.service.ts:98-109 | a concrete run in which a failed queue call and a lost failure write do |
| `AiSearchRuns.LateRunningStrandsRun` | src/ai-search/ai-search-run.repository.ts:95-105 | a concrete run in which the unconditional running write of an outlived delivery leaves a finished run running with nobody responsible |
| `AiSearchRuns.RequestMeans` | src/ai-search/ai-search-run.service.ts:82-141 | an undisturbed request: a queued, running or completed run is answered as it is; a missing, failed, canceled or partial one is queued with a waiting job, unless its old job is still active, which fails the run and throws |
| `AiSearchRuns.EnqueueMeans` | src/ai-search/ai-search-run.service.ts:121-141 | the finished, waiting or delayed job of an earlier run is replaced by a waiting one; an active one marks the run failed |
| `AiSearchRuns.DeliveryMeans` | src/ai-search/ai-search.processor.ts:77-126 | an undisturbed delivery writes running and then the status it reports; a last attempt that throws writes failed, an earlier one is delayed and delivered again |
| `AiSearchRuns.EachResetHasOneWinner` | src/ai-search/ai-search-run.repository.ts:58-68 | every winning reset uses up one write of a resettable status |
| `AiSearchRuns.NoSecondWinner` | src/ai-search/ai-search-run.repository.ts:58-68 | after one request has won, no other wins until the run is written resettable again |
| `AiSearchRuns.RunStore.CreateOrReset` | src/ai-search/ai-search-run.repository.ts:54-93 | insert or conditional reset, failing before or after its effect: exactly the model step |
| `AiSearchRuns.RunStore.EnqueueStep` | src/ai-search/ai-search-run.service.ts:121-141 | look up, remove and add of the queue job, each with its failures |
| `AiSearchRuns.RunStore.MarkStatus` | src/ai-search/ai-search-run.repository.ts:96-105 | the unconditional status write |
| `AiSearchRuns.RunStore.FailEnqueue` | src/ai-search/ai-search-run.service.ts:101-109 | a failed enqueue marks the run failed, unless that write fails too, and throws |
| `ResilientBatch.ChunkPartitioned` | src/intent/resilient-batch.ts:34-71 | for any failure pattern at most 2n-1 calls; unless it rethrows the chunk splits into contiguous segments in order, each answered as a whole or wholly up for review by its own call |
| `ResilientBatch.RethrowsOtherErrors` | src/intent/resilient-batch.ts:46-70 | the error is rethrown if and only if one of the calls made ended in an unexpected error |
| `ResilientBatch.SentNumbered` | src/intent/resilient-batch.ts:34-71 | the calls counted are the calls sent, one after the other |
| `ResilientBatch.SegmentsSent` | src/intent/resilient-batch.ts:34-71 | the call that decides a segment was really sent, with exactly that segment |
| `ResilientBatch.AllRethrow` | src/ai-visibility/llm-batch-pipeline.ts:51-68 | many batches fail if and only if some call for some batch ended in an unexpected error |
| `ResilientBatch.RunBatches` | src/ai-visibility/llm-batch-pipeline.ts:51-68 | the batching loop computes the joined outcome of exactly the slices; no call for no items |
| `ResilientBatch.BatchesPartitioned` | src/ai-visibility/llm-batch-pipeline.ts:51-68 | over all batches at most 2n calls less one per batch, and every item in exactly one segment, in order |
| `ResilientBatch.SanitizePositiveInt` | src/common/sanitize-positive-int.ts:5-8 | the configured number rounded down if that is at least one, else the fallback: never zero |
| `TopicNaming.ReconcileAligns` | src/topics/topic-naming.postprocess.ts:65-93 | throws if and only if the counts agree and an entry is null; otherwise every cluster keeps its label and gets a valid intent, and is degraded if and only if the counts differ or its own entry is unusable |
| `TopicNaming.ReconcileMeans` | src/topics/topic-naming.postprocess.ts:38-93 | field by field: an entry with a name names its cluster with its own parent, kind and reason and a known intent; otherwise the first representative stands in, and the reason says whether the entry, the count, a refusal, a filter, the length or the parse was to blame |
| `TopicNaming.BatchFailsIff` | src/topics/topic-naming.service.ts:79-105 | a batch fails if and only if one of the calls it made, numbered in turn, hit an unexpected error or was answered with one entry per cluster and a null among them |
| `TopicNaming.BatchNamesEveryCluster` | src/topics/topic-naming.service.ts:79-105 | one batch: exactly one naming per cluster in order, each decided by one genuine answer |
| `TopicNaming.BatchCallsBounded` | src/topics/topic-naming.service.ts:79-105 | at most 2n-1 calls for a batch of n clusters |
| `TopicNaming.NameClusters` | src/topics/topic-naming.service.ts:61-73 | all batches: one naming per cluster in input order, at most 2n calls less one per batch; it fails if and only if some batch does |
| `IntentLabels.CleanKeepsValidOnce` | src/intent/intent-postprocess.ts:29-37 | cleaning keeps exactly the valid labels, each once, in first-seen order |
| `IntentLabels.CleanIdempotent` | src/intent/intent-postprocess.ts:29-37 | cleaning cleaned labels changes nothing |
| `IntentLabels.CleanLabels` | src/intent/intent-postprocess.ts:29-37 | the cleaning loop |
| `IntentLabels.PostProcessIntent` | src/intent/intent-postprocess.ts:47-61 | the alignment loop and map: one row per input under its own spelling |
| `IntentLabels.EveryInputLabelled` | src/intent/intent-postprocess.ts:47-61 | whatever the model answered, every input ends with at least one label, all of the four valid ones, none twice: the cleaned labels of the last result with its key, informational if these are none or there is no such result |
| `IntentLabels.PostProcessFollows` | src/intent/intent-postprocess.ts:47-61 | rows that agree with a labelling f, in any order, label covered inputs by f and all others by the fallback |
| `IntentStore.LookupAgrees` | src/intent/intent-cache.ts:90-129 | a read of agreeing layers answers f or nothing, whichever layer fails |
| `IntentStore.WarmKeepsAgreeing` | src/intent/intent-cache.ts:117-125 | warming keeps Redis agreeing with f and makes the entry survive the loss of the table |
| `IntentStore.WriteBackKeepsAgreeing` | src/intent/intent-cache.ts:135-167 | write-back of agreeing rows keeps the store agreeing with f, whichever writes are lost |
| `IntentStore.WriteBackStoresOnlyAnswers` | src/intent/intent-cache.ts:135-141 | every entry was there before or is the cleaned, non-empty answer of a row: never a fallback |
| `IntentStore.WriteBackStores` | src/intent/intent-cache.ts:135-167 | every key whose write is not lost ends with its last non-empty cleaned answer; every other key stays as it was |
| `IntentStore.WarmCopies` | src/intent/intent-cache.ts:117-125 | warming copies the table's labels of the missed keys and changes nothing else |
| `IntentStore.LookupIs` | src/intent/intent-cache.ts:94-126 | Redis answers if it is up and has the key, else the table if it can be read and has it, else nobody |
| `IntentStore.TwoLayersAnswer` | src/intent/intent-cache.ts:102-126 | asking the table only for what Redis missed gives the answer of asking both layers for every key |
| `IntentStore.IntentCache.Mget` | src/intent/intent-cache.ts:90-129 | per-key answer of the two layers with faulty reads as misses, and the exact warmed Redis |
| `IntentStore.IntentCache.Mset` | src/intent/intent-cache.ts:135-167 | both layers end as the write-back of the cleaned rows |
| `IntentStream.DispatchedAreTheMisses` | src/intent/intent.service.ts:109-136 | the dispatched chunks are exactly the misses, in order, cut by the batch size |
| `IntentStream.SiftBatchMeans` | src/intent/intent.service.ts:109-124 | one read: exactly the inputs with non-empty cached labels become rows with these labels, exactly the others are misses, both in input order |
| `IntentStream.SiftAllMeans` | src/intent/intent.service.ts:109-124 | hits and misses of the reads, one read after the other |
| `IntentStream.StreamMeans` | src/intent/intent.service.ts:96-142 | any stream, agreeing or not: it fails if and only if some call for a chunk hit an unexpected error; else every miss is in one segment, answered or up for review, exactly the latter are reported, and an input's labels are those of the last row with its key, cached rows before answers |
| `IntentStream.StreamFollows` | src/intent/intent.service.ts:96-142 | one row per input in order: f where the cache or some batch answered for its key, the fallback otherwise, and only a keyword up for review can go unanswered |
| `IntentStream.LabelChunkAndCache` | src/intent/intent.service.ts:148-156 | a chunk's collected rows are written back; a rethrown error writes nothing |
| `IntentStream.ChunkWriteBackAgrees` | src/intent/intent.service.ts:148-156 | the write-back of any chunk keeps the cache agreeing with f and stores only answers |
| `IntentTimeline.CacheStaysAgreeing` | src/intent/intent-cache.ts:90-167 | from layers that agree with f, any interleaving of reads, warms, expiries and chunk write-backs of any jobs leaves them agreeing |
| `IntentTimeline.AccessMeans` | src/intent/intent-cache.ts:90-167 | what one access leaves of each key of either layer: a read warms, a finished chunk stores its last non-empty answers, expiry removes, nothing else changes |
| `IntentTimeline.StreamReadMeans` | src/intent/intent.service.ts:109-136 | read number b of a stream meets what the accesses before it left and copies to Redis, of the keys of its own batch, what only the table had; nothing else changes |
| `IntentTimeline.TimelineFollows` | src/intent/intent.service.ts:109-124 | every hit of every read of a stream on the shared cache is f's answer |
| `IntentTimeline.SharedStreamFollows` | src/intent/intent.service.ts:96-142 | the stream on the shared cache: one row per input in order, f where a layer or some batch answered for its key, the fallback otherwise, and only a keyword up for review can go unanswered |
| `IntentTimeline.ReadBatches` | src/intent/intent.service.ts:109-136 | the loop with cursor dispatch reads the shared cache batch by batch and dispatches exactly the misses in full chunks plus the tail |
| `IntentTimeline.FinishChunks` | src/intent/intent.service.ts:138-142 | the chunks' outcomes joined in order; the tables end as after the write-backs of all chunks, the cache still agreeing |
| `IntentTimeline.LabelStream` | src/intent/intent.service.ts:96-142 | the whole stream computes the stream function over what its reads found, leaves the tables as after its reads and the write-backs of its chunks, and keeps the cache agreeing |
| `Normalize.MergeSeedOrigins` | src/google-ads/normalize.ts:83-94 | the ordered union of two origin lists, none if both are missing |
| `Normalize.DedupeMerge` | src/google-ads/normalize.ts:23-43 | the merging loop computes the fold over the candidates |
| `Normalize.FoldGroups` | src/google-ads/normalize.ts:23-43 | one row per normalised key in first-seen order, each the merge of exactly the candidates with its key |
| `Normalize.RepresentativeSurvives` | src/google-ads/normalize.ts:65-80 | whose text survives, in closed form; a row is a seed if and only if some candidate is; its metrics are the first non-missing ones |
| `Normalize.OriginsUnion` | src/google-ads/normalize.ts:83-94 | a row merged from several candidates carries the ordered union of their origins, or none |
| `Normalize.OriginsAreUnionIff` | src/google-ads/normalize.ts:30-36 | the promised de-duplicated union fails exactly for a lone candidate whose own list repeats itself |
| `Normalize.DedupeRow` | src/google-ads/normalize.ts:23-94 | all of the above for row i of the result |
| `Normalize.LeftBatchLaw` | src/google-ads/normalize.ts:23-43 | merging a first batch and then the rest equals merging everything at once |
| `Normalize.RightBatchLawFails` | src/google-ads/normalize.ts:65-80 | merging the later batch first can change the surviving text |
| `AdsChunks.ChunkSize` | src/google-ads/chunk.ts:20-22 | the clamped size lies between one and the cap and is the floor of a request within that range |
| `AdsChunks.ChunkSeeds` | src/google-ads/chunk.ts:34-39 | for any configured size, requests of one to twenty seeds that concatenate to the seeds |
| `AdsChunks.ChunkHistorical` | src/google-ads/chunk.ts:44-49 | for any configured size, requests of one to ten thousand keywords that concatenate to the keywords |
| `AdsAnswers.RequestSizes` | src/google-ads/chunk.ts:5-49 | the request sizes by number: 15 and 1000 unless configured or when the configured one is not finite, never above 20 and 10000, one for anything below two |
| `AdsExpansion.ExpansionCallsBounded` | src/google-ads/google-ads.service.ts:90-113 | expanding n seeds costs at most ceil(n/size) times (adsMaxRetries + 1) Ads calls |
| `AdsExpansion.GoogleAdsService.ExpandStreamRaw` | src/google-ads/google-ads.service.ts:90-113 | seeds first, then the answers request by request up to the first failing one; every call sent has a slot of its own among all traffic on the account's key, and these slots keep the rate while clocks agree within the buffer |
| `AdsExpansion.RepeatedSeedRepeatsOrigin` | src/google-ads/google-ads.service.ts:97-111 | a seed given twice in one request: the merged idea carries that seed twice among its origins |
| `AdsExpansion.RowIsSeedIffSeedKey` | src/google-ads/google-ads.service.ts:97-111 | in the merged result a row is a seed if and only if its key is a seed's key |
| `AdsExpansion.EverySeedHasRow` | src/google-ads/google-ads.service.ts:94-121 | no input is lost: every seed has a seed row under its key, however early the expansion broke off |
| `AdsAnswers.ExpansionYields` | src/google-ads/google-ads.service.ts:90-113 | the stream is the seeds without metrics, then every answer in full up to the first failing request: idea by idea its text and metrics, a seed without origins if its key is a seed's, else expanded with the keys of its request |
| `AdsHistorical.FetchHistoricalMetrics` | src/google-ads/google-ads.service.ts:132-169 | the loops compute the merge of the matched rows and of rows for uncovered keywords; `AdsAnswers.HistoricalMetrics` and `AdsAnswers.HistoricalOrigins` say what its rows are |
| `AdsHistorical.EveryKeywordRepresented` | src/google-ads/google-ads.service.ts:140-166 | every keyword asked for has its own row or a row listing it as an origin |
| `AdsHistorical.HistoricalFromInputs` | src/google-ads/google-ads.service.ts:141-166 | nothing is invented: every candidate is a seed and stands for keywords that were asked for, and only those |
| `AdsAnswers.HistoricalMetrics` | src/google-ads/google-ads.service.ts:140-169 | if the requests succeed, a merged row has metrics if and only if some answered row that matches a keyword of its request is filed under the row's key and has them; they are those of the first such answered row |
| `AdsAnswers.HistoricalOrigins` | src/google-ads/google-ads.service.ts:144-158 | a merged row is a seed and lists exactly the keys of the keywords sent with an answered row under its key and named by that row's text or close variants |
| `AdsAnswers.EveryAnswerHasRow` | src/google-ads/google-ads.service.ts:140-158 | no paid answer is dropped: every answered row that matches a keyword of its request has a merged row under its key |
| `AdsAnswers.MatchAllAre` | src/google-ads/google-ads.service.ts:140-158 | the candidates are exactly the answered rows that match, in the order they were answered, each with its text, its metrics and the keys it stands for |
| `ExpandSnapshot.Texts` | src/keyword-analysis/keyword-analysis.processor.ts:272-288 | collects the candidates and passes on the keys not seen before |
| `ExpandSnapshot.FreshAreTheKeys` | src/keyword-analysis/keyword-analysis.processor.ts:272-288 | the labelling stream carries every key exactly once, in first-seen order |
| `ExpandSnapshot.FetchAndLabel` | src/keyword-analysis/keyword-analysis.processor.ts:262-304 | complete, partial after a terminal error with candidates, or rethrown |
| `ExpandSnapshot.CompleteRowsLabelled` | src/keyword-analysis/keyword-analysis.processor.ts:153-156 | every row of a complete expand snapshot is the merged keyword under its own key and carries at least one valid intent label, the ones found for that key, in alphabetical order |
| `ExpandSnapshot.SnapshotRowIs` | src/keyword-analysis/keyword-analysis.processor.ts:153-156 | a snapshot row is the merged keyword with its normalised text; the rows of a partial snapshot have no labels |
| `ExpandSnapshot.DistinctRowsLabelled` | src/keyword-analysis/keyword-analysis.processor.ts:305-309 | the same for exact mode and any other rows with distinct keys |
| `Aggregate.BucketFloor` | src/keywords/aggregate.ts:84-86 | the bucket key is the multiple of the width with key <= x < key + width |
| `Aggregate.Evaluate` | src/keywords/aggregate.ts:155-246 | the engine, loop by loop, computes the aggregate function, whose groups, measures, order, cut-off and errors the `AggregateMeaning` rows describe |
| `Aggregate.GroupUnits` | src/keywords/aggregate.ts:190-199 | the grouping loop yields, per key text in first-seen order, exactly the units with that text |
| `AggregateLaws.RowOrderIrrelevant` | src/keywords/aggregate.ts:155-246 | with a sort, one type per dimension and key texts that tell the occurring keys apart, the whole result, errors included, is the same for every order of the rows |
| `AggregateText.RowOrderIrrelevantInJson` | src/keywords/aggregate.ts:155-246 | the same for JSON key texts, as soon as number texts tell the occurring numbers apart |
| `AggregateText.JsonTellsApart` | src/keywords/aggregate.ts:190-193 | JSON text of the key tuple tells keys apart whenever number texts tell numbers apart |
| `AggregateText.WholeNumbersApart` | src/keywords/aggregate.ts:190-193 | decimal text tells whole numbers apart |
| `AggregateLaws.GroupKeysDistinct` | src/keywords/aggregate.ts:189-205 | no two groups share a key |
| `AggregateLaws.CountsConserved` | src/keywords/aggregate.ts:162-205 | before the cut-off the counts sum to the sum over rows of the product of their dimension-value counts |
| `AggregateMeaning.DimensionOffers` | src/keywords/aggregate.ts:70-90 | what a row offers in a dimension: its scalar, the scalars of its list in order and as often as they occur, or the one multiple of the width whose half-open bucket holds its number; nothing otherwise |
| `AggregateMeaning.KeysOfOne` | src/keywords/aggregate.ts:162-175 | one dimension: a key for each offered value, in order |
| `AggregateMeaning.KeysOfTwo` | src/keywords/aggregate.ts:162-175 | two dimensions: a key for each pair, the first dimension outermost |
| `AggregateMeaning.UnitsSnoc` | src/keywords/aggregate.ts:162-175 | the rows' units follow one another, a unit for each key of its row |
| `AggregateMeaning.KeyTextIs` | src/keywords/aggregate.ts:189-193 | the text a key is grouped by is the JSON of its values in dimension order |
| `AggregateMeaning.MeasureMeaning` | src/keywords/aggregate.ts:105-133 | a measure over a group's rows: count is their number, countDistinct that of the texts the field is written as, sum, avg, min, max and median those of the numbers the field holds, the last four missing if and only if it holds none |
| `AggregateMeaning.GroupMeaning` | src/keywords/aggregate.ts:189-205 | a group is the first key with its text, and every measure over exactly the rows with that text; of several measures with one name the last counts |
| `AggregateMeaning.ResultMeaning` | src/keywords/aggregate.ts:201-246 | all of this for every group of a result, no two groups with one key text; total counts the key texts, truncated says whether they exceed the limit, and as many groups as the limit allows are shown |
| `AggregateMeaning.UnsortedResult` | src/keywords/aggregate.ts:189-205 | without a sort the groups stand in the order in which their key texts are first met |
| `AggregateMeaning.SortedResult` | src/keywords/aggregate.ts:207-245 | with a sort what is shown and what is left out stand in the asked order together |
| `AggregateMeaning.RefusalMeaning` | src/keywords/aggregate.ts:136-186 | a refusal names the first offence, in the order dimension count, widths, fields, limit, number of buckets; there is a result if and only if there is none |
| `AggregateLaws.TopOfUniqueOrder` | src/keywords/aggregate.ts:207-245 | the result is the prefix of the one sorted arrangement of the groups; total and truncated tell what was left out |
| `AggregateLaws.ComputePermutes` | src/keywords/aggregate.ts:105-133 | no measure depends on the order of a group's units |
| `AggregateLaws.ComparatorIsTotal` | src/keywords/aggregate.ts:211-234 | the comparator is a total order on groups with comparable values and distinct keys |
| `AggregateLaws.SortedMeaning` | src/keywords/aggregate.ts:207-234 | sorted groups run in the asked direction by the column itself: a measure by its number, a missing one below every number, else a dimension by its number or text; ties by key text ascending |
| `AggregateLaws.MedianSplits` | src/keywords/aggregate.ts:98-102 | at least half of the values lie at or below the median and at least half at or above it |
| `AggregateLaws.MixedTypesCycle` | src/keywords/aggregate.ts:219-226 | numbers and texts mixed in one sort column make the comparator cyclic |
| `AggregateLaws.SpecAcceptedIff` | src/keywords/aggregate.ts:136-153 | a request passes the static checks if and only if it stays within the closed grammar |
| `Paginate.ComparatorIsTotal` | src/keywords/paginate.ts:62-95 | the comparator is a total order on rows with distinct normalised texts, in every field and direction |
| `Paginate.SortIsCanonical` | src/keywords/paginate.ts:81-95 | any sorted arrangement of the rows is this one, whatever order they came in |
| `Paginate.SortedMeaning` | src/keywords/paginate.ts:62-95 | in the sorted rows the asked column, each of the five by name, runs in the asked direction with missing values last in either, ties by normalised text |
| `Paginate.PageRowsInOrder` | src/keywords/paginate.ts:127-155 | any page, by number or by cursor, shows its rows in that order |
| `Paginate.DefaultOrder` | src/keywords/paginate.ts:81-95 | without an asked sort: most searched first, rows without a number last, ties by normalised text |
| `Paginate.PageByNumber` | src/keywords/paginate.ts:143-154 | page n shows the rows behind n - 1 full pages, with total, size, number and next cursor; no number, or one below one, is page one |
| `Paginate.PageByCursor` | src/keywords/paginate.ts:137-154 | a cursor's page starts behind the first row of its text and is numbered by the page its start lies on |
| `Paginate.PageSizeIs` | src/keywords/paginate.ts:134 | 50 rows unless asked otherwise, never less than one |
| `Paginate.PageIgnoresInputOrder` | src/keywords/paginate.ts:127-155 | a page does not depend on the stored order of the rows |
| `Paginate.CursorResumes` | src/keywords/paginate.ts:138-142 | the cursor of any row resumes exactly behind that row |
| `Paginate.UnknownCursorEndsEmpty` | src/keywords/paginate.ts:138-142 | a cursor that names no row gives an empty last page |
| `Paginate.WalkIsOffsetPaging` | src/keywords/paginate.ts:127-155 | page k of the cursor walk equals offset page k with number k; the walk has max(1, ceil(total/pageSize)) pages and ends with a null cursor |
| `Paginate.WalkVisitsEveryRowOnce` | src/keywords/paginate.ts:127-155 | following the cursors visits every row exactly once in sorted order |
| `CursorCodec.CursorRoundTrips` | src/keywords/paginate.ts:102-119 | decoding an encoded cursor gives the row's key back, so the paging theorems hold for this cursor |
| `CursorCodec.FaithfulLibrary` | src/keywords/paginate.ts:102-119 | the library behaviour this rests on is possible: cursor texts are distinct |
| `CursorCodec.CursorsDiffer` | src/keywords/paginate.ts:102-104 | different keys have different cursors |
| `CursorCodec.CursorText` | src/keywords/paginate.ts:102-104 | the cursor of a text that needs no escaping, written out |
| `CursorCodec.DecodesIff` | src/keywords/paginate.ts:110-119 | a cursor decodes to a text if and only if it parses to an object whose field `nt` is that text |
| `JsonText.PrintInjective` | src/common/canonical-json.ts:27-29 | JSON text determines the value (RFC 8259, sections 4 and 7) |
| `JsonText.NestedPrint` | src/common/canonical-json.ts:27-29 | lists and objects as JSON text |
| `JsonText.ScalarsPrint` | src/common/canonical-json.ts:27-29 | scalars as JSON text |
| `JsonText.EscapesAre` | src/common/canonical-json.ts:27-29 | the escapes of section 7 of RFC 8259 |
| `CanonicalJson.CanonicalStringIffSame` | src/common/canonical-json.ts:10-29 | two values have the same canonical string if and only if they are equal up to object key order at every depth |
| `CanonicalJson.CanonicalAscends` | src/common/canonical-json.ts:10-24 | a canonical object has the same fields with canonical values in ascending key order, array indices first; a list keeps its order |
| `Preimages.IdempotencyPreimageIff` | src/keyword-analysis/idempotency.ts:19-31 | idempotency preimages agree if and only if owner, set of normalised seeds and parameters agree |
| `Preimages.SeedListIs` | src/keyword-analysis/idempotency.ts:19-31 | the seed list holds every normalised seed once, in ascending order |
| `Preimages.IdempotencyText` | src/keyword-analysis/idempotency.ts:19-31 | the hashed text is one JSON object naming the owner (or null), the seed list item by item and the canonical parameters, in this order |
| `Preimages.SeedOrderAndRepeatsIrrelevant` | src/keyword-analysis/idempotency.ts:19-31 | the same seeds in another order or repeated give the same preimage |
| `Preimages.CapturePreimageIff` | src/captures/content-hash.ts:21-35 | capture preimages agree if and only if owner, source, schema version and content agree |
| `Preimages.ChecksumPreimageIff` | src/keyword-analysis/result-snapshot.checksum.ts:29-35 | checksum preimages of snapshots with distinct normalised texts agree if and only if the rows are the same up to row order and key order |
| `Preimages.ChecksumIgnoresRowOrder` | src/keyword-analysis/result-snapshot.checksum.ts:29-35 | the checksum preimage is the same for every permutation of the rows |
| `BodyLimit.ReadsIff` | src/common/scoped-json-body-limit.ts:139-168 | a body is read if and only if it is unparsed JSON in a supported charset and encoding and not declared too large; 415 if and only if charset or encoding is not supported, and each encoding name selects its own decoder |
| `BodyLimit.NextExactlyOnce` | src/common/scoped-json-body-limit.ts:170-266 | for every event sequence the first event that calls for an answer, and only it, calls `next`, with the answer and body it calls for; before that nothing is called and exactly the delivered bytes are buffered |
| `BodyLimit.AtMostOnceWithinLimit` | src/common/scoped-json-body-limit.ts:176-204 | `next` is called at most once and buffered bytes never exceed the limit |
| `BodyLimit.AnsweredAfterEnd` | src/common/scoped-json-body-limit.ts:206-265 | after an identity end, decoder end, error, abort or early close `next` has been called exactly once |
| `BodyLimit.SuccessIff` | src/common/scoped-json-body-limit.ts:206-254 | success means the body is the parse of exactly the delivered bytes within the limit, or an error event without an error |
| `BodyLimit.RefusalsMean` | src/common/scoped-json-body-limit.ts:176-265 | 413 means that the delivered bytes exceed the limit, 400 an unparsable body, an abort, an early close or a decoder failure, any other error is that of an error event |
| `BodyLimit.ErrorWithoutErrorPasses` | src/common/scoped-json-body-limit.ts:254 | an error event without an error ends as a success without a body |
| `BodyLimit.SuccessMeansParsedBody` | src/common/scoped-json-body-limit.ts:206-224 | if error events carry an error, success means a parsed body |
| `BodyLimit.Reader.Handle` | src/common/scoped-json-body-limit.ts:226-265 | the event handlers perform exactly the machine's step |
| `BodyLimit.Reader.HandleAll` | src/common/scoped-json-body-limit.ts:226-265 | a whole request is the run of the machine |
| `Captures.Admit` | src/captures/captures.service.ts:67-82 | admitted if and only if within the batch limit, with an accepted version and no unsafe number; the batch limit is checked before the version, and the first unsafe item is reported |
| `Captures.OneRowPerHash` | src/captures/captures.service.ts:121-125 | in every interleaving a hash has at most one row |
| `Captures.RowsStay` | src/captures/captures.service.ts:121-125 | rows are only ever appended |
| `Captures.ReportIsRight` | src/captures/captures.service.ts:127-143 | accepted plus deduped is the item count, accepted is the number of rows this request inserted, and every id is the row of its item's hash |
| `Captures.AcceptedAddsUp` | src/captures/captures.service.ts:134-143 | accepted summed over all requests is the number of rows inserted |
| `Captures.CaptureTable.Begin` | src/captures/captures.service.ts:94-119 | the loop keeps the first occurrence of every hash and mints its id |
| `Captures.CaptureTable.InsertOne` | src/captures/captures.service.ts:121-125 | one row of the insert that skips duplicates |
| `Captures.CaptureTable.ReadIds` | src/captures/captures.service.ts:127-143 | the read-back and the accounting loop |
| `SweepLease.SingleFlight` | src/tracking/sweep-lease.service.ts:36-62 | if every sweep ends, crashes or is done within the lease time, at most one sweep is live at any moment |
| `SweepLease.OverlapIffOverdue` | src/tracking/sweep-lease.service.ts:36-46 | another sweep can start beside a live one if and only if the live one has outlived its lease |
| `SweepLease.LateReleaseFreesOthers` | src/tracking/sweep-lease.service.ts:52-62 | an overdue sweep's release gives away the lease of the sweep that replaced it |
| `SweepLease.AcquireSucceedsIff` | src/tracking/sweep-lease.service.ts:36-62 | when all sweeps are timely an attempt succeeds if and only if no earlier sweep blocks it: none live or crashed within the lease time, none that failed to release within it, none that released at this instant |
| `SweepLease.RecoversWithinTtl` | src/tracking/sweep-lease.service.ts:36-46 | after any history, crashes included, the lease is free once left alone longer than it lasts |
| `SweepLease.HandsOver` | src/tracking/sweep-lease.service.ts:36-62 | after a timely sweep ends, the next attempt succeeds from the next millisecond on if the release was written, and after the rest of the lease time if it was not |
| `SweepLease.SweepLeases.Acquire` | src/tracking/sweep-lease.service.ts:36-46 | one statement performs the model step, and in an orderly history it succeeds exactly when no earlier sweep blocks it |
| `SweepLease.SweepLeases.Release` | src/tracking/sweep-lease.service.ts:52-62 | performs the model step whoever holds the lease; of an orderly history nothing blocks the next millisecond exactly if the release was written or the lease time is over |

## Left out

- Controllers, modules, DTO validation, configuration, server-sent events, health checks, logging, metrics and the frontend: no property beyond wiring.
- Authentication, owner checks, redaction and prompt isolation.
- Prisma, Postgres, Redis and BullMQ themselves: they appear as atomic statements with a unique index, conditional updates, all-or-nothing transactions and a job record with re-delivery. A multi-row insert of captures is taken row by row, which allows more interleavings than the database does.
- `queue.remove` after a cancel: best effort, and worker writes of removed jobs are allowed anyway.
- The per-job status summary that `create` caches beside the idempotency entry: nothing reads it in the modelled code.
- Row contents of a snapshot transaction: the lifecycle keeps count and checksum; the rows are the subject of the checksum preimage.
- The metrics cache of exact mode and its de-duplication of hits and fetched rows: exact mode enters as any list of keywords with distinct keys.
- The currency, geo and language fields copied onto every keyword, and the mapping of raw metrics: a metrics record is an opaque value that is present or missing.
- The sequential standalone `labelBatch`, which nothing in the pipeline uses.
- A service without a label cache is the case in which every lookup of the stream is a miss. One read of a batch is taken as one moment; in the stream's timeline a chunk that finishes early is one of the accesses between two reads.
- Several write-backs of one key inside one `mset` are applied in order, while the program starts them together; where rows agree on a key the order does not matter.
- The scheduling of concurrent chunks by the LLM limiter: chunk outcomes are joined in dispatch order, as `Promise.all` does.
- UMAP, HDBSCAN, embeddings and cosine ranking; prompts and JSON schemas.
- base64url, UTF-8 and `JSON.parse` are library behaviour: the cursor's round trip rests on unpacking undoing packing and on parsing a cursor's own text giving the cursor; nothing is assumed of any other text.
- JSON values are finite data with distinct ordinary keys: no `undefined`, no `__proto__`, no lone surrogates. Keys that are array indices come first, as in JavaScript's enumeration order; other keys are compared by Unicode scalar value instead of UTF-16 code unit.
- In the chart engine `String(...)`, `JSON.stringify` of a key and number text are parameters; `AggregateText.dfy` fills in JSON text. That JavaScript's number text tells different finite numbers apart is library behaviour, proved here for whole numbers in decimal.
- Parsing of the content-type, content-encoding and content-length headers: the body reader starts from their trimmed, lower-case values. Decompression itself is an oracle that delivers decoded chunks.
- A callback that throws out of `next`.
- Actual Ads call times: only reserved slots are spaced, the waits between slot and call are not modelled.
- The Ads client without a limiter (a service built without one calls directly): every call goes through the limiter.
- AI-search terminal status across deliveries is not absorbing in the code and not claimed; the analysis stage between pull and final status is an oracle that reports how many inputs need review.
- Which captures of the extension a job collects (owner, lookback window, requested keywords): what the extension has pushed is a given list. What the mapper makes of a paid answer is a given content or none.
- A sweep's refresh loop over the tracking lists: a sweep is live from its acquisition to its release or crash.
