# OpenMurmur core: a verified model

OpenMurmur records audio continuously, stores it durably and drives a local pipeline that
transcribes, summarizes and delivers it. This project models the parts of it whose
correctness is an argument over whole runs, and proves those arguments with Dafny 4.11.
`dafny verify dfyconfig.toml` checks everything.

| part | files | main results |
|---|---|---|
| Sessions and parts | `SessionMachine`, `Sessionizer`, `SessionRuns`, `SessionTiming` | grammar of the intents, part lengths, when the journal accepts the timing |
| Recording | `RecorderModel`, `RecorderSafety`, `RecorderConservation`, `RecorderFaultFree`, `Recorder` | slot accounting, one outcome per session, audio conservation, when storage gives a session up |
| Crash consistency | `RecoveryModel`, `RecoveryProof`, `RecoverySteps`, `RecordingProtocol`, `RecoveryStore` | a crash anywhere recovers, an interrupted recovery resumes, recovery is idempotent |
| Authority and leases | `Processes`, `OwnershipModel`, `OwnershipSafety`, `OwnershipStore`, `JobModel`, `JobRuns`, `JobQueue` | one live holder, fenced tokens, bounded retries |
| Capture framing | `FrameModel`, `FrameBuffer` | independence of chunking, timestamps, gaps |
| Worker generations | `WorkerModel`, `WorkerSafety`, `WorkerProcess` | every request settled once, no overlapping processes |
| Summary planning | `SummaryPlan`, `SummaryChunks`, `SummaryPrompt`, `SummaryCompletion`, `NoticeLost` | exact cover within a byte budget, prompts always fit, no silent gaps |
| Summary aggregation and storage | `SummarySchema`, `SummaryMerge`, `SummaryProvenance`, `SummaryAggregate`, `SummaryParse`, `SummaryStorage`, `StableSummary`, `AggregateStorage`, `SummaryAnswer`, `SummaryNotices`, `SummaryStore` | provenance of claims, nothing dropped silently, every stored summary is read back equal |
| Summary scoring and sources | `SummaryQuality`, `ClaimSource`, `ClaimExcerpt` | maximum matching, best common run, excerpt window |
| Delivery | `DeliveryManifest`, `DeliveryRuns`, `DeliveryStore` | delivered means a whole manifest was sent |
| Retention | `RetentionModel`, `RetentionSafety`, `RetentionPlanning`, `RetentionStore` | only what is eligible under the lock goes, all of it and once |
| Daily digest | `DigestModel`, `DigestStorage`, `DigestBuild`, `DigestRoundTrip` | built digests come back equal, exactly when |

## How it is built

Code that changes state is a class with the same fields, and its methods are proved
against a specification on values (`...Model`, `SessionMachine`); the theorems are lemmas
about that specification over every sequence of events. Asynchronous code becomes explicit
events: a timer fires, a line arrives, a finalizer completes, a process dies. A recorder
operation takes what happens while it awaits as an argument. SQLite tables are maps, a
transaction is one method, and each condition of a query is a predicate. Times and
durations are integers. Identifiers and tokens that the source draws at random are fresh
numbers.

Transcript text is a sequence of Unicode scalar values with its UTF-8 lengths (section 3 of
RFC 3629) and its UTF-16 lengths; the text of stored summaries is a sequence of UTF-16 code
units, so that cutting one may split a surrogate pair as it does in the source. Word and
grapheme segmentation and normalization are given with the text.

## What the code does not do

- The journal refuses a session whose speech is longer than its duration
  (`src/database/repository.ts:395-403`). With a pre-roll that holds fewer frames than open
  a session this happens to a recording stopped right after it opened: the speech counter
  includes candidate frames that the backdated start does not. `SessionTiming` proves the
  exact condition. The configuration schema does not exclude it
  (`src/config/schema.ts:340-352`).
- A part that has both split rows and an unsplit row, as after the upload limit was raised,
  is never marked delivered, although all of it was sent (`DeliveryRuns.SplitsAcceptedIff`;
  `DeliveryRuns.ResentIsNeverMarked` is such a run).
- The notice of what an aggregate dropped is itself dropped when the summary is incomplete
  and the answers have nineteen or more different uncertainties: the notice of
  incompleteness takes its place (`SummaryCompletion.OverflowNoticeSurvivesIff`;
  `NoticeLost.OverflowNoticeLost` is such a run, of answers the model can give).
- Not every digest that is stored can be read again: storing checks nothing, reading refuses
  a blank host name, blank or overlong identifiers, a time that is not canonical, and
  segment numbers from one million on. `DigestRoundTrip.BuiltDigestSurvivesIff` proves that
  nothing else is refused. Both callers pass the name of the machine
  (`src/cli/daemon.ts:1574`, `src/cli/main.ts:356`), and identifiers and times are the
  program's own, so of these only the segment numbers can come from its data: of a session
  with more than a million segments (`DigestRoundTrip.FarDayIsBuilt`,
  `DigestRoundTrip.FarClaimIsRefused`).

## Model

| member | source | states |
|---|---|---|
| SummaryQuality.FactMatcher.Assign | src/llm/summary-quality.ts:98-111 | one search: success adds exactly one owned fact for the claim, leaves the facts seen before the call and their owners alone and keeps the assignment one-to-one; failure changes no owner and shows that every fact reachable from the claim is taken |
| SummaryQuality.FactMatcher.MatchedFacts | src/llm/summary-quality.ts:95-120 | the score of a set of claims is the size of a largest one-to-one assignment of claims to facts |
| SummaryQuality.Reroute | src/llm/summary-quality.ts:98-111 | when a search fails, any rival assignment that uses the claim can be rebuilt without it, covering the same facts |
| SummaryQuality.FailedSearchIsFinal | src/llm/summary-quality.ts:112-119 | after a failed search no assignment of the claims so far is larger than the one found |
| SummaryQuality.OneMoreClaim | src/llm/summary-quality.ts:112-119 | one more claim raises the best possible score by at most one |
| SummaryQuality.SizeBounds | src/llm/summary-quality.ts:217-227 | a score exceeds neither the number of claims nor the number of facts, so recall and precision stay at most 1 |
| SummaryQuality.ScoreDependsOnClaimSetOnly | src/llm/summary-quality.ts:217-219 | two outputs with the same distinct claims score the same, whatever their order or repetitions |
| SummaryQuality.MoreClaimsNeverScoreLess | src/llm/summary-quality.ts:217-219 | adding claims never lowers the number of facts found |
| SummaryQuality.MeasureCase | src/llm/summary-quality.ts:212-247 | found facts are a maximum matching of the distinct non-blank claims of the output with the normalized facts, unlisted claims are the rest of all claims, forbidden hits are the forbidden facts found anywhere in the joined output, rates are at most 1, and the case passes exactly when all three thresholds hold |
| SessionizerClass.Sessionizer.Push | src/sessionizer/machine.ts:96-162 | one frame moves the nullable, mutable fields exactly as the specification moves its mode, and returns the same intents |
| SessionizerClass.Sessionizer.PushListening | src/sessionizer/machine.ts:102-123 | outside a session: a candidate opens only when sustained for the whole candidate window |
| SessionizerClass.Sessionizer.PushRecording | src/sessionizer/machine.ts:125-161 | inside a session: speech extends it, the first silent frame only starts the grace period, and the timeout closes it |
| SessionizerClass.Sessionizer.BufferPreRoll | src/sessionizer/machine.ts:199-208 | the ring holds the newest frames: oldest dropped while more than one is held and the capacity is exceeded |
| SessionizerClass.Sessionizer.StartSession | src/sessionizer/machine.ts:217-249 | a session opens backdated by the whole ring and part 0 asks for exactly that ring |
| SessionizerClass.Sessionizer.MaybeRotate | src/sessionizer/machine.ts:257-282 | a part that has reached its limit is closed and its successor opened at the same instant |
| SessionizerClass.Sessionizer.CloseSession | src/sessionizer/machine.ts:284-337 | the last part closes with the final timing and one outcome that repeats it |
| SessionizerClass.Sessionizer.ForceFinalize | src/sessionizer/machine.ts:165-180 | stopping closes an open session and otherwise only forgets the candidate |
| SessionRuns.EveryRunReads | src/sessionizer/machine.ts:96-180 | every run emits: started, open 0, (close i, open i+1 at the same instant)*, close with final timing, one outcome; sessions are numbered in order and part spans add up to the session |
| SessionRuns.SpeakReads | src/sessionizer/machine.ts:257-282 | a rotation continues the trace: same boundary, next index |
| SessionRuns.FinalizeReads | src/sessionizer/machine.ts:284-337 | a closing frame completes the trace of its session |
| SessionTiming.PartLengthBounded | src/sessionizer/machine.ts:125-146 | on contiguous frames every part is at most longest speech reach + longest silence + one frame, whatever the configuration |
| SessionTiming.PartShorterThanLimits | src/sessionizer/machine.ts:257-282 | with the pre-roll below the maximum part and the timeout at least one frame, every part is shorter than maximum part + silence timeout + one frame |
| SessionTiming.CoveredRunsAccepted | src/database/repository.ts:395-403 | when the pre-roll holds the frames that open a session, the journal accepts the timing of every recording of every steady run |
| SessionTiming.UncoveredRunRejected | src/database/repository.ts:395-403 | when it does not, speaking until the session opens and stopping at once produces a timing the journal rejects |
| SessionTiming.JournalAcceptsIffPreRollCoversCandidate | src/database/repository.ts:395-403 | the journal accepts every recording of every steady run if and only if the pre-roll holds at least the frames that open a session |
| RecorderClass.Recorder.HandleFrame | src/sessionizer/recorder.ts:212-265 | a stale frame changes nothing, a gap closes the session before the frame is seen, and every other frame takes the host through the step the run theorems are about |
| RecorderClass.Recorder.Consume | src/sessionizer/recorder.ts:225-264 | the intents of a frame are applied in order and the frame is written unless it was replayed as pre-roll |
| RecorderClass.Recorder.OpenNewPart | src/sessionizer/recorder.ts:564-649 | a part takes a storage slot and the replayed pre-roll; a failure discards the session and cleans up in the same slot |
| RecorderClass.Recorder.CloseOpenPart | src/sessionizer/recorder.ts:651-711 | a closed part is detached and handed to a storage finalizer |
| RecorderClass.Recorder.BufferPreRoll | src/sessionizer/recorder.ts:243-251 | the PCM pre-roll is trimmed like the ring of durations |
| RecorderClass.Recorder.DeferOrSettleSessionOutcome | src/sessionizer/recorder.ts:305-315 | an outcome waits while the session has running finalizers and is settled at once otherwise |
| RecorderClass.Recorder.SettleDeferredSessionOutcome | src/sessionizer/recorder.ts:317-323 | the waiting outcome of a session is settled and forgotten |
| RecorderClass.Recorder.TrackStorageFinalizer | src/sessionizer/recorder.ts:761-779 | a finalizer is registered under its session and its own identity |
| RecorderClass.Recorder.StorageFinalizerFinished | src/sessionizer/recorder.ts:781-786 | a finished finalizer is forgotten, by itself and under its session, and frees one slot |
| RecorderClass.Recorder.DrainStorageFinalizers | src/sessionizer/recorder.ts:798-808 | after draining no finalizer runs and no outcome waits: what waited has been added to what was settled |
| RecorderClass.Recorder.SettleWaiting | src/sessionizer/recorder.ts:317-323 | settling one waiting outcome during shutdown keeps the slot and outcome accounts and only adds to what was settled |
| RecorderClass.Recorder.CloseOpenSession | src/sessionizer/recorder.ts:179-210 | closing an open session applies the final intents of the machine |
| RecorderClass.Recorder.Stop | src/sessionizer/recorder.ts:127-153 | the end of a run closes whatever is open and drains: every session that ever started has been settled exactly once |
| RecorderSafety.EveryRunSound | src/sessionizer/recorder.ts:267-323 | over every run: reserved slots are the running finalizers plus the open part and never exceed two, the reservation error is unreachable, each outcome is settled once and only after all finalizers of its session, and outside a session both pre-roll buffers hold the same frames |
| RecorderSafety.BufferedAlike | src/sessionizer/recorder.ts:243-251 | trimming the PCM pre-roll and trimming the ring of durations drop the same frames |
| RecorderSafety.TrackKeeps | src/sessionizer/recorder.ts:761-779 | a reserved slot is always there for the part or cleanup that takes it |
| RecorderSafety.OutcomeKeeps | src/sessionizer/recorder.ts:305-331 | an outcome is pending or settled, never both and never twice |
| RecorderSafety.SettleKeeps | src/sessionizer/recorder.ts:317-331 | settling a waiting outcome keeps every other session where it was |
| RecorderConservation.EveryRunConserves | src/sessionizer/recorder.ts:241-264 | over every run, the frames written for a session are, in order, a prefix of the audio the machine entitles it to (pre-roll through the frame before the silence close), all of it unless storage gave the session up, in parts numbered 0, 1, 2, ... |
| RecorderFaultFree.NoneGivenUpIff | src/sessionizer/recorder.ts:564-596 | storage gives a session up in exactly those runs in which some part was to be opened without a free slot, counting the finalizers that complete while it is awaited, or its open failed |
| RecorderFaultFree.EveryFrameWrittenOnce | src/sessionizer/recorder.ts:241-264 | in all other runs each session has all of its audio, every frame once |
| RecorderConservation.SettledIsComplete | src/sessionizer/recorder.ts:325-331 | a session settled without a storage failure has all of its audio, each frame once |
| RecorderConservation.CalmRunJournalsEveryPart | src/sessionizer/recorder.ts:651-711 | without storage faults every detached part is journaled |
| RecorderConservation.OpeningFrame | src/sessionizer/recorder.ts:241-264 | the opening frame is written once, as the last frame of the replayed pre-roll |
| RecorderConservation.OngoingFrame | src/sessionizer/recorder.ts:241-264 | a frame of an open session is written once, after a rotation to the new part |
| RecorderConservation.ClosingFrame | src/sessionizer/recorder.ts:241-264 | the frame whose silence closes the session is written nowhere |
| JobQueueClass.JobQueue.Enqueue | src/jobs/queue.ts:165-191 | a job is added exactly when no row, in any state, holds its dedupe key |
| JobQueueClass.JobQueue.Claim | src/jobs/queue.ts:193-251 | the claimed job is a runnable one that no other precedes; it gets a fresh token and one more attempt |
| JobQueueClass.JobQueue.Renew | src/jobs/queue.ts:253-264 | only the holder of the current token moves the lease |
| JobQueueClass.JobQueue.Complete | src/jobs/queue.ts:306-322 | only the holder of the current token finishes the job |
| JobQueueClass.JobQueue.Fail | src/jobs/queue.ts:324-358 | retry with backoff while attempts remain, dead otherwise, lost without the current token |
| JobQueueClass.JobQueue.RecoverStaleLeases | src/jobs/queue.ts:360-374 | exactly the expired leases return to pending |
| JobQueueClass.JobQueue.RecoverLeasesAfterProvenDaemonDeath | src/jobs/queue.ts:376-388 | exactly the leases of the dead owner return to pending with their attempt refunded |
| JobQueueClass.JobQueue.Tick | src/cli/daemon.ts:650-657 | the heartbeat renews every active lease before it sweeps stale ones |
| JobRuns.EveryRunSound | src/jobs/queue.ts:193-388 | over every run: tokens are never reused, a job is leased under one token at most, dedupe keys are unique over rows in every state, and attempts account for claims, retries and refunds |
| JobRuns.EveryQueueSound | src/jobs/queue.ts:150-191 | the same of every queue that started empty |
| JobRuns.LostTokenStaysLost | src/jobs/queue.ts:253-358 | a token that has lost its job can never again assert, renew, complete, fail or release it |
| JobRuns.DoneIsFinal | src/jobs/queue.ts:306-322 | a finished job never changes again |
| JobRuns.RetriesAreCounted | src/jobs/queue.ts:324-358 | the retries answered in a life of a job are exactly those counted for it |
| JobRuns.RetryBudget | src/jobs/queue.ts:324-358 | at most maxAttempts - 1 failures of one life are answered with retry |
| JobRuns.OnlyFailureKills | src/jobs/queue.ts:324-358 | a job becomes dead only by a failure that exhausts its attempts |
| JobRuns.RefundUndoesClaim | src/jobs/queue.ts:376-388 | proven daemon death and an interrupted release both put back exactly what the claim changed |
| JobRuns.TickKeepsOwnJobs | src/cli/daemon.ts:650-657 | renewing before sweeping means a daemon never reclaims its own running job |
| OwnershipStoreClass.OwnershipStore.InsertDaemonOwnership | src/cli/daemon-ownership.ts:384-420 | the row is inserted only into an empty place and an unchanged mirror |
| OwnershipStoreClass.OwnershipStore.ReplaceDaemonOwnership | src/cli/daemon-ownership.ts:422-468 | the row is replaced only if it is still the observed one; leases of the replaced daemon are returned in the same transaction |
| OwnershipStoreClass.OwnershipStore.TakeRow | src/cli/daemon-ownership.ts:667-724 | taking over inserts or replaces, whichever the observation calls for |
| OwnershipStoreClass.OwnershipStore.DeleteDaemonOwnership | src/cli/daemon-ownership.ts:470-493 | only the exact own row is deleted |
| OwnershipSafety.EveryRunSound | src/cli/daemon-ownership.ts:384-493 | every interleaving of claimants reading, probing and swapping keeps: holders are in the row, replaced generations are dead and hold no lease |
| OwnershipSafety.OneLiveHolder | src/cli/daemon-ownership.ts:930-1025 | two processes that hold authority are the same process, and the row is theirs |
| OwnershipSafety.LiveRowIsSafe | src/cli/daemon-ownership.ts:384-493 | no step of anyone else replaces or removes the row of a live holder |
| OwnershipSafety.ReplacedGenerationHasNoLeases | src/cli/daemon-ownership.ts:422-468 | a replaced generation is dead and owns no leased job |
| OwnershipSafety.TakeoverOnlyOfTheDead | src/cli/daemon-ownership.ts:509-538 | a swap that succeeds met the row and the mirror it had observed, and their holder was dead |
| OwnershipSafety.CommitClears | src/cli/daemon-ownership.ts:422-468 | a successful takeover leaves no lease of the replaced daemon and touches no other |
| RecoveryStoreClass.Store.RecoverPublishedPart | src/database/repository.ts:615-643 | throws exactly when stored facts contradict the file, the journal or the session, and then its transaction leaves everything as it was; otherwise a published file gets a finalized row with the journaled timing, and the journal is consumed unless its session is still open |
| RecoveryStoreClass.Store.SettleMissingProvisionalPart | src/capture/recovery.ts:64-144 | the row of a part whose file never appeared is marked deleted exactly when its session failed for storage and no journal names it |
| RecoveryStoreClass.Store.ReconcilePublishedParts | src/capture/recovery.ts:151-206 | the loop over provisional parts computes the first recovery phase |
| RecoveryStoreClass.Store.ReconcileStalledSession | src/capture/recovery.ts:659-774 | a stalled session is finalized or failed, its journals removed and its first work enqueued in one transaction; a refused one is left as it was |
| RecoveryStoreClass.Store.ReconcileStalledSessions | src/capture/recovery.ts:659-774 | the loop over stalled sessions computes the second recovery phase |
| RecoveryStoreClass.Store.InsertMissingProcessingFacts | src/capture/recovery.ts:564-597 | a repair inserts the missing jobs and status and corrects the part count, nothing else |
| RecoveryStoreClass.Store.ReconcileMissingProcessingJobs | src/capture/recovery.ts:599-647 | the loop over processing sessions computes the third recovery phase |
| RecoveryStoreClass.Store.RecoverAfterCrash | src/capture/recovery.ts:789-796 | startup recovery is the three phases in order, and from consistent state none of them throws |
| RecoveryProof.PublishedFilesRecovered | src/capture/recovery.ts:151-206 | after recovery every published file has a finalized row with its bytes, and its journaled timing if it was not final already |
| RecoveryProof.StalledSessionsResolved | src/capture/recovery.ts:659-774 | a stalled session with a finalized part becomes PROCESSING with exactly one deliver-audio job and exactly one asr job, both runnable and for this session, and its status row; any other stalled session fails and gets no job; a journaled final timing becomes the session timing |
| RecoveryProof.FirstWorkInserted | src/capture/recovery.ts:699-730 | what is inserted for a session that has no work is one job of each first kind and the status row, nothing else |
| RecoveryProof.OtherWorkStays | src/capture/recovery.ts:699-730 | work inserted for some sessions changes no other session: without work it stays without, with its first work it keeps exactly that |
| RecoverySteps.PartStep | src/capture/recovery.ts:151-206 | the transaction of one part keeps the database consistent and leaves the outcome of the whole phase the same |
| RecoverySteps.SessionStep | src/capture/recovery.ts:659-774 | the same for one stalled session, which is stalled no longer while every other one still is |
| RecoverySteps.RepairStep | src/capture/recovery.ts:599-647 | the same for one repaired session, whose assessment becomes complete while no other assessment changes |
| RecoverySteps.CommitResumes | src/capture/recovery.ts:151-206 | after any single transaction of a pass, the database is consistent and the next pass ends exactly where the uninterrupted one would have |
| RecoveryProof.RecoverSettles | src/capture/recovery.ts:783-840 | after recovery every file, every session and every job is settled |
| RecoveryProof.RecoverIsIdempotent | src/capture/recovery.ts:783-840 | a second recovery changes nothing |
| RecoveryProof.SettledFilesAreFixed | src/capture/recovery.ts:151-206 | the first phase leaves settled files alone |
| RecoveryProof.SettledSessionsAreFixed | src/capture/recovery.ts:659-774 | the second phase leaves settled sessions alone |
| RecoveryProof.SettledJobsAreFixed | src/capture/recovery.ts:599-647 | the third phase leaves complete sessions alone |
| RecordingProtocol.EveryRunSound | src/sessionizer/recorder.ts:651-759 | every run of journal, publish, finalize-row, settle, pipeline, crash and single recovery steps keeps the database consistent |
| RecordingProtocol.CrashAnywhereRecovers | src/sessionizer/recorder.ts:333-523 | a crash after any step, recovery steps included, leaves a database that one recovery settles: no live session, empty journal, every published file finalized, every stalled session handed over with exactly one job of each first kind or failed without any, and a second pass changes nothing |
| RecordingProtocol.InterruptedRecoveryResumes | src/capture/recovery.ts:151-206 | recovery cut off between any two of its transactions, any number of times, ends where it would have ended at once |
| RecordingProtocol.SettleSound | src/database/repository.ts:517-554 | settling consumes the journaled timing, keeps the database consistent, and hands a session to the pipeline with exactly one job of each first kind only when its storage is proven; otherwise it enqueues none |
| RecordingProtocol.CloseOpenSound | src/database/repository.ts:395-454 | journaling a part before its file is published keeps the database consistent |
| SummaryPlan.SourcePieces | src/llm/summary-plan.ts:68-89 | the pieces tile the transcript; a labelled piece is its segment at the first place after the previous one, and no segment that still occurs is missed |
| SummaryPlan.BoundedEnd | src/llm/summary-plan.ts:91-108 | the cut fits the byte budget, advances when four bytes fit, and stops early only at a full budget or after white space past three fifths of it |
| SummaryPlan.PromptUnits | src/llm/summary-plan.ts:110-147 | units tile the transcript and fit the budget with their labels; it fails exactly when some label leaves less than four bytes |
| SummaryChunks.Pack | src/llm/summary-plan.ts:163-196 | packing is greedy: groups fit the budget and none had room for the next unit |
| SummaryChunks.PlanSummaryChunks | src/llm/summary-plan.ts:154-206 | a plan exists unless the budget is below 64 or a label does not fit |
| SummaryChunks.PlanCoversOnce | src/llm/summary-plan.ts:154-206 | the chunks cover the transcript exactly once: contiguous UTF-16 ranges from 0 to the end, concatenated source text equal to the transcript, true byte counts within the budget |
| SummaryChunks.LabelsAreTrue | src/llm/summary-plan.ts:110-147 | a label names a segment that contains the labelled text and is listed in the chunk |
| SummaryChunks.PlanIsShort | src/llm/summary-plan.ts:154-206 | there are never more chunks than characters |
| SummaryPrompt.EnvelopeCoversChunk | src/llm/ollama.ts:129-153 | the prompt of every chunk is at most the reserved envelope plus the chunk budget |
| SummaryPrompt.FencedShrinks | src/llm/ollama.ts:129-153 | removing forged transcript markers never lengthens the text |
| SummaryPrompt.FencedHasNoMarker | src/llm/ollama.ts:129-134 | whatever was said, the fenced transcript contains neither marker |
| SummaryPrompt.BlockEndsOnce | src/llm/ollama.ts:129-152 | from the fenced transcript on, the closing marker occurs once, at its own place |
| SummaryCompletion.CollectAnswers | src/llm/ollama.ts:414-456 | the loop stops at the first late call and accounts for every call before it as an answer or a counted failure |
| SummaryCompletion.CompleteIffAllAnswered | src/llm/ollama.ts:203-210 | a summary counts as complete exactly when every planned chunk was answered in time |
| SummaryCompletion.SummarizeChunks | src/llm/ollama.ts:414-471 | a summary without the notice of incompleteness is the aggregate of the answers to the whole plan; any other is the aggregate of the answers there are, with the notice |
| SummaryCompletion.NoticeKeepsClaims | src/llm/ollama.ts:462-470 | the notice comes last and costs only claims about a twentieth uncertainty; every other claim is about the same item as before and none about the notice |
| SummaryCompletion.OverflowNoticeSurvivesIff | src/llm/ollama.ts:462-466 | of an aggregate that dropped something, the incomplete summary keeps the first nineteen different uncertainties of the answers, then the notice of what was dropped exactly when there are fewer than nineteen, then its own notice |
| NoticeLost.BothAreAnswers | src/llm/ollama.ts:289-340 | the two answers of that run are within the bounds of a parsed answer, and reading them as JSON gives them back |
| NoticeLost.OverflowNoticeLost | src/llm/ollama.ts:414-471 | a run whose summary loses the notice: three chunks, one answered with 4000 letters and nineteen uncertainties, one with one letter, one with malformed JSON |
| SummaryPrompt.IdFits | src/llm/summary-plan.ts:198-205 | no chunk identifier is longer than the reserved one |
| SummaryPrompt.EveryPromptFits | src/llm/ollama.ts:389-433 | every planned prompt fits the input limit |
| SummaryPrompt.PlanPrompts | src/llm/ollama.ts:389-433 | the over-bound error never happens, and the envelope error happens exactly when less than 64 bytes remain |
| ClaimSource.LongestIsLongest | src/llm/claim-source.ts:67-89 | the recurrence measures exactly the common runs: equal word slices ending at the two places |
| ClaimSource.CandidateExtends | src/llm/claim-source.ts:71-78 | a table entry is the match of the longest run ending there |
| ClaimSource.ScanWord | src/llm/claim-source.ts:69-89 | one source word fills its row and keeps the best match so far |
| ClaimSource.BestWordMatch | src/llm/claim-source.ts:55-98 | the result is what trying every common run gives: most words, then most characters, then earliest, and nothing when that is too weak |
| ClaimSource.FirstBestUnique | src/llm/claim-source.ts:80-86 | that match is unique |
| ClaimExcerpt.AnchorOf | src/llm/claim-source.ts:115-129 | the anchor is exactly the graphemes from the one holding the start of the match to the last one starting before its end |
| ClaimExcerpt.NarrowerIsShorter | src/llm/claim-source.ts:144-151 | a narrower window never renders longer, ellipses included |
| ClaimExcerpt.ShrinkWindow | src/llm/claim-source.ts:131-152 | the loop ends, succeeds exactly when the narrowest window fits 320 escaped characters, and then keeps a short anchor whole, trims the side with more context and trims no more than needed |
| ClaimExcerpt.NarrowOnce | src/llm/claim-source.ts:145-150 | one grapheme goes from the side with more context; the last branch is never taken |
| ClaimExcerpt.EscapedLengthAppends | src/llm/claim-source.ts:100-106 | the escaped length of a concatenation is the sum of the escaped lengths |
| ClaimExcerpt.LocalizedExcerpt | src/llm/claim-source.ts:108-153 | a quotation is given exactly when the claim has a usable match whose narrowest window fits |
| ClaimExcerpt.ResolveClaimSource | src/llm/claim-source.ts:156-201 | missing without references; the first of the best quotations among the cited segments; unlocalized or referenced otherwise, depending on whether any cited segment has text |
| FrameModel.FramingUnique | src/capture/frame-buffer.ts:101-125 | the frames and the remainder are determined by the bytes |
| FrameModel.WriteSound | src/capture/frame-buffer.ts:65-126 | a write keeps every byte of its epoch, a gap starts a new epoch with the chunk and its mark, and the queue overflows exactly when the frames outnumber the room |
| FrameModel.WriteTiming | src/capture/frame-buffer.ts:74-100 | the newest frame never trails its observation by more than the gap threshold, and the first batch of an epoch ends exactly at it |
| FrameModel.QueueIsCurrent | src/capture/frame-buffer.ts:79-90 | no frame from before a gap, discard or stop is queued after it |
| FrameModel.StepKeepsValid | src/capture/frame-buffer.ts:65-202 | every operation keeps: frames one duration apart, the gap marked on the first frame only, queue in order and bounded, no waiter beside queued frames |
| FrameModel.ChunkingDoesNotMatter | src/capture/frame-buffer.ts:65-126 | two runs whose current epochs were written the same bytes cut the same frames, however the bytes were chunked |
| FrameBufferClass.CaptureFrameBuffer.WriteChunk | src/capture/frame-buffer.ts:65-126 | a write cuts the frames, starts the clock or a new epoch and overflows exactly as the accounting lemmas assume, keeps the buffer valid, and hands a waiting consumer the first frame |
| FrameBufferClass.CaptureFrameBuffer.DiscardBufferedFrames | src/capture/frame-buffer.ts:132-143 | discarding empties queue, carry, clock and gap mark and opens a new epoch |
| FrameBufferClass.CaptureFrameBuffer.AbortWith | src/capture/frame-buffer.ts:145-156 | aborting drops everything and wakes the consumer with the error |
| FrameBufferClass.CaptureFrameBuffer.StopCapture | src/capture/frame-buffer.ts:159-172 | stopping drops everything and wakes the consumer cleanly |
| FrameBufferClass.CaptureFrameBuffer.CloseStream | src/capture/frame-buffer.ts:174-185 | closing keeps the queue for draining |
| FrameBufferClass.CaptureFrameBuffer.NextFrame | src/capture/frame-buffer.ts:187-202 | the oldest queued frame, the end, the error, or one consumer waiting |
| WorkerSafety.EveryRunSound | src/asr/worker-process.ts:101-434 | over every run: each pending request belongs to the current process, each request is settled at most once and pending exactly while it is not, each exit is reported once and no later than the retirement |
| WorkerSafety.SettledOnce | src/asr/worker-process.ts:254-390 | what a caller was told is never taken back or added to |
| WorkerSafety.DispatchSound | src/asr/worker-process.ts:374-390 | a line of a retired generation settles nothing |
| WorkerSafety.EnsureSound | src/asr/worker-process.ts:101-145 | a process is spawned only when every earlier one has exited or outlived SIGKILL |
| WorkerSafety.RecycleSound | src/asr/worker-process.ts:311-340 | recycling fences the generation off, rejects its requests and reports it |
| WorkerSafety.ExitSound | src/asr/worker-process.ts:176-193 | an exit rejects what is left and reports once |
| WorkerSafety.FailAllFindsNothing | src/asr/worker-process.ts:247-248 | after the process is retired nothing is pending and every request has been settled |
| WorkerProcessClass.WorkerProcess.FailRequests | src/asr/worker-process.ts:424-431 | the sweep rejects exactly the requests of one generation |
| WorkerProcessClass.WorkerProcess.RecycleGeneration | src/asr/worker-process.ts:311-340 | a recycled process stops being current, its requests are rejected and its exit is reported once; for any other generation nothing happens |
| WorkerProcessClass.WorkerProcess.OnClose | src/asr/worker-process.ts:176-193 | the close event of a process marks its exit, rejects what still waits on it and reports it if recycling has not |
| WorkerProcessClass.WorkerProcess.EnsureRunning | src/asr/worker-process.ts:101-145 | a closed worker, a running one, a start in progress, a process still being joined and a failed spawn are told apart; only otherwise is a new generation started |
| WorkerProcessClass.WorkerProcess.WriteRequest | src/asr/worker-process.ts:254-291 | a request to a gone process or under a live id is refused, any other waits on the current generation, and either way it gets a settlement of its own |
| WorkerProcessClass.WorkerProcess.OnLine | src/asr/worker-process.ts:374-390 | a line settles the request it names only if that was sent to the same generation |
| WorkerProcessClass.WorkerProcess.OnIdleTimer | src/asr/worker-process.ts:403-414 | the idle timer retires a process only while nothing waits on it |
| WorkerProcessClass.WorkerProcess.AskToShutDown | src/asr/worker-process.ts:227-243 | closing rejects what waits on the current process and asks it to shut down, or goes straight to joining |
| WorkerProcessClass.WorkerProcess.Handle | src/asr/worker-process.ts:101-434 | whatever event comes, a sound worker stays sound and moves as the run theorems assume |
| SummaryMerge.MergedSound | src/llm/summary-plan.ts:259-290 | the merge keeps lists, item index and claims consistent with everything met so far |
| SummaryMerge.ClaimsAreBacked | src/llm/summary-plan.ts:240-290 | every segment of a merged claim was shown to a chunk that holds the item of the claim and cites the segment for it |
| SummaryProvenance.MergedLists | src/llm/summary-plan.ts:271-279 | every merged list is the first occurrences of all chunk items, in order, none twice |
| SummaryProvenance.CitationKept | src/llm/summary-plan.ts:280-285 | a shown and cited segment is in the claim of its item unless that claim already has twenty |
| SummaryProvenance.SummaryCitationKept | src/llm/summary-plan.ts:262-269 | the same for what is cited for the text of a chunk summary |
| SummaryAggregate.AggregationState.MergeClaim | src/llm/summary-plan.ts:240-257 | segments are added once each, in order, up to twenty |
| SummaryAggregate.AggregationState.MergeChunkSummary | src/llm/summary-plan.ts:259-290 | the mutable state after a chunk is the specified merge of that chunk, its summary text is appended and its shown references are kept |
| SummaryAggregate.TruncateSummary | src/llm/summary-plan.ts:310-316 | the longest run of whole graphemes within 4000 code units |
| SummaryAggregate.BoundLists | src/llm/summary-plan.ts:299-305 | each list is cut to twenty items and each cut is reported |
| SummaryAggregate.AnnouncedIsNotSilent | src/llm/summary-plan.ts:299-325 | without overflow everything is kept; with it the notice ends the uncertainties and reports every dropped item, truncated text and the place it took |
| SummaryAggregate.OutputClaimsStand | src/llm/summary-plan.ts:327-335 | every retained claim is about an item that is still there unchanged, never the notice whatever it says, backed by the chunks, and no claim that still stands is left out |
| SummaryAggregate.AggregateChunkSummaries | src/llm/summary-plan.ts:294-352 | for any chunk summaries: nothing dropped without the notice, every claim standing and backed, summary text cut at a grapheme, references bounded |
| SummaryParse.CoerceList | src/llm/schema.ts:148-161 | the first twenty visible strings, trimmed and cut, with the index of each |
| SummaryParse.CoerceClaimEvidence | src/llm/schema.ts:237-283 | claims of known fields about kept items, merged per item |
| SummaryStorage.ParsedWithinBounds | src/llm/schema.ts:168-235 | whatever is read, the result has at most 4000 code units of summary, 20 items of at most 500 code units a list, one claim an item and 20 references, and every claim is about an item that is there |
| SummaryStorage.StorageKeepsClaims | src/llm/schema.ts:148-283 | storing a summary within bounds and reading it back keeps every claim, every reference and the length of every list |
| SummaryStorage.StorageIsExactIff | src/llm/schema.ts:148-235 | nothing at all changes if and only if no text does |
| SummaryStorage.RereadingIsExactIff | src/llm/schema.ts:148-283 | reading a parsed and stored summary again keeps its claims, and changes nothing else if and only if no text was cut right after white space |
| SummaryStorage.RereadingMayTrim | src/llm/schema.ts:172-173 | of the parser alone: a text over the limit, which no caller passes, that is read differently the second time |
| StableSummary.RereadingShortIsExact | src/llm/schema.ts:148-235 | of text within the limits, reading only trims, and reading again gives the same summary |
| StableSummary.BoundedWithinBounds | src/llm/schema.ts:286-301 | dropping references that the transcript does not have keeps the bounds and the texts |
| StableSummary.WrittenReadsBack | src/jobs/pipeline.ts:441-484 | whatever summary within bounds is made, what is written of it is read back equal, and bounding its references again leaves it as it is |
| SummaryAnswer.TruncateGraphemes | src/llm/ollama.ts:305-315 | a text over the limit is cut by the loop over its graphemes to what fits |
| SummaryAnswer.ClipIsLongest | src/llm/ollama.ts:305-315 | what is left is whole graphemes, and one more would not fit |
| SummaryAnswer.ParseChunkSummary | src/llm/ollama.ts:289-340 | an answer is clipped field by field, read, and marked with a notice exactly when some text or list was over its bound |
| SummaryAnswer.AnswerWithinBounds | src/llm/ollama.ts:289-340 | whatever the model answers, what is made of it is within all bounds and is read again unchanged |
| SummaryAnswer.NothingDroppedSilently | src/llm/ollama.ts:289-340 | either the summary and all visible texts of an answer are kept, in order and only trimmed, or the notice ends the uncertainties and no claim is about it |
| SummaryAnswer.SettledIsAnswered | src/llm/ollama.ts:289-340 | every trimmed summary within bounds is what some answer comes to |
| SummaryNotices.OverflowNoticeFits | src/llm/summary-plan.ts:297-325 | the notice of what an aggregate of at most 64 answers dropped fits a list item, whatever it lists |
| SummaryNotices.IncompleteNoticeFits | src/llm/ollama.ts:212-230 | the notice of missing chunks fits a list item and is visible |
| SummaryNotices.EnvelopeNoticeFits | src/llm/ollama.ts:406-413 | so does the notice that no prompt fits |
| SummaryStoreClass.Summarize | src/llm/ollama.ts:388-471 | however the chunk calls go, a summary that is returned is within all bounds |
| SummaryStoreClass.SummaryStore.HandleSummarize | src/jobs/pipeline.ts:428-488 | a revision keeps the summary it has and otherwise gets one, and reading any stored payload gives exactly the summary that was written |
| SummaryStoreClass.SummaryStore.ReadSummary | src/jobs/pipeline.ts:636-642 | a stored payload is read as the summary it was written for, within bounds |
| AggregateStorage.ClaimsFit | src/llm/schema.ts:139 | ten fields of twenty items, and one summary, leave room for all claims of an aggregate |
| AggregateStorage.StoringAggregateKeepsClaims | src/llm/summary-plan.ts:292-352 | storing an aggregate and reading it back discards no claim and no item |
| AggregateStorage.AggregateWithinBounds | src/llm/summary-plan.ts:292-352 | an aggregate of summaries within all bounds is within all bounds if its notice fits a list item |
| AggregateStorage.MarkedWithinBounds | src/llm/ollama.ts:462-470 | a notice that fits a list item leaves a summary within all bounds, those on lengths included |
| AggregateStorage.StoringIncompleteKeepsClaims | src/llm/ollama.ts:462-470 | storing the summary given when chunks are missing discards no claim and no item, even when none was answered |
| DeliveryManifest.AcceptedIffComplete | src/jobs/pipeline.ts:697-763 | the counts accept exactly the complete manifests: one unsplit row, or each of the splits 0, ..., n - 1 once, all sent |
| DeliveryManifest.NumeralIsCanonical | src/jobs/pipeline.ts:705-711 | the numeral of an index is read back as that index |
| DeliveryRuns.EveryRunPublished | src/jobs/delivery.ts:179-214 | over every run the split rows of a part are 0, ..., m - 1 for some m no smaller than its first manifest |
| DeliveryRuns.MarkedMeansSent | src/jobs/pipeline.ts:678-766 | marking a part delivered proves that its only row, or every chunk of the manifest published first, was sent |
| DeliveryRuns.SplitsAcceptedIff | src/jobs/pipeline.ts:678-766 | a split part is accepted exactly when all its rows are sent and no unsplit row stands beside them |
| DeliveryRuns.ResentIsNeverMarked | src/jobs/delivery.ts:142-160 | a part published in any number of chunks and then whole: all its rows are sent, and no enumeration of them is ever accepted |
| DeliveryRuns.ClockNeverMovesBack | src/database/repository.ts:273-287 | a part once marked stays marked, at no earlier time |
| DeliveryStoreClass.DeliveryStore.PublishSplitManifest | src/jobs/delivery.ts:182-214 | a split manifest is published whole or, when a live row is in the way, not at all |
| DeliveryStoreClass.DeliveryStore.EnqueueUnsplit | src/jobs/delivery.ts:142-160 | an unsplit row is inserted once |
| DeliveryStoreClass.DeliveryStore.MarkAudioDelivered | src/jobs/pipeline.ts:678-766 | one pass over the rows of a part marks it exactly when its manifest is complete and sent, at a time no earlier than before |
| RetentionStoreClass.RetentionStore.PlanRetention | src/retention/policy.ts:359-397 | the plan is, for every row of every lane exactly once, the files it is eligible to lose, and their bytes |
| RetentionStoreClass.GroupCandidates | src/retention/policy.ts:426-437 | candidates are collected by kind and id in order of first occurrence |
| RetentionPlanning.GroupsOfFlatten | src/retention/policy.ts:426-437 | grouping takes a plan apart into exactly the rows it was made of |
| RetentionSafety.LanesApart | src/retention/policy.ts:87-339 | the lanes exclude each other, so no row is planned twice |
| RetentionSafety.SameGroupSameCandidates | src/retention/policy.ts:439-458 | the comparison under the lock accepts the same candidates only |
| RetentionStoreClass.RetentionStore.ApplyCandidateGroup | src/retention/policy.ts:493-529 | one group is revalidated, unlinked in order and marked, or left stale, or given up at the first file that cannot be removed |
| RetentionStoreClass.RetentionStore.ApplyRetention | src/retention/policy.ts:542-569 | a pass over the groups, with anything committed between them; a plan without its proof deletes nothing |
| RetentionSafety.UnlinkedIsEligible | src/retention/policy.ts:493-529 | a file goes only if its row is eligible in the locked database with exactly the planned paths, and a row is marked only after all its files are gone |
| RetentionSafety.EveryUnlinkIsEligible | src/retention/policy.ts:542-569 | over a whole pass, whatever happens between groups, every file that goes was eligible under the lock of its group |
| RetentionSafety.DeletedOnce | src/retention/policy.ts:571-580 | what a pass deleted, any later attempt under any plan finds stale |
| RetentionSafety.MarkingIsLocal | src/retention/policy.ts:571-580 | deleting one row changes the eligibility of no other |
| RetentionSafety.CalmApplyDeletesPlan | src/retention/policy.ts:542-569 | with nothing in the way every planned file is gone and every planned row marked |
| RetentionStoreClass.PlanIsCarriedOut | src/retention/policy.ts:542-569 | then the result counts every file and every byte of the plan, without an error |
| RetentionSafety.RepeatDeletesNothing | src/retention/policy.ts:542-569 | applying a plan again after a pass that deleted every group deletes nothing |
| RetentionSafety.RepeatDeletesOnlyTheRest | src/retention/policy.ts:542-580 | applying a plan again after any pass, disturbed or not: what the pass deleted is stale, and a file that goes now was eligible in a group the pass did not delete |
| DigestBuild.BuildDigest | src/digest/daily.ts:144-228 | a day is built exactly when it has at most 200 sessions, 1000 claims and no summary without a revision; each row carries its summary and one resolved source for every visible claim, in order |
| DigestStorage.ReadBackIff | src/digest/daily.ts:556-624 | a stored snapshot is read back equal if it is acceptable and refused if it is not |
| DigestStorage.AcceptedIsStable | src/digest/daily.ts:556-725 | whatever payload is accepted, what is read of it is acceptable, and storing it again changes nothing |
| DigestStorage.CoordinatesDiffer | src/digest/daily.ts:230-241 | no claim of a row has two sources |
| DigestRoundTrip.WindowIsExcerpt | src/digest/daily.ts:815-823 | every excerpt that is quoted is within the reader's bounds on graphemes and escaped length |
| DigestRoundTrip.ResolutionIsSource | src/digest/daily.ts:735-825 | every resolved source is one the reader accepts, exactly when its segments are below a million |
| DigestRoundTrip.CitedIsBounded | src/llm/schema.ts:286-301 | what a claim cites after bounding is short and names each segment once |
| DigestRoundTrip.BuiltDigestSurvivesIff | src/digest/daily.ts:144-241 | every digest that is built comes back equal from storage, or is refused, and it is refused exactly for the day's own identifiers, times or cited segments |
| DigestRoundTrip.ShortTranscriptsAreWithinReach | src/digest/daily.ts:827-840 | a transcript of at most a million segments is never the reason |
| DigestRoundTrip.FarDayIsBuilt | src/digest/daily.ts:144-228 | a day is built with a session of 1,000,001 segments whose summary cites the last one |
| DigestRoundTrip.FarClaimIsRefused | src/digest/daily.ts:827-840 | and no digest of a day with such a session is read again, whatever its host, identifiers and times |
| DigestRoundTrip.ShownAsWritten | src/digest/daily.ts:191-195 | the digest shows a stored summary exactly as it was written |
| DigestRoundTrip.BlankHostIsRefused | src/digest/daily.ts:575-577 | the reader also refuses a digest under a blank host name |
| DigestRoundTrip.DigestStore.StoreDigest | src/digest/daily.ts:538-554 | the first writer of a date wins |
| DigestRoundTrip.DigestStore.ReadStoredDigest | src/digest/daily.ts:556-624 | no snapshot, a refused one and an accepted one are told apart; what is returned is acceptable, and a stored digest comes back equal exactly if it is |

## Left out

- Process, device, file and network I/O (ffmpeg, the native helper, fsync, Telegram, Ollama): only outcomes are modelled, such as a file being published or a process being dead.
- The days and schedule of the digest, its rendering, and re-proving a snapshot at publication.
- The explanations of why an old recording is still blocked from deletion.
- Transcript, report and Markdown rendering, health text, setup, status and logging.
- Languages and headers of a prompt are given; their choice is not modelled.
- SummaryQuality.MeasureCase: takes the normalization of texts as a function.
- SummaryQuality.FactMatcher.MatchedFacts: takes claims and fact alternatives already normalized, because Unicode normalization and case folding are not modelled.
- SummaryPlan.BoundedEnd: states the 0.6 threshold as an integer comparison, five times the bytes against three times the budget.
- SummaryAggregate.AggregateChunkSummaries: takes the wording of the notice as a function of what it reports; `SummaryNotices.OverflowNotice` is the source's.
- SummaryStorage.RereadingMayTrim: shows the change for the summary text; list items change in the same way.
- SummaryAnswer.ParseChunkSummary: takes any JSON object; which answers are rejected for their shape is given with the calls, as is the segmentation into graphemes.
- SummaryStoreClass.SummaryStore.HandleSummarize: the lease check and the report job are not modelled, nor summaries of a backend other than Ollama.
- SummaryNotices.IncompleteNoticeFits: counts and durations are at most 2^53 - 1, as far as the source's numbers count.
- ClaimSource.BestWordMatch: takes the words of both texts as given, because word segmentation, normalization and case folding are not modelled.
- ClaimExcerpt.LocalizedExcerpt: takes the graphemes of the source as given.
- FrameModel.ChunkingDoesNotMatter: speaks of frame contents; time stamps depend on when the chunks arrived, as `FrameModel.WriteTiming` says.
- FrameModel.WriteSound: after an overflow the lost frame is recorded as lost; the caller aborts the buffer at that point.
- WorkerSafety.EveryRunSound: start-up rejections of the caller are not modelled as promises; only whether a start is in progress is.
- WorkerProcessClass.WorkerProcess.Handle: the order in which the requests of one generation are rejected is left open.
- JobQueueClass.JobQueue.Fail: error texts and time stamps that nothing reads are not stored.
- JobRuns.EveryRunSound: the owner part of a lease token is a structured value, not a text prefix.
- OwnershipSafety.OneLiveHolder: assumes that a process identity (number and birth) is never used twice, as the source does.
- OwnershipStoreClass.OwnershipStore.TakeRow: the preflight that refuses maintenance beside a live legacy daemon is part of the probe, not of this step.
- RecorderClass.Recorder.StorageFinalizerFinished: the settlement it queues is a later event of its own, `RecorderClass.Recorder.SettleDeferredSessionOutcome`.
- RecorderClass.Recorder.DrainStorageFinalizers: no finalizer can be registered during the modelled drain, because no frame is handled after the last close.
- RecorderClass.Recorder.HandleFrame: an exception from opening or writing a file ends the part or the run; which file operation threw is not modelled.
- RecordingProtocol.CrashAnywhereRecovers: later pipeline work is any change that keeps the recording rows and enqueues no first work for a session still being recorded, because its own steps are not modelled here.
- RecoveryStoreClass.Store.RecoverAfterCrash: orphaned temporary files, which touch no row, and the rendered report are not modelled.
- RetentionStoreClass.RetentionStore.PlanRetention: paths are compared as numbers, not by locale; job payloads and delivery identifiers are structured values, not JSON and text prefixes.
- RetentionSafety.DeletedOnce: assumes that no other transaction clears a deletion time; none in the repository does.
- DigestRoundTrip.BuiltDigestSurvivesIff: assumes that splitting an excerpt into graphemes again finds no more of them than it was joined from; grapheme counting and the test for canonical times are given functions.
- DigestStorage.ReadBackIff: which check refused a payload is not modelled, only that one did.
- SummaryCompletion.SummarizeChunks: what each chunk call comes to is given, with the clock before and after it.
- DeliveryRuns.MarkedMeansSent: what a chunk contains is not modelled; splitting is any number of chunks.
- SessionTiming.PartLengthBounded: is about contiguous frames of one duration; other clocks are covered by the grammar of the intents only.
