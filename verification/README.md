# CueLine: a verified model

CueLine is a crash-safe controller. A pure reducer rebuilds the state of a run from an
append-only event log; API functions append events while they hold the run's lease; and
every side effect (a send click, a process start, a terminal status file) is ordered around
those appends. The claims worth having are of the form "never twice" and "never
contradictory", and they have to hold for every crash point, every restart and every race.
This project states such claims over a model of the code and proves them.

## The modules

- `CallerWork` is the reducer for claimed caller work and what every log keeps.
  `CallerWorkWorld` adds the second durable store, the job status files, and everything
  that one atomic write may do to the two. `CallerWorkHome` holds the operations themselves
  as a class: sequences of reads and writes, with arbitrary actions of other processes before
  each access. A process that has lost the run lease can still write status files and anchors;
  its appends are refused. Crashes need no step of their own, because the class records every
  world it passes through and every one of them satisfies the invariant.
- `JobStatusStore` is the same status register at the finest grain, as a state machine of any
  number of writers whose records are real JSON values compared by their canonical text.
- `CanonicalJson` is the text under all identities, with a decoder and the order of keys.
- `ControllerEvidence`, `BoundedEvidence` and `ControllerObservation` cover what a controller
  sees of job output: the durable cap and its replay, the encoded budget, and paging.
- `WorkLease` is the executor-side lease as event-loop callbacks; `WorkLeaseStart` builds one
  from durable instants.
- `SendProtocol` weaves send clicks into the event history and proves that none is repeated.
- `ProcessDispatch` is the lane scheduler; which completion settles next, and how, is an input.
- `ConversationArchive` is the one-click settlement after completion.

Code that changes state step by step is a class or a method with a loop; each such method is
tied by its contract to the function or the history the lemmas are about. Instants are
milliseconds, text is UTF-16, and integers are checked against the safe-integer bound where
the code checks them.

`dafny verify dfyconfig.toml` checks the whole project.

## Where the code does not keep a promise

Five properties hold only under a condition. Each has that condition and a concrete input that
breaks the property.

- A review whose limit exceeds 2147483647 ms passes its writer, which anchors the job as
  ambiguous, and is then dropped by the reducer, so the log still says running. It takes effect
  if and only if the limit fits a timer. A lease always passes a limit that fits.
- A terminal `.json` written before anchors existed can be imported into the log without an
  anchor. The stores agree after an import if and only if the status came from an anchor.
- The scheduler counts a job of an earlier process as finished when the wait for it is answered
  with a persisted `running`. A start is isolated if and only if no wait was answered so, and
  that cannot happen if no job of another process runs when the dispatch begins. Any such job
  beside a new one breaks it, if one of them is work and the wait is answered first.
- The binary search for the longest evidence prefix misses it if and only if it stops in front of
  a surrogate pair that as a whole still fits. It never does in a text with no pair whose first
  half alone exceeds the budget while the whole fits, and so in no text without pairs.
- A lease measures its remaining times from the clock of the moment it is built, not from the
  instant they were computed for. The durable deadlines survive every restart, but the lease's own
  timers run past them by exactly the time in between, and stay within them if and only if the
  clock has not advanced.

## Assumptions

The run store appends one event and reduces it atomically, and refuses when the lease is gone.
Exclusive creation and replacement of a file are atomic. A job id is registered only when it is
new, and a caller run records only terminal `job_status` events; both follow from the code that
appends them. The browser adapter keeps the contract named in each module. A supervisor never
reports a started job as pending, and a completion of a job that this process started settles when
the job has ended. A timer fires once its instant has passed on the same clock. Clocks,
random ids, what other processes do and what the browser shows are parameters or open choices.

## Model

| member | source | states |
|---|---|---|
| `CallerWork.ReduceKeepsJobInvariant` | src/core/state-machine.ts:1656-1926 | every accepted caller-work event keeps the claim timeline (`expiresAt - heartbeatAt == ttlMs`, claimed <= started <= last progress <= heartbeat), the token bound and a duplicate-free evidence list |
| `CallerWork.ReachableInvariant` | src/core/state-machine.ts:369-384 | every state that any legal log reaches satisfies that timeline invariant, for every job |
| `CallerWork.OnlyProvenEventsTakeEffect` | src/core/state-machine.ts:1656-1913 | no event of a claim takes effect without the exact proof, the task, workdir and pinned identity, a window of the claim's length and an instant not before the last one, in the one status that allows it |
| `CallerWork.LogAdvances` | src/core/state-machine.ts:1688-1926 | over any legal continuation of a log a job only advances: a terminal status is absorbing, a started claim is neither released nor replaced, its evidence list only grows, its last progress never moves back |
| `CallerWork.OnlyNewEvidenceMovesTheProgressClock` | src/core/state-machine.ts:1750-1816 | over any continuation without new evidence for the claim, heartbeats and repeated progress leave its start and its last progress where they were |
| `CallerWork.SupersededProofIsFenced` | src/core/state-machine.ts:1656-1913 | once a claim has been released or replaced, no event with its proof changes the run in that state or any later one |
| `CallerWork.ClaimTokensCountUp` | src/core/state-machine.ts:1684-1706 | the claims of one job that replay accepts carry the tokens 1, 2, 3, ..., and the counter is their number |
| `CallerWork.AtMostOneStart` | src/core/state-machine.ts:1712-1776 | at most one start of a job takes effect over any log, and exactly when the job holds a started claim |
| `CallerWorkWorld.StepKeepsInvariant` | src/api-caller-work.ts:309-331 | one atomic durable write, by whichever process, keeps the agreement of the two stores, declared success, one declared result per claim, one job per key, the dedup index and the reducer invariant, and leads to a later world |
| `CallerWorkWorld.RunKeepsInvariant` | src/api-caller-work.ts:472-506 | every world of every run of such writes keeps all of that: any number of processes, any interleaving, any crash point |
| `CallerWorkWorld.TwoStoreAgreement` | src/api-controller-handoff.ts:2109-2199 | in every reachable crash or step state a terminal status in the replayed log has a `.terminal` anchor with that same status |
| `CallerWorkWorld.SuccessIsNeverFabricated` | src/api-caller-work.ts:334-383 | a work job whose anchor or log says succeeded has a started claim and an earlier result intent for succeeded with exactly that claim's proof |
| `CallerWorkWorld.IndexIsHistory` | src/core/state-machine.ts:1777-1832 | a hash is in the claim's dedup list exactly when the log holds a progress event with it for that claim, and the list has no duplicates |
| `CallerWorkWorld.EffectAdvances` | src/core/state-machine.ts:1914-1926 | an event that took effect is never undone: the job has only advanced since |
| `CallerWorkWorld.ImportAgreesExactlyWhenAnchored` | src/api-runtime-lifecycle.ts:487-501 | importing a persisted terminal status keeps the stores in agreement if and only if the status read comes from an anchor |
| `CallerWorkWorld.LegacyFileBreaksAgreement` | src/api-runtime-lifecycle.ts:487-501 | a concrete home with a terminal status file from before anchors existed, on which the import breaks the agreement |
| `CallerWorkHome.ResultIntentStatus` | src/api-caller-work.ts:334-350 | returns a declared status of exactly this proof if the log holds any, and none only if it holds none |
| `CallerWorkHome.PriorProgress` | src/api-caller-work.ts:252-287 | finds the evidence exactly when the log holds a progress event with it for this claim, and returns the latest such event |
| `CallerWorkHome.HolderChecksAreExact` | src/api-caller-work.ts:54-128 | what the checks of a claim holder, of progress and of a review let through, and nothing else |
| `CallerWorkHome.ClaimChecksAreExact` | src/api-caller-work.ts:508-560 | whom and what a claim is granted for: caller id, ttl range, an active work job with an absolute workdir, no live claim of another caller |
| `CallerWorkHome.ResultChecksAreExact` | src/api-controller-handoff.ts:1997-2034 | a result is for a job of a caller run, terminal, and does not end before it starts; nothing else is refused on sight |
| `CallerWorkHome.StartEffect` | src/api-caller-work.ts:588-658 | the start event a writer builds after its checks is accepted, with exactly the stated new job |
| `CallerWorkHome.HeartbeatEffect` | src/api-caller-work.ts:660-710 | the heartbeat a writer builds after its checks is accepted and moves neither start nor progress |
| `CallerWorkHome.ProgressEffect` | src/api-caller-work.ts:712-782 | the progress event of new evidence is accepted and changes the job |
| `CallerWorkHome.ReviewTakesEffectExactlyWithinTimerRange` | src/core/state-machine.ts:1883-1895 | a review that passed its writer's checks takes effect if and only if its limit is at most 2147483647 ms |
| `CallerWorkHome.LongReviewIsDropped` | src/api-caller-work.ts:784-836 | a concrete legal log and a review of its started claim that the writer accepts and the reducer drops |
| `CallerWorkHome.Home.StatusWrite` | src/jobs/status.ts:199-245 | under arbitrary interference: a terminal write reported written is the anchor, a conflict means a different anchor, a non-terminal write reported written found no anchor; when nobody else acts it leaves exactly its record in the status file; it is invalid exactly when it ends before it starts or is not terminal and ended |
| `CallerWorkHome.Home.RestoreTerminalEvidence` | src/api-caller-work.ts:352-384 | a persisted terminal status is imported only if it is the anchor, and then the log says the same; when nobody else acts, an anchored one is imported exactly when it carries the identity of the job and is succeeded or ambiguous |
| `CallerWorkHome.Home.PersistStartedClaimAmbiguous` | src/api-caller-work.ts:309-331 | an expired started claim ends with an ambiguous anchor, written before the event that relies on it and fit to be restored for that claim, or with the terminal status that was already anchored |
| `CallerWorkHome.Home.ReleaseUnstartedClaim` | src/api-caller-work.ts:385-402 | the release takes effect and leaves the job without a claim and otherwise unchanged |
| `CallerWorkHome.Home.AssertClaimNotExpired` | src/api-caller-work.ts:404-423 | when it passes nothing has happened and the clock lies in the claim's window; an expired claim is released before its start, and makes the job ambiguous after it, in both stores |
| `CallerWorkHome.Home.ClaimJob` | src/api-caller-work.ts:508-586 | a refused claim changes nothing; a new claim carries the next token, the task hash, the workdir and the observed identity, and took effect as the job's claim while the token is a safe integer; an expired or unpinned unstarted claim was released first, with that reason; what an undisturbed claim comes to is determined for every job |
| `CallerWorkHome.Home.StartJob` | src/api-caller-work.ts:588-658 | a recorded start took effect at the given instant on the exact proof and workdir identity, and undisturbed the status file shows the job running; an already started claim is reported with its durable start and progress; undisturbed, a live claim starts if and only if the identity fits |
| `CallerWorkHome.Home.HeartbeatJob` | src/api-caller-work.ts:660-710 | the heartbeat took effect, and the returned heartbeat and expiry are those of the new state; a refusal changes nothing, an undisturbed live claim is never refused, and its status file keeps its progress |
| `CallerWorkHome.Home.FindPriorProgress` | src/api-caller-work.ts:252-287 | the history scan finds what the dedup list holds, and while the lease is held nothing else |
| `CallerWorkHome.Home.RecordProgress` | src/api-caller-work.ts:712-782 | evidence is recorded once per claim; a repetition is answered as already recorded and leaves the state unchanged; undisturbed, the status file shows the new progress |
| `CallerWorkHome.Home.RequireReview` | src/api-caller-work.ts:784-836 | the ambiguous anchor precedes the review event; a review within the timer range, or one that found a terminal job, leaves the job terminal in the log; the review of a live started claim succeeds when nobody else acts, the job is not settled and its status file does not start later than now |
| `CallerWorkHome.Home.ReleaseJob` | src/api-caller-work.ts:838-880 | undisturbed, a live claim is released if and only if it has not started, and the release took effect |
| `CallerWorkHome.Home.ReconcileExpired` | src/api-caller-work.ts:882-912 | afterwards no active work job holds an expired claim, every other job is untouched, and the number returned is that of the expired claims |
| `CallerWorkHome.Home.ValidateResultClaim` | src/api-caller-work.ts:914-943 | when it passes nothing has happened, the proof is exact, and an active job has a started running claim |
| `CallerWorkHome.Home.FreeJob` | src/api-caller-work.ts:524-554 | an expired or unpinned unstarted claim is released with its reason, and an expired started one leaves the job ambiguous in both stores |
| `CallerWorkHome.Home.CommitResult` | src/api-controller-handoff.ts:2109-2199 | intent, anchor, log: the result reported is the anchored one, for work its holder declared that status with the exact proof, and its import took effect |
| `CallerWorkHome.Home.SubmitResult` | src/api-controller-handoff.ts:1997-2203 | a submission reported as submitted is anchored and the log gains exactly the declared intent unless there was one, the submission events unless recorded, and the anchored status; the anchored record names the run and the job; for work the claim was started and carried the exact proof; when nobody else acts and nothing is settled, a valid result of a live claim without another declared intent is submitted, and the anchored status is the submitted one, or ambiguous exactly for work that did not succeed, with the submitted text, error and instants; one whose intent and anchor are durable is completed even after its claim ran out |
| `CallerWorkHome.Home.SubmitThenRecover` | src/api-caller-work.ts:352-384 | whenever an undisturbed work submission crashes behind its anchor, restoring the terminal evidence in a new process succeeds, and the log then says succeeded for a submitted success and ambiguous for anything else |
| `CallerWorkHome.Home.PersistOwnerlessTerminal` | src/api-runtime-lifecycle.ts:503-534 | on success the anchor carries the cancelled or ambiguous status |
| `CallerWorkHome.Home.CheckWorkResult` | src/api-controller-handoff.ts:2058-2105 | a work result passes only with a started claim of the exact proof, and its declared intent is for that very status; a live started claim without another declared intent always passes |
| `CallerWorkHome.Home.SettleCancelled` | src/api-runtime-lifecycle.ts:705-734 | a pending job is cancelled, a running one ambiguous, each with its reason in anchor and log; a terminal status that was already anchored wins; no other job changes |
| `CallerWorkHome.Home.CancelRun` | src/api-runtime-lifecycle.ts:611-741 | on success every job of the caller run is terminal, and those that were have not changed |
| `CallerWorkHome.Home.CancelJob` | src/api-runtime-lifecycle.ts:743-860 | on success the job is terminal; when nobody else acts, the outcome for an active job is determined by the anchor, the status file and the job's status |
| `CallerWorkHome.Home.RegisterJob` | src/core/controller-command-execution.ts:181-219 | a job is registered exactly when its id is not known yet, and a pending one is taken up again on resume; either then has a persisted status, undisturbed a pending one of the job; a key held by another job is refused without a change; no registered job changes |
| `JobStatusStore.ActKeepsInvariant` | src/jobs/status.ts:199-262 | each access of each writer keeps what every other writer has learned, and never changes an existing anchor or a terminal status that a read would return |
| `JobStatusStore.FirstTerminalWins` | src/jobs/status.ts:247-262 | for any number of interleaved and crashing writers the anchor never changes once created and is always terminal, and a terminal status read once is what every later read returns, with or without a legacy file |
| `JobStatusStore.TerminalWriteSucceedsExactlyWhenAnchored` | src/jobs/status.ts:203-233 | a terminal write that ended succeeded if and only if the anchor means the same; it conflicted if and only if it means something else; it never ends without an anchor |
| `JobStatusStore.AnchorIsObeyed` | src/jobs/status.ts:199-245 | a writer that reads an existing anchor restores it if its own status is not terminal, publishes it as a repetition, and conflicts otherwise |
| `JobStatusStore.DifferentTerminalWritesNeverBothSucceed` | src/jobs/status.ts:218-230 | two terminal writes with different evidence never both succeed |
| `JobStatusStore.NonTerminalWriteSawNoAnchor` | src/jobs/status.ts:235-245 | a non-terminal write that returned normally had a moment after its overwrite at which no anchor existed |
| `JobStatusStore.FileIsLastWritten` | src/jobs/status.ts:235-245 | while nothing is anchored the `.json` file is the initial one or the record of the writer that overwrote it last, under any interleaving and crashes |
| `JobStatusStore.NonTerminalWriteIsReadable` | src/jobs/status.ts:235-245 | once a non-terminal write returned normally the `.json` file exists, and while nothing is anchored a read returns the record of the last such write |
| `JobStatusStore.WriteAloneIsRead` | src/jobs/status.ts:199-245 | a write that runs alone is what a read returns afterwards, anchored exactly when its status is neither pending nor running, unless a terminal status was on file, which then stays and decides its outcome |
| `JobStatusStore.QuiescentFilesAgree` | src/jobs/status.ts:231-244 | once all writers have ended without a crash, an existing anchor is mirrored in the `.json` file |
| `JobStatusStore.CrashLeavesFilesApart` | src/jobs/status.ts:206-231 | a concrete crash that leaves the two files different, while reads stay right |
| `CanonicalJson.UnescapeEscaped` | src/core/ids.ts:4-6 | decoding an escaped string gives it back, lone surrogates, control characters and pairs included |
| `CanonicalJson.SortingKeepsMeaning` | src/core/ids.ts:50-54 | sorting the keys by UTF-16 units gives ascending keys and the same mapping |
| `CanonicalJson.ParseCanonical` | src/core/ids.ts:3-58 | a decoder reads the meaning of every value back from its canonical text, whatever follows it |
| `CanonicalJson.SameTextExactlyWhenSameMeaning` | src/core/ids.ts:60-62 | two values have the same canonical text if and only if they differ at most in the order of object keys |
| `ControllerEvidence.MarkerOfIsExact` | src/core/controller-evidence.ts:32-34 | what the replay pattern matches is a marker and nothing before or after it |
| `ControllerEvidence.FindsLastMarker` | src/core/controller-evidence.ts:32-34 | in a text that ends in a marker the leftmost match is that marker, whatever precedes it |
| `ControllerEvidence.ReplayOfCapped` | src/core/controller-evidence.ts:10-52 | capping keeps the text or its first `maximum` characters and reports the true total and what it left out; evidence that was capped replays to exactly itself, even when it contains forged markers |
| `ControllerEvidence.ReplayIsStable` | src/core/controller-evidence.ts:25-52 | replaying the result of a replay changes nothing, for every stored text and declared total |
| `ControllerEvidence.ReplayAcceptsOnlyItsOwnMarker` | src/core/controller-evidence.ts:35-52 | a text is accepted beyond the cap only if it is the first `maximum` characters and a marker for the declared total |
| `BoundedEvidence.EncodedConcat` | src/core/controller-turn.ts:52-56 | the encoded length of a concatenation is the sum, unless the cut splits a surrogate pair |
| `BoundedEvidence.HtmlSafeEscapesMarkup` | src/core/controller-turn.ts:47-56 | encoded text contains none of the characters < > &, and text without them is encoded as JSON escapes it |
| `BoundedEvidence.CostGrows` | src/core/controller-turn.ts:67-83 | a prefix with its shrinking marker never costs less than one that ends earlier between characters |
| `BoundedEvidence.SearchFindsAnEdge` | src/core/controller-turn.ts:67-83 | the binary search ends at a prefix that fits and whose successor does not, however the costs go up and down |
| `BoundedEvidence.TakeConserves` | src/core/controller-turn.ts:47-91 | the budget pays for what is served, never runs below zero, and every offered character is included or counted as omitted |
| `BoundedEvidence.TakeServesAnEdge` | src/core/controller-turn.ts:61-91 | all of a text is served, or a proper prefix with its marker behind which one more character does not fit, or nothing because not even the marker fits |
| `BoundedEvidence.LongestIsServedExactlyOutsidePairs` | src/core/controller-turn.ts:67-83 | the longest prefix that fits is served if and only if the search does not stop in front of a surrogate pair that as a whole still fits |
| `BoundedEvidence.LongestIsServedWithoutHiddenPair` | src/core/controller-turn.ts:67-83 | the longest prefix is served whenever the text has no pair whose first half alone exceeds the budget while the whole pair fits |
| `BoundedEvidence.PlainTextHidesNoPair` | src/core/controller-turn.ts:67-83 | a text without surrogate pairs is served to the longest prefix at every budget |
| `BoundedEvidence.LongestPrefixCanBeMissed` | src/core/controller-turn.ts:67-83 | a concrete text with a surrogate pair and a budget for which the search serves a shorter prefix than would fit |
| `BoundedEvidence.SearchPrefix` | src/core/controller-turn.ts:67-83 | the loop computes the search that those lemmas are about |
| `BoundedEvidence.EvidenceBudget.TakeBoundedEvidence` | src/core/controller-turn.ts:47-91 | updates the shared budget exactly as the function that those lemmas are about |
| `ControllerObservation.ContentHashIdentifies` | src/core/controller-turn.ts:113-117 | unless their two canonical texts collide under the digest, two pieces of evidence have equal content hashes exactly when they are the same field and text |
| `ControllerObservation.AllocateConserves` | src/core/controller-turn.ts:267-346 | over all jobs and both fields, in any order, the budget left is the budget minus the encoded size served, and included plus omitted equals offered |
| `ControllerObservation.InspectedComesFirst` | src/core/controller-turn.ts:257-268 | the one inspected job is allocated first |
| `ControllerObservation.AllocationIsOrdered` | src/core/controller-turn.ts:257-266 | the allocation order is a permutation of the jobs; inspected jobs come first, among equals those that did not succeed, then required ones, then by id |
| `ControllerObservation.ObservationFor` | src/core/controller-turn.ts:233-347 | the total encoded evidence is at most 12000 and every offered character is accounted for; with distinct ids every job is there with excerpts of its two fields, its window on the output of a success and the error of anything else unless only the other field exists, at the offset asked for unless the hash is of other evidence; the first job gets the whole of its own kind of evidence if that fits, and a job asked for by its cursor gets exactly the page behind it |
| `ControllerObservation.ObservationServesThePage` | src/core/controller-turn.ts:257-346 | following a cursor, the inspected job's entry of the observation is its page out of the full budget, whatever other jobs there are |
| `ControllerObservation.CursorIsAccepted` | src/core/controller-command-execution.ts:69-91 | the command that copies an emitted cursor and hash is accepted, and the reducer turns it into exactly the page behind that window |
| `ControllerObservation.CursorIsFencedByItsEvidence` | src/core/controller-command-execution.ts:69-91 | unless the two texts collide under the digest, a cursor is accepted if and only if the job still prefers exactly the evidence it was emitted for |
| `ControllerObservation.FullBudgetMakesProgress` | src/core/controller-turn.ts:67-91 | with the full budget at least one character of a non-empty text is served |
| `ControllerObservation.PageIsItsWindow` | src/core/controller-turn.ts:47-91 | the text of a page is the raw characters of its window, followed by the marker for the rest exactly when the evidence goes on |
| `ControllerObservation.PagingIsComplete` | src/core/controller-turn.ts:321-337 | the served pages tile the rest of the evidence without gap or overlap, every one but the last makes progress, the last has no cursor, and the raw characters read off their served texts concatenate to exactly that rest |
| `ControllerObservation.AnyCursorLeadsToTheEnd` | src/core/controller-turn.ts:321-337 | whatever an observation served of a job, the pages behind its cursor tile the remainder, and their texts read off as exactly it |
| `WorkLease.Lease.QueueMutation` | src/api-caller-work-lease.ts:250-272 | a mutation is chained exactly when the lease is active |
| `WorkLease.Lease.Fail` | src/api-caller-work-lease.ts:331-340 | the first failure is latched and the abort waits for the whole chain |
| `WorkLease.Lease.RequireReview` | src/api-caller-work-lease.ts:342-367 | a stall or overrun chains its durable review and the abort behind it |
| `WorkLease.Lease.OnRecordProgress` | src/api-caller-work-lease.ts:200-225 | progress is queued exactly when the lease is active before its deadline; a late one asks for review instead |
| `WorkLease.Lease.OnProgressCallback` | src/api-caller-work-lease.ts:225-240 | only new evidence moves the local deadline; a passed deadline asks for review, and otherwise the progress timer is armed again |
| `WorkLease.Lease.OnStop` | src/api-caller-work-lease.ts:242-248 | after stop no mutation is accepted and the latched failure stays |
| `WorkLease.Lease.Handle` | src/api-caller-work-lease.ts:135-165 | what each timer, caller request, external abort, stop and task completion does to the lease, in every state |
| `WorkLease.Lease.Run` | src/api-caller-work-lease.ts:189-371 | for any interleaving of timers, callers, aborts and task completions: the first failure stays, the lease never becomes active again, while it is active a stall is watched, a stop, an abort or a due execution timer ends it, and when the signal has aborted every chained task has settled, the review of a stall or overrun included, and nothing begins later |
| `WorkLeaseStart.AssertDeadlineAvailable` | src/api-caller-work-lease.ts:433-484 | passes exactly when neither durable deadline is reached, and otherwise reports the earlier one after the job is terminal in the log; undisturbed, the log holds the review with the reason and limit of that deadline |
| `WorkLeaseStart.StartLease` | src/api-caller-work-lease.ts:378-508 | starts exactly with valid limits; the remaining times are those of the durable start and the durable last new progress; an already started claim was renewed first; the lease's own two deadlines are later than the durable ones by exactly what its clock is ahead of the last observed instant, so they do not exceed them if and only if it is not ahead; an undisturbed first start succeeds |
| `WorkLeaseStart.DeadlinesSurviveRuns` | src/api-caller-work-lease.ts:412-432 | between any two worlds of any run, whatever crashed and restarted, the durable start of a started claim does not move, its last progress never moves back, and without new evidence it does not move at all |
| `WorkLeaseStart.LateLeaseOutlivesItsDeadlines` | src/api-caller-work-lease.ts:120-172 | a concrete first start whose lease is built one millisecond late and outlives both durable deadlines |
| `SendProtocol.AppendKeepsInvariant` | src/core/state-machine.ts:756-817 | no appended event opens a click, and the state after it still tells which clicks may wait for a response |
| `SendProtocol.ClickKeepsInvariant` | src/core/controller-turn.ts:657-757 | a click behind a durable submission checkpoint, while nothing waits, keeps the no-resend history |
| `SendProtocol.ProvenUnsentMeansNoClick` | src/core/state-machine.ts:495-505 | a turn judged proven unsent has had no click since its last request event, and every earlier click is answered |
| `SendProtocol.AppendKeepsRounds` | src/core/state-machine.ts:1326-1345 | every permitted event keeps the accepted rounds 1, 2, 3, ... and the round of the state right behind them |
| `SendProtocol.AbandonedRoundIsTakenAgain` | src/core/controller-loop.ts:895-952 | the first request behind an abandoned proven-unsent turn carries the round of that turn, whatever crashed in between: a crash before a send costs no round |
| `SendProtocol.Process.SendTurn` | src/core/controller-turn.ts:657-757 | adds exactly the adapter's checkpoints and its one permitted click, for any adapter that keeps the write-ahead contract; afterwards at most this request's click may wait for a response |
| `SendProtocol.Process.TakeResponse` | src/core/controller-turn.ts:759-834 | a response that is accepted or rejected as a command has been recorded, so nothing waits any more |
| `SendProtocol.Process.RequestControllerCommand` | src/core/controller-turn.ts:496-840 | adds exactly the requests, sends and responses of its attempts; a repair sends only after the rejected response is recorded, and a returned command leaves every click answered |
| `SendProtocol.Process.Reconcile` | src/core/controller-loop.ts:881-952 | a turn proven unsent is abandoned with its round given back; any other turn is only observed, and whatever follows waits for its response |
| `SendProtocol.Process.Continue` | src/core/controller-loop.ts:2105-2444 | one life of a process from any prefix an earlier one left: what it appends is exactly determined by what the environment answered, each send click happens only when every earlier click has a recorded response, the rounds of accepted commands are 1, 2, 3, ... without gaps, and an ended run is not touched |
| `ProcessDispatch.IsolatedExactlyWithoutLostJobs` | src/core/controller-command-execution.ts:288-324 | a start is next to nothing but active jobs, and alone under limit one, if and only if no wait has been answered with a job that still runs; without a job of an earlier process running at the begin it always is |
| `ProcessDispatch.InheritedWaitBreaksIsolation` | src/core/controller-command-execution.ts:288-360 | for any two jobs one of which is work: while the first runs for an earlier process, a dispatch of the second starts it beside the first under limit one, if the wait for the first is answered with its persisted running |
| `ProcessDispatch.TwoWorkJobsRunTogether` | src/core/controller-command-execution.ts:288-360 | a concrete dispatch that starts a work job while another one runs |
| `ProcessDispatch.LanesMakeUpTheDispatch` | src/core/controller-command-execution.ts:325-360 | specs handed over lane by lane in order are the dispatched specs, each exactly once |
| `ProcessDispatch.EndedJobsMaySettle` | src/jobs/supervisor.ts:87-98 | a job that has ended can always settle, however it is waited for |
| `ProcessDispatch.Dispatcher.Register` | src/core/controller-command-execution.ts:181-219 | a job comes back to be started exactly if it is new, or pending on resume |
| `ProcessDispatch.Dispatcher.StartDispatched` | src/core/controller-command-execution.ts:221-280 | the log says running before the supervisor is called, no id is started twice, the start is within both limits, and an interrupted dispatch starts nothing |
| `ProcessDispatch.Dispatcher.StartReady` | src/core/controller-command-execution.ts:326-360 | a pass starts what the limits allow in lane order; with nothing active it starts something unless a limit is below one |
| `ProcessDispatch.Dispatcher.SettleOne` | src/core/controller-command-execution.ts:378-411 | records the reported status of that job alone, leaves the lane counts equal to the true counts and the tracking of running jobs exact, and uses up waiting |
| `ProcessDispatch.Dispatcher.LetOneSettle` | src/jobs/supervisor.ts:87-98 | the next settlement of the environment that can happen does, a wait for a job that this process started only with a terminal status; without one the process is not woken again |
| `ProcessDispatch.Dispatcher.ExecuteProcessDispatch` | src/core/controller-command-execution.ts:282-412 | the loop ends; if any spec or any running job is work every start happens with nothing active, else below the configured concurrency, and within the limit of its lane; whatever else runs was lost to a wait for a job of an earlier process that was answered as running, so every start is isolated if no such job ran at the begin; when it completes the queue is empty in lane order, every spec has a job, only duplicates are still pending, and of the started jobs only background advices still run; it deadlocks only under a limit below one and stops early only when interrupted or on a key conflict; after any crash no id has been started twice, and none before the log said so |
| `ProcessDispatch.Dispatcher.HandedOverOnce` | src/core/controller-command-execution.ts:325-345 | with an empty queue every spec was handed over exactly once, and each lane's in order |
| `ConversationArchive.StepKeepsInvariant` | src/core/state-machine.ts:1999-2069 | each append or click keeps clicks at most the accepted checkpoints, which are one exactly after the start, and settlement never goes back |
| `ConversationArchive.StepIsSound` | src/core/state-machine.ts:1999-2069 | completion opens the settlement and is never taken back, the first exact URL pins the conversation for good, and the archive is done only on proof that the conversation has left the list |
| `ConversationArchive.AtMostOneClick` | src/core/controller-conversation-archive.ts:76-175 | over any run of any number of processes there is at most one Archive click, and none before the durable start |
| `ConversationArchive.Settler.Checkpoint` | src/core/controller-conversation-archive.ts:121-133 | the hook returns only if its started event was accepted, which gives its caller the one permission to click |
| `ConversationArchive.Settler.ArchiveConversation` | src/core/controller-conversation-archive.ts:113-135 | an adapter that clicks once and only after its hook never clicks without such a permission |
| `ConversationArchive.Settler.RecordEvidence` | src/core/controller-conversation-archive.ts:136-166 | evidence without a checkpoint becomes ambiguous; a started archive becomes archived exactly on proof and ambiguous otherwise |
| `ConversationArchive.Settler.Settle` | src/core/controller-conversation-archive.ts:76-175 | a process that finds the archive started does not click and makes it ambiguous; one that keeps its lease settles the archive exactly as its one adapter call went |

## Left out

- Evidence-based and operator recoveries of a controller turn (not sent, misdirected, delivery timeout, response retry, reauthorization, rotation, rejected attachment revalidation): separate entry points whose soundness rests on the page; the no-resend result is about runs without them.
- A stale controller process that is still alive and clicks after a takeover: the no-resend result is about processes that end before the next one starts.
- Stagnation accounting, conversation pinning, prompt text and repair prompts.
- Notices of an observation and their own budget, which use the same bounded take.
- Workdir resolution and identity checks on the file system: identities are compared values.
- ISO timestamps and their parsing: instants are integers.
- Snapshots, run failure and cancellation events of a caller run, and the output texts a `job_status` event carries, and the notice of a duplicate dispatch: only the status and the error text of a job are replayed.
- Ownerless repair, process reconciliation and `settleCancelledJobs`: they append terminal statuses without an anchor and lie outside the two-store agreement.
- Unreadable or corrupt status files, and the backfill of the `cancelled` field of old records: records are taken as they are read.
- Values canonicalJson rejects (cycles, sparse arrays, non-plain objects, undefined, non-finite numbers), and SHA-256 itself: the digest is a parameter.
- The commands wait, inspect of running jobs, complete and blocked beyond what they do to a pending turn.
- CursorIsAccepted: needs an offset of at most 1000000000, the bound the command parser enforces; evidence beyond it cannot be paged.
- CancelJob: models the caller executor only.
- CancelRun: models the caller executor only, without the `run_cancelled` event appended behind the last job.
- `RunStore`, `RuntimeLease`, `atomic-write`, `parse-command` and `JobSupervisor` are not part of this model beyond the contracts above.
