/**
 * The caller-work branches of the run reducer, and what every event log keeps:
 * terminal statuses are absorbing, claims carry tokens 1, 2, 3, ..., at most one
 * start takes effect, and a started claim is never released or replaced.
 *
 * Instants are milliseconds.  A job specification is carried with its hash.
 */
module CallerWork {
  import opened Common

  // ---------------------------------------------------------------- data model

  datatype Status = Pending | Running | Succeeded | Failed | TimedOut | Cancelled | Ambiguous {
    predicate Terminal() { !Pending? && !Running? }
  }

  datatype Executor = Caller | Process

  datatype Mode = Advise | Work

  // The directory a claim is pinned to: resolved path, device and inode.
  datatype WorkdirIdentity = WorkdirIdentity(resolvedPath: string, device: string, inode: string)

  datatype Spec = Spec(mode: Mode, lane: string, workdir: Option<string>, hash: string)

  datatype ProgressKind = ToolCompleted | CheckpointPersisted | VerificationCompleted

  datatype ReviewReason = ProgressStalled | MaxExecutionElapsed

  datatype ReleaseReason = ExpiredBeforeStart | IdentityUpgradeBeforeStart | CallerReleasedBeforeStart

  // An error text: one of the texts the source composes, or one it was given.
  datatype Message =
    | ExpiredAfterStart
    | CancelledBeforeEvidence
    | CancelledWithoutRuntime
    | Given(text: string)

  // What a caller shows to prove that it holds a claim.
  datatype ClaimProof = ClaimProof(claimId: string, callerId: string, fencingToken: int)

  datatype Claim = Claim(
    claimId: string,
    callerId: string,
    fencingToken: int,
    taskHash: string,
    workdir: string,
    identity: Option<WorkdirIdentity>,
    claimedAt: int,
    heartbeatAt: int,
    expiresAt: int,
    ttlMs: int,
    startedAt: Option<int>,
    lastProgressAt: Option<int>,
    lastProgressKind: Option<ProgressKind>,
    lastProgressHash: Option<string>,
    progressHashes: Option<seq<string>>)
  {
    function Proof(): ClaimProof {
      ClaimProof(claimId, callerId, fencingToken)
    }

    function Hashes(): seq<string> {
      if progressHashes.Some? then progressHashes.value else []
    }
  }

  datatype Job = Job(
    jobKey: string,
    spec: Spec,
    status: Status,
    error: Option<Message>,
    claim: Option<Claim>,
    nextFencingToken: int)

  datatype RunState = RunState(executor: Executor, jobs: map<string, Job>)

  datatype Event =
    | JobRegistered(jobId: string, job: Job)
    | Claimed(jobId: string, claim: Claim)
    | Started(jobId: string, proof: ClaimProof, taskHash: string, workdir: string,
              identity: Option<WorkdirIdentity>, startedAt: int, expiresAt: int)
    | Heartbeat(jobId: string, proof: ClaimProof, heartbeatAt: int, expiresAt: int)
    | Progress(jobId: string, proof: ClaimProof, progressAt: int, kind: ProgressKind,
               hash: string, expiresAt: int)
    | Released(jobId: string, proof: ClaimProof, released: ReleaseReason, releasedAt: int)
    | BecameAmbiguous(jobId: string, proof: ClaimProof, message: Message, detectedAt: int)
    | ReviewRequired(jobId: string, proof: ClaimProof, reviewReason: ReviewReason, reason: string,
                     limitMs: int, requestedAt: int, lastProgressAt: int)
    | JobStatus(jobId: string, status: Status, evidence: Option<Message>)
    | ResultIntent(jobId: string, status: Status, proof: ClaimProof)
    | ResultSubmitted(jobId: string, status: Status)
    | WorkResultSubmitted(jobId: string, status: Status, proof: ClaimProof)

  // ------------------------------------------------------------- payload checks

  const MIN_CLAIM_TTL_MS := 1_000
  const MAX_CLAIM_TTL_MS := 86_400_000
  const MAX_TIMER_DELAY_MS := 2_147_483_647
  const MAX_REASON_CHARS := 1_024
  const MAX_CALLER_ID_CHARS := 256

  predicate IsWhitespace(c: char) {
    c in "\t\n\U{000B}\U{000C}\r \U{00A0}\U{1680}\U{2028}\U{2029}\U{202F}\U{205F}\U{3000}\U{FEFF}"
    || '\U{2000}' <= c <= '\U{200A}'
  }

  predicate IsBlank(s: string) {
    forall i :: 0 <= i < |s| ==> IsWhitespace(s[i])
  }

  predicate ValidCallerId(s: string) {
    !IsBlank(s) && |s| <= MAX_CALLER_ID_CHARS &&
    forall i :: 0 <= i < |s| ==> '\U{0020}' <= s[i] && s[i] != '\U{007F}'
  }

  predicate IsHexOfAnyCase(c: char) {
    IsHexDigit(c) || 'A' <= c <= 'F'
  }

  // "claim_" and a version 1 to 5 UUID, letters of either case.
  predicate ValidClaimId(s: string) {
    |s| == 42 && s[..6] == "claim_" &&
    (forall i :: 6 <= i < 42 ==>
      if i == 14 || i == 19 || i == 24 || i == 29 then s[i] == '-' else IsHexOfAnyCase(s[i])) &&
    '1' <= s[20] <= '5' && s[25] in "89abAB"
  }

  predicate ValidTtl(ttlMs: int) {
    MIN_CLAIM_TTL_MS <= ttlMs <= MAX_CLAIM_TTL_MS
  }

  predicate ValidClaimWindow(heartbeatAt: int, expiresAt: int, ttlMs: int) {
    ValidTtl(ttlMs) && expiresAt - heartbeatAt == ttlMs
  }

  predicate ValidReason(reason: string) {
    !IsBlank(reason) && |reason| <= MAX_REASON_CHARS
  }

  // ------------------------------------------------------------------- reducer

  predicate HoldsClaim(job: Job, proof: ClaimProof) {
    job.claim.Some? && job.claim.value.Proof() == proof && SafeInteger(proof.fencingToken)
  }

  predicate Active(job: Job) {
    job.status.Pending? || job.status.Running?
  }

  function ReduceClaimed(executor: Executor, job: Job, claim: Claim): Job {
    if
      && executor.Caller?
      && job.spec.mode.Work?
      && job.status.Pending?
      && job.claim.None?
      && ValidClaimId(claim.claimId)
      && ValidCallerId(claim.callerId)
      && claim.taskHash == job.spec.hash
      && job.spec.workdir == Some(claim.workdir)
      && SafeInteger(claim.fencingToken)
      && claim.fencingToken == job.nextFencingToken + 1
      && claim.heartbeatAt == claim.claimedAt
      && ValidClaimWindow(claim.heartbeatAt, claim.expiresAt, claim.ttlMs)
      && claim.startedAt.None?
      && claim.lastProgressAt.None?
      && claim.lastProgressKind.None?
      && claim.lastProgressHash.None?
      && claim.progressHashes.None?
    then job.(claim := Some(claim), nextFencingToken := claim.fencingToken)
    else job
  }

  function ReduceStarted(job: Job, e: Event): Job
    requires e.Started?
  {
    if
      && HoldsClaim(job, e.proof)
      && job.status.Pending?
      && var claim := job.claim.value;
      && claim.startedAt.None?
      && e.taskHash == claim.taskHash
      && e.workdir == claim.workdir
      && (claim.identity.Some? ==> e.identity == claim.identity)
      && ValidClaimWindow(e.startedAt, e.expiresAt, claim.ttlMs)
      && claim.heartbeatAt <= e.startedAt
    then
      var claim := job.claim.value;
      job.(status := Running,
           claim := Some(claim.(heartbeatAt := e.startedAt, expiresAt := e.expiresAt,
                                startedAt := Some(e.startedAt),
                                lastProgressAt := Some(e.startedAt),
                                progressHashes := Some(claim.Hashes()))))
    else job
  }

  function ReduceHeartbeat(job: Job, e: Event): Job
    requires e.Heartbeat?
  {
    if
      && HoldsClaim(job, e.proof)
      && Active(job)
      && ValidClaimWindow(e.heartbeatAt, e.expiresAt, job.claim.value.ttlMs)
      && job.claim.value.heartbeatAt <= e.heartbeatAt
    then
      job.(claim := Some(job.claim.value.(heartbeatAt := e.heartbeatAt, expiresAt := e.expiresAt)))
    else job
  }

  function ReduceProgress(job: Job, e: Event): Job
    requires e.Progress?
  {
    if
      && HoldsClaim(job, e.proof)
      && job.status.Running?
      && var claim := job.claim.value;
      && claim.startedAt.Some?
      && IsSha256(e.hash)
      && e.hash !in claim.Hashes()
      && ValidClaimWindow(e.progressAt, e.expiresAt, claim.ttlMs)
      && claim.heartbeatAt <= e.progressAt
      && (claim.lastProgressAt.Some? ==> claim.lastProgressAt.value <= e.progressAt)
    then
      var claim := job.claim.value;
      job.(claim := Some(claim.(heartbeatAt := e.progressAt, expiresAt := e.expiresAt,
                                lastProgressAt := Some(e.progressAt),
                                lastProgressKind := Some(e.kind),
                                lastProgressHash := Some(e.hash),
                                progressHashes := Some(claim.Hashes() + [e.hash]))))
    else job
  }

  function ReduceReleased(job: Job, e: Event): Job
    requires e.Released?
  {
    if HoldsClaim(job, e.proof) && job.status.Pending? && job.claim.value.startedAt.None?
    then job.(claim := None)
    else job
  }

  // The progress instant a review must quote: the last progress, else the start.
  function ReviewAnchor(claim: Claim): int
    requires claim.startedAt.Some?
  {
    if claim.lastProgressAt.Some? then claim.lastProgressAt.value else claim.startedAt.value
  }

  predicate StartedAndRunning(job: Job, proof: ClaimProof) {
    HoldsClaim(job, proof) && job.status.Running? && job.claim.value.startedAt.Some?
  }

  function ReduceBecameAmbiguous(job: Job, e: Event): Job
    requires e.BecameAmbiguous?
  {
    if StartedAndRunning(job, e.proof)
    then job.(status := Ambiguous, error := Some(e.message))
    else job
  }

  function ReduceReviewRequired(job: Job, e: Event): Job
    requires e.ReviewRequired?
  {
    if
      && StartedAndRunning(job, e.proof)
      && ValidReason(e.reason)
      && 1 <= e.limitMs <= MAX_TIMER_DELAY_MS
      && job.claim.value.heartbeatAt <= e.requestedAt
      && e.lastProgressAt == ReviewAnchor(job.claim.value)
    then job.(status := Ambiguous, error := Some(Given(e.reason)))
    else job
  }

  function ReduceJobStatus(job: Job, e: Event): Job
    requires e.JobStatus?
  {
    if job.status.Terminal() && e.status != job.status
    then job
    else job.(status := e.status, error := if e.evidence.Some? then e.evidence else job.error)
  }

  function ReduceJob(executor: Executor, job: Job, e: Event): Job {
    match e
    case JobRegistered(_, registered) => registered
    case Claimed(_, claim) => ReduceClaimed(executor, job, claim)
    case Started(_, _, _, _, _, _, _) => ReduceStarted(job, e)
    case Heartbeat(_, _, _, _) => ReduceHeartbeat(job, e)
    case Progress(_, _, _, _, _, _) => ReduceProgress(job, e)
    case Released(_, _, _, _) => ReduceReleased(job, e)
    case BecameAmbiguous(_, _, _, _) => ReduceBecameAmbiguous(job, e)
    case ReviewRequired(_, _, _, _, _, _, _) => ReduceReviewRequired(job, e)
    case JobStatus(_, _, _) => ReduceJobStatus(job, e)
    case ResultIntent(_, _, _) => job
    case ResultSubmitted(_, _) => job
    case WorkResultSubmitted(_, _, _) => job
  }

  function Reduce(s: RunState, e: Event): RunState {
    if e.JobRegistered? then s.(jobs := s.jobs[e.jobId := e.job])
    else if e.jobId in s.jobs then
      s.(jobs := s.jobs[e.jobId := ReduceJob(s.executor, s.jobs[e.jobId], e)])
    else s
  }

  function Replay(s: RunState, log: seq<Event>): RunState {
    if log == [] then s else Reduce(Replay(s, log[..|log| - 1]), log[|log| - 1])
  }

  lemma ReplayOne(s: RunState, log: seq<Event>, e: Event)
    ensures Replay(s, log + [e]) == Reduce(Replay(s, log), e)
  {
    assert (log + [e])[..|log|] == log;
  }

  // -------------------------------------------------------------- legal events

  // A job as registerDispatchedJob writes it.
  predicate FreshJob(job: Job) {
    job.status.Pending? && job.claim.None? && job.nextFencingToken == 0
  }

  // Ids are registered once, and a caller run records only terminal statuses.
  predicate Legal(s: RunState, e: Event) {
    && (e.JobRegistered? ==> e.jobId !in s.jobs && FreshJob(e.job))
    && (e.JobStatus? ==> e.status.Terminal())
  }

  predicate LegalLog(s: RunState, log: seq<Event>) {
    forall i :: 0 <= i < |log| ==> Legal(Replay(s, log[..i]), log[i])
  }

  lemma LegalPrefix(s: RunState, log: seq<Event>)
    requires log != [] && LegalLog(s, log)
    ensures LegalLog(s, log[..|log| - 1])
    ensures Legal(Replay(s, log[..|log| - 1]), log[|log| - 1])
  {
    var init := log[..|log| - 1];
    forall i | 0 <= i < |init| ensures Legal(Replay(s, init[..i]), init[i]) {
      assert init[..i] == log[..i];
    }
  }

  // ------------------------------------------------------- what a job state keeps

  // The claim's timeline.
  predicate Timeline(claim: Claim) {
    && ValidTtl(claim.ttlMs)
    && claim.expiresAt - claim.heartbeatAt == claim.ttlMs
    && claim.claimedAt <= claim.heartbeatAt
    && (claim.startedAt.None? ==> claim.lastProgressAt.None? && claim.progressHashes.None?)
    && (claim.startedAt.Some? ==>
        && claim.lastProgressAt.Some? && claim.progressHashes.Some?
        && claim.claimedAt <= claim.startedAt.value <= claim.lastProgressAt.value <= claim.heartbeatAt)
  }

  predicate JobInvariant(executor: Executor, job: Job) {
    && 0 <= job.nextFencingToken
    && (job.status.Running? ==> job.claim.Some? && job.claim.value.startedAt.Some?)
    && (job.claim.Some? ==>
        var claim := job.claim.value;
        && executor.Caller?
        && job.spec.mode.Work?
        && claim.fencingToken == job.nextFencingToken
        && SafeInteger(claim.fencingToken)
        && 1 <= claim.fencingToken
        && claim.taskHash == job.spec.hash
        && job.spec.workdir == Some(claim.workdir)
        && Timeline(claim)
        && NoDuplicates(claim.Hashes())
        && (claim.startedAt.Some? ==> !job.status.Pending?))
  }

  predicate StateInvariant(s: RunState) {
    forall id :: id in s.jobs ==> JobInvariant(s.executor, s.jobs[id])
  }

  lemma NoDuplicatesAppend(s: seq<string>, x: string)
    requires NoDuplicates(s) && x !in s
    ensures NoDuplicates(s + [x])
  {
  }

  lemma ReduceKeepsJobInvariant(executor: Executor, job: Job, e: Event)
    requires JobInvariant(executor, job)
    requires !e.JobRegistered? && (e.JobStatus? ==> e.status.Terminal())
    ensures JobInvariant(executor, ReduceJob(executor, job, e))
  {
    if e.Progress? && job.claim.Some? && e.hash !in job.claim.value.Hashes() {
      NoDuplicatesAppend(job.claim.value.Hashes(), e.hash);
    }
  }

  // Nothing takes effect without what it must carry: the exact proof of the claim, its
  // task, workdir and pinned identity, a window of its length, and an instant that is
  // not before the last one.
  lemma OnlyProvenEventsTakeEffect(executor: Executor, job: Job, e: Event)
    requires ReduceJob(executor, job, e) != job && !e.JobRegistered? && !e.JobStatus?
    ensures e.Claimed? ==>
      && executor == Caller && job.spec.mode == Work && job.status == Pending && job.claim == None
      && ValidClaimId(e.claim.claimId) && ValidCallerId(e.claim.callerId)
      && e.claim.taskHash == job.spec.hash && Some(e.claim.workdir) == job.spec.workdir
      && e.claim.fencingToken == job.nextFencingToken + 1 <= MAX_SAFE_INTEGER
      && e.claim.claimedAt == e.claim.heartbeatAt == e.claim.expiresAt - e.claim.ttlMs
      && 1_000 <= e.claim.ttlMs <= 86_400_000
      && e.claim.startedAt == e.claim.lastProgressAt == None
      && e.claim.lastProgressKind == None && e.claim.lastProgressHash == None && e.claim.progressHashes == None
    ensures !e.Claimed? ==>
      && job.claim.Some?
      && var claim := job.claim.value;
      && (match e
          case Started(_, proof, taskHash, workdir, identity, startedAt, expiresAt) =>
            && proof == claim.Proof() && job.status == Pending && claim.startedAt == None
            && taskHash == claim.taskHash && workdir == claim.workdir
            && (claim.identity == None || identity == claim.identity)
            && expiresAt - startedAt == claim.ttlMs && claim.heartbeatAt <= startedAt
          case Heartbeat(_, proof, heartbeatAt, expiresAt) =>
            && proof == claim.Proof() && job.status in {Pending, Running}
            && expiresAt - heartbeatAt == claim.ttlMs && claim.heartbeatAt <= heartbeatAt
          case Progress(_, proof, progressAt, _, hash, expiresAt) =>
            && proof == claim.Proof() && job.status == Running && claim.startedAt != None
            && IsSha256(hash) && hash !in claim.Hashes()
            && expiresAt - progressAt == claim.ttlMs && claim.heartbeatAt <= progressAt
            && (claim.lastProgressAt != None ==> claim.lastProgressAt.value <= progressAt)
          case Released(_, proof, _, _) =>
            proof == claim.Proof() && job.status == Pending && claim.startedAt == None
          case BecameAmbiguous(_, proof, _, _) =>
            proof == claim.Proof() && job.status == Running && claim.startedAt != None
          case ReviewRequired(_, proof, _, reason, limitMs, requestedAt, lastProgressAt) =>
            && proof == claim.Proof() && job.status == Running && claim.startedAt != None
            && !IsBlank(reason) && |reason| <= 1_024 && 1 <= limitMs <= 2_147_483_647
            && claim.heartbeatAt <= requestedAt
            && lastProgressAt == (if claim.lastProgressAt != None then claim.lastProgressAt else claim.startedAt).value
          case _ => true)
  {
    hide IsSha256, IsBlank, ValidClaimId, ValidCallerId;
  }

  lemma ReduceKeepsInvariant(s: RunState, e: Event)
    requires StateInvariant(s) && Legal(s, e)
    ensures StateInvariant(Reduce(s, e))
  {
    if !e.JobRegistered? && e.jobId in s.jobs {
      ReduceKeepsJobInvariant(s.executor, s.jobs[e.jobId], e);
    }
  }

  // Every state that a legal log reaches satisfies the claim timeline invariant.
  lemma {:induction false} ReachableInvariant(s: RunState, log: seq<Event>)
    requires s.jobs == map[] && LegalLog(s, log)
    ensures StateInvariant(Replay(s, log))
  {
    if log != [] {
      LegalPrefix(s, log);
      ReachableInvariant(s, log[..|log| - 1]);
      ReduceKeepsInvariant(Replay(s, log[..|log| - 1]), log[|log| - 1]);
    }
  }

  // ------------------------------------------------- what later events cannot undo

  predicate SameStart(a: Claim, b: Claim) {
    && a.Proof() == b.Proof() && a.startedAt == b.startedAt && a.claimedAt == b.claimedAt
    && a.taskHash == b.taskHash && a.workdir == b.workdir && a.identity == b.identity
    && a.ttlMs == b.ttlMs
  }

  // What holds between the states of one job at an earlier and a later moment.
  ghost predicate Advances(a: Job, b: Job) {
    && a.jobKey == b.jobKey && a.spec == b.spec
    && a.nextFencingToken <= b.nextFencingToken
    && (a.status.Terminal() ==> b.status == a.status)
    && (a.claim.Some? && a.claim.value.startedAt.Some? ==>
        && b.claim.Some?
        && SameStart(a.claim.value, b.claim.value)
        && a.claim.value.Hashes() <= b.claim.value.Hashes()
        && (a.claim.value.lastProgressAt.Some? ==>
            b.claim.value.lastProgressAt.Some? &&
            a.claim.value.lastProgressAt.value <= b.claim.value.lastProgressAt.value))
    && (a.nextFencingToken == b.nextFencingToken && b.claim.Some? ==>
        a.claim.Some? && a.claim.value.Proof() == b.claim.value.Proof())
  }

  lemma ReduceAdvances(executor: Executor, job: Job, e: Event)
    requires JobInvariant(executor, job) && !e.JobRegistered?
    ensures Advances(job, ReduceJob(executor, job, e))
  {
  }

  lemma AdvancesTransitive(a: Job, b: Job, c: Job)
    requires Advances(a, b) && Advances(b, c)
    ensures Advances(a, c)
  {
  }

  lemma AdvancesReflexive(job: Job)
    ensures Advances(job, job)
  {
  }

  lemma StepAdvances(s: RunState, e: Event, id: string)
    requires StateInvariant(s) && Legal(s, e) && id in s.jobs
    ensures id in Reduce(s, e).jobs && Advances(s.jobs[id], Reduce(s, e).jobs[id])
  {
    if e.jobId == id {
      ReduceAdvances(s.executor, s.jobs[id], e);
    } else {
      AdvancesReflexive(s.jobs[id]);
    }
  }

  // Over any legal continuation of a log every job only advances: its terminal
  // status is absorbing, and its started claim is neither released nor replaced.
  lemma {:induction false} LogAdvances(s: RunState, log: seq<Event>, k: nat, id: string)
    requires s.jobs == map[] && LegalLog(s, log) && k <= |log|
    requires id in Replay(s, log[..k]).jobs
    ensures id in Replay(s, log).jobs
    ensures Advances(Replay(s, log[..k]).jobs[id], Replay(s, log).jobs[id])
    decreases |log|
  {
    if k == |log| {
      assert log[..k] == log;
      AdvancesReflexive(Replay(s, log).jobs[id]);
    } else {
      var init := log[..|log| - 1];
      LegalPrefix(s, log);
      assert init[..k] == log[..k];
      LogAdvances(s, init, k, id);
      ReachableInvariant(s, init);
      StepAdvances(Replay(s, init), log[|init|], id);
      AdvancesTransitive(Replay(s, log[..k]).jobs[id], Replay(s, init).jobs[id], Replay(s, log).jobs[id]);
    }
  }

  // No event of this job in the log from index k on carries evidence that its claim
  // does not already hold.
  predicate NoNewEvidence(log: seq<Event>, k: nat, id: string, hashes: seq<string>) {
    forall i :: k <= i < |log| && log[i].Progress? && log[i].jobId == id ==> log[i].hash in hashes
  }

  predicate SameClocks(a: Claim, b: Claim) {
    a.startedAt == b.startedAt && a.lastProgressAt == b.lastProgressAt && a.Hashes() == b.Hashes()
  }

  lemma ClocksStandStill(s: RunState, e: Event, id: string)
    requires StateInvariant(s) && Legal(s, e) && HasStarted(s, id)
    requires e.Progress? && e.jobId == id ==> e.hash in s.jobs[id].claim.value.Hashes()
    ensures HasStarted(Reduce(s, e), id)
    ensures SameClocks(s.jobs[id].claim.value, Reduce(s, e).jobs[id].claim.value)
  {
  }

  // The clocks of a started claim stand still without new evidence: heartbeats,
  // repeated progress, and anything else, leave its start and last progress alone.
  lemma {:induction false} OnlyNewEvidenceMovesTheProgressClock(s: RunState, log: seq<Event>, k: nat, id: string)
    requires s.jobs == map[] && LegalLog(s, log) && k <= |log|
    requires HasStarted(Replay(s, log[..k]), id)
    requires NoNewEvidence(log, k, id, Replay(s, log[..k]).jobs[id].claim.value.Hashes())
    ensures HasStarted(Replay(s, log), id)
    ensures SameClocks(Replay(s, log[..k]).jobs[id].claim.value, Replay(s, log).jobs[id].claim.value)
    decreases |log|
  {
    hide Reduce, JobInvariant, LegalLog;
    if k < |log| {
      var init := log[..|log| - 1];
      LegalPrefix(s, log);
      assert init[..k] == log[..k];
      OnlyNewEvidenceMovesTheProgressClock(s, init, k, id);
      ReachableInvariant(s, init);
      ClocksStandStill(Replay(s, init), log[|init|], id);
    } else {
      assert log[..k] == log;
    }
  }

  // -------------------------------------------------------------------- fencing

  function ProofOf(e: Event): Option<ClaimProof> {
    match e
    case Started(_, proof, _, _, _, _, _) => Some(proof)
    case Heartbeat(_, proof, _, _) => Some(proof)
    case Progress(_, proof, _, _, _, _) => Some(proof)
    case Released(_, proof, _, _) => Some(proof)
    case BecameAmbiguous(_, proof, _, _) => Some(proof)
    case ReviewRequired(_, proof, _, _, _, _, _) => Some(proof)
    case _ => None
  }

  // The claim has been released or replaced by the time the job looks like this.
  predicate Superseded(claim: Claim, job: Job) {
    claim.fencingToken < job.nextFencingToken ||
    (claim.fencingToken == job.nextFencingToken && job.claim.None?)
  }

  // Once a claim has been released or replaced, no event that carries its proof
  // changes the job, in that state or in any later one.
  lemma SupersededProofIsFenced(s: RunState, log: seq<Event>, k: nat, claim: Claim, e: Event)
    requires s.jobs == map[] && LegalLog(s, log) && k <= |log|
    requires e.jobId in Replay(s, log[..k]).jobs
    requires Superseded(claim, Replay(s, log[..k]).jobs[e.jobId])
    requires ProofOf(e) == Some(claim.Proof())
    ensures Reduce(Replay(s, log), e) == Replay(s, log)
  {
    LogAdvances(s, log, k, e.jobId);
    ReachableInvariant(s, log);
    var now := Replay(s, log);
    assert now.jobs[e.jobId := now.jobs[e.jobId]] == now.jobs;
  }

  // The event is of this kind and changed the job.
  predicate Took(s: RunState, e: Event, id: string, kind: bool) {
    kind && id in s.jobs && id in Reduce(s, e).jobs && Reduce(s, e).jobs[id] != s.jobs[id]
  }

  predicate HasStarted(s: RunState, id: string) {
    id in s.jobs && s.jobs[id].claim.Some? && s.jobs[id].claim.value.startedAt.Some?
  }

  // One event moves a job's counter exactly when a claim is accepted, and then to
  // that claim's token.
  lemma ClaimStep(s: RunState, e: Event, id: string)
    requires StateInvariant(s) && Legal(s, e)
    ensures id in s.jobs ==> id in Reduce(s, e).jobs
    ensures Took(s, e, id, e.Claimed?) ==>
      e.claim.fencingToken == Reduce(s, e).jobs[id].nextFencingToken == s.jobs[id].nextFencingToken + 1
    ensures id in s.jobs && !Took(s, e, id, e.Claimed?) ==>
      Reduce(s, e).jobs[id].nextFencingToken == s.jobs[id].nextFencingToken
    ensures id !in s.jobs && id in Reduce(s, e).jobs ==> Reduce(s, e).jobs[id].nextFencingToken == 0
  {
  }

  // One event starts a job exactly when its start is accepted, and only once.
  lemma StartStep(s: RunState, e: Event, id: string)
    requires StateInvariant(s) && Legal(s, e)
    ensures HasStarted(Reduce(s, e), id) <==> HasStarted(s, id) || Took(s, e, id, e.Started?)
    ensures !(HasStarted(s, id) && Took(s, e, id, e.Started?))
  {
  }

  // The tokens of the claims of one job that the reducer accepted, oldest first.
  function AcceptedTokens(s: RunState, log: seq<Event>, id: string): seq<int> {
    if log == [] then []
    else
      var before, e := Replay(s, log[..|log| - 1]), log[|log| - 1];
      AcceptedTokens(s, log[..|log| - 1], id) + if Took(before, e, id, e.Claimed?) then [e.claim.fencingToken] else []
  }

  // Accepted claims of a job carry the tokens 1, 2, 3, ..., and the job's counter
  // is the number of them.
  lemma {:induction false} ClaimTokensCountUp(s: RunState, log: seq<Event>, id: string)
    requires s.jobs == map[] && LegalLog(s, log)
    ensures id in Replay(s, log).jobs ==>
      |AcceptedTokens(s, log, id)| == Replay(s, log).jobs[id].nextFencingToken
    ensures id !in Replay(s, log).jobs ==> AcceptedTokens(s, log, id) == []
    ensures forall i :: 0 <= i < |AcceptedTokens(s, log, id)| ==> AcceptedTokens(s, log, id)[i] == i + 1
  {
    if log != [] {
      LegalPrefix(s, log);
      ClaimTokensCountUp(s, log[..|log| - 1], id);
      ReachableInvariant(s, log[..|log| - 1]);
      ClaimStep(Replay(s, log[..|log| - 1]), log[|log| - 1], id);
    }
  }

  // How many start events of one job took effect.
  function AcceptedStarts(s: RunState, log: seq<Event>, id: string): nat {
    if log == [] then 0
    else
      var before, e := Replay(s, log[..|log| - 1]), log[|log| - 1];
      AcceptedStarts(s, log[..|log| - 1], id) + if Took(before, e, id, e.Started?) then 1 else 0
  }

  // At most one start of a job ever takes effect; it is the start of the claim
  // that the job then keeps.
  lemma {:induction false} AtMostOneStart(s: RunState, log: seq<Event>, id: string)
    requires s.jobs == map[] && LegalLog(s, log)
    ensures AcceptedStarts(s, log, id) == if HasStarted(Replay(s, log), id) then 1 else 0
  {
    if log != [] {
      LegalPrefix(s, log);
      AtMostOneStart(s, log[..|log| - 1], id);
      ReachableInvariant(s, log[..|log| - 1]);
      StartStep(Replay(s, log[..|log| - 1]), log[|log| - 1], id);
    }
  }
}
