/**
 * The caller-work operations, each a sequence of reads and atomic durable writes.
 *
 * A `Home` is one process that has bound a run store.  Before each of its accesses
 * other processes may act: take the run lease away, create anchors, overwrite
 * status files and, once they own the lease, append events.  What they do is the
 * `schedule`, an arbitrary input.  `trace` records every world on the way, so a
 * crash leaves some world of the trace, from which any operation may start again.
 */
module CallerWorkHome {
  import opened Common
  import opened CallerWork
  import opened CallerWorkWorld

  datatype Interference = Takeover | Other(write: Write)

  // What others do before an access, to the world and to this process's lease.
  function Disturbed(w: World, owned: bool, todo: seq<Interference>): (World, bool)
    decreases |todo|
  {
    if todo == [] then (w, owned)
    else
      match todo[0]
      case Takeover => Disturbed(w, false, todo[1..])
      case Other(write) =>
        Disturbed(if Enabled(w, write) && (write.Append? ==> !owned) then Apply(w, write) else w, owned, todo[1..])
  }

  // The error codes with which the operations refuse.
  datatype Refusal =
    | CallerExecutorRequired
    | CallerIdInvalid
    | CallerJobResultConflict
    | CallerJobResultInvalid
    | CallerWorkdirIdentityMismatch
    | CallerWorkdirIdentityRequired
    | CallerWorkdirRequired
    | CallerWorkdirUnavailable
    | CallerWorkAlreadyClaimed
    | CallerWorkBecameAmbiguous
    | CallerWorkClaimExpired
    | CallerWorkClaimMismatch
    | CallerWorkClaimProofInvalid
    | CallerWorkClaimRequired
    | CallerWorkClaimStateInvalid
    | CallerWorkClaimTtlInvalid
    | CallerWorkClaimUnexpected
    | CallerWorkClockRegression
    | CallerWorkJobRequired
    | CallerWorkNotActive
    | CallerWorkNotClaimable
    | CallerWorkNotStartable
    | CallerWorkNotStarted
    | CallerWorkProgressInvalid
    | CallerWorkReleaseAfterStartForbidden
    | CallerWorkReviewInvalid
    | EventRuntimeOwnerLost
    | JobKeyIdentityMismatch
    | JobNotFound
    | JobStatusAlreadyTerminal
    | JobStatusIdentityMismatch
    | JobStatusInvalid
    | JobStatusTerminalConflict
    | JobTerminalEvidenceExists

  datatype Try<+T> = Ok(value: T) | Err(code: Refusal)

  datatype WriteOutcome = Written | Invalid | Conflict | AlreadyTerminal

  // What a successful claim returns: a new claim, or the live one of this caller.
  datatype ClaimOutcome = NewlyClaimed(claim: Claim) | AlreadyClaimed(claim: Claim)

  datatype Mutation = Mutation(
    kind: MutationKind,
    heartbeatAt: int,
    expiresAt: int,
    observedAt: Option<int>,
    startedAt: Option<int>,
    progressAt: Option<int>)

  datatype SubmitOutcome = Submitted | ResultAlreadyTerminal

  datatype CancelOutcome = CancelledPending | MarkedAmbiguous | CancelAlreadyTerminal

  datatype MutationKind =
    StartRecorded | AlreadyStarted | HeartbeatRecorded | ProgressRecorded | ProgressAlreadyRecorded


  const DEFAULT_CLAIM_TTL_MS := 300_000

  function TtlOf(requested: Option<int>): int {
    if requested.Some? then requested.value else DEFAULT_CLAIM_TTL_MS
  }

  // The refusals that say what has become of an expired claim.
  predicate SaysExpired(code: Refusal) {
    code.CallerWorkClaimExpired? || code.CallerWorkBecameAmbiguous?
  }

  function WriteError(o: WriteOutcome): Refusal
    requires !o.Written?
  {
    match o
    case Invalid => JobStatusInvalid
    case Conflict => JobStatusTerminalConflict
    case AlreadyTerminal => JobStatusAlreadyTerminal
  }

  // The job_status event that carries a persisted terminal status into the log.
  function ImportOf(id: string, record: Record): Event {
    JobStatus(id, record.status, record.error)
  }

  // Only one job differs between the two states.
  predicate OnlyJob(a: RunState, b: RunState, id: string) {
    && a.executor == b.executor && a.jobs.Keys == b.jobs.Keys
    && forall other :: other in a.jobs && other != id ==> b.jobs[other] == a.jobs[other]
  }

  predicate Settled(s: RunState, id: string) {
    id in s.jobs && s.jobs[id].status.Terminal()
  }

  // A claim that its holder has just renewed.
  function Renewed(claim: Claim, now: int): Claim {
    claim.(heartbeatAt := now, expiresAt := now + claim.ttlMs)
  }

  function StartOf(id: string, claim: Claim, now: int): Event {
    Started(id, claim.Proof(), claim.taskHash, claim.workdir, claim.identity, now, now + claim.ttlMs)
  }

  // A claim as its writer builds it for a pending job without one.
  predicate Claimable(executor: Executor, job: Job, claim: Claim) {
    && executor.Caller? && job.spec.mode.Work? && job.status.Pending? && job.claim.None?
    && ValidClaimId(claim.claimId) && ValidCallerId(claim.callerId) && ValidTtl(claim.ttlMs)
    && job.spec.workdir.Some? && 0 <= job.nextFencingToken
    && claim == Claim(claim.claimId, claim.callerId, job.nextFencingToken + 1, job.spec.hash, job.spec.workdir.value,
                      claim.identity, claim.heartbeatAt, claim.heartbeatAt, claim.heartbeatAt + claim.ttlMs,
                      claim.ttlMs, None, None, None, None, None)
  }

  // The job once that claim has taken effect, as long as its token is a safe integer.
  function AfterClaim(job: Job, claim: Claim): Job {
    if claim.fencingToken <= MAX_SAFE_INTEGER
    then job.(claim := Some(claim), nextFencingToken := claim.fencingToken) else job
  }

  // The job once that start has taken effect.
  function AfterStart(job: Job, claim: Claim, now: int): Job {
    job.(status := Running,
         claim := Some(Renewed(claim, now).(startedAt := Some(now), lastProgressAt := Some(now),
                                            progressHashes := Some([]))))
  }

  // The job once new progress has taken effect.
  function AfterProgress(job: Job, claim: Claim, now: int, kind: ProgressKind, hash: string): Job {
    job.(claim := Some(Renewed(claim, now).(lastProgressAt := Some(now),
                                            lastProgressKind := Some(kind),
                                            lastProgressHash := Some(hash),
                                            progressHashes := Some(claim.Hashes() + [hash]))))
  }

  function ProgressOf(id: string, claim: Claim, now: int, kind: ProgressKind, hash: string): Event {
    Progress(id, claim.Proof(), now, kind, hash, now + claim.ttlMs)
  }

  function ReviewOf(id: string, claim: Claim, reviewReason: ReviewReason, reason: string,
                    limitMs: int, now: int): Event
    requires claim.startedAt.Some?
  {
    ReviewRequired(id, claim.Proof(), reviewReason, reason, limitMs, now, ReviewAnchor(claim))
  }

  // The terminal record of a submitted result: for work anything but success is
  // ambiguous.
  function ResultRecord(runId: string, job: Job, status: Status, startedAt: Option<int>,
                        finishedAt: Option<int>, result: string, error: Option<Message>, now: int): Record
  {
    Record(
      if job.spec.mode.Work? && !status.Succeeded? then Ambiguous else status,
      Some(runId), Some(job.jobKey), Some(job.spec.lane), Some(job.spec.mode), true,
      if startedAt.Some? then startedAt.value else now,
      Some(if finishedAt.Some? then finishedAt.value else now),
      None, None, Some(result), error)
  }

  // The record says what was submitted: for work anything but success is ambiguous.
  predicate Reports(record: Record, runId: string, job: Job, status: Status, startedAt: Option<int>,
                    finishedAt: Option<int>, result: string, error: Option<Message>, now: int)
  {
    && record.runId == Some(runId) && record.jobKey == Some(job.jobKey)
    && record.lane == Some(job.spec.lane) && record.mode == Some(job.spec.mode) && record.foreground
    && record.result == Some(result) && record.error == error
    && (record.status == status || (job.spec.mode.Work? && record.status.Ambiguous?))
    && (job.spec.mode.Work? ==> if status.Succeeded? then record.status.Succeeded? else record.status.Ambiguous?)
    && (startedAt.Some? ==> record.startedAt == startedAt.value) && (startedAt.None? ==> record.startedAt == now)
    && (finishedAt.Some? ==> record.finishedAt == finishedAt) && (finishedAt.None? ==> record.finishedAt == Some(now))
  }

  // The record shows an active job in this status.
  predicate Shows(record: Record, runId: string, job: Job, status: Status) {
    && record.status == status && record.runId == Some(runId) && record.jobKey == Some(job.jobKey)
    && record.lane == Some(job.spec.lane) && record.mode == Some(job.spec.mode) && record.foreground
    && record.finishedAt.None? && record.result.None? && record.error.None?
  }

  // A status file as it follows the one before: it starts with the job, and its progress
  // is the latest.
  predicate Follows(record: Record, before: Option<Record>, now: int, progress: Option<(Phase, int)>) {
    && record.startedAt == (if before.None? || (record.status.Running? && !before.value.status.Running?)
                            then now else before.value.startedAt)
    && (progress.Some? ==> record.phase == Some(progress.value.0) && record.lastProgressAt == Some(progress.value.1))
    && (progress.None? ==>
        && record.phase == (if before.Some? then before.value.phase else None)
        && record.lastProgressAt == (if before.Some? then before.value.lastProgressAt else None))
  }

  // A terminal status that can be the result of this job's claim.
  predicate IsWorkResult(record: Record, runId: string, job: Job) {
    && record.runId == Some(runId) && record.jobKey == Some(job.jobKey)
    && record.lane == Some(job.spec.lane) && record.mode == Some(Work) && record.foreground
    && (record.status.Succeeded? || record.status.Ambiguous?)
  }

  // A persisted terminal status that a submission may take for this job's.
  predicate BelongsTo(record: Record, runId: string, job: Job) {
    && record.runId == Some(runId) && record.jobKey == Some(job.jobKey)
    && (job.spec.mode.Work? ==>
        record.lane == Some(job.spec.lane) && record.mode == Some(Work) && record.foreground)
  }

  // The claim is live and started, and this proof is its holder's.
  predicate MayReport(job: Job, proof: ClaimProof, now: int) {
    && ExactClaim(job, proof).Ok? && Live(job, job.claim.value, now)
    && job.status.Running? && job.claim.value.startedAt.Some?
  }

  // The holder of this claim has declared no other result.
  predicate NoOtherIntent(log: seq<Event>, id: string, proof: ClaimProof, status: Status) {
    forall i :: 0 <= i < |log| && log[i].ResultIntent? && log[i].jobId == id && log[i].proof == proof ==>
      log[i].status == status
  }

  lemma ResultRecordReports(runId: string, job: Job, status: Status, startedAt: Option<int>,
                            finishedAt: Option<int>, result: string, error: Option<Message>, now: int)
    requires status.Terminal()
    ensures var record := ResultRecord(runId, job, status, startedAt, finishedAt, result, error, now);
      && Reports(record, runId, job, status, startedAt, finishedAt, result, error, now)
      && BelongsTo(record, runId, job)
      && (record.Valid() <==> (if startedAt.Some? then startedAt.value else now)
                              <= (if finishedAt.Some? then finishedAt.value else now))
  {
  }

  // Whatever happens behind the anchor of a submission, the claim can restore it.
  lemma StillRecoverable(a: World, w: World, b: World, id: string, runId: string, status: Status,
                         startedAt: Option<int>, finishedAt: Option<int>, result: string, error: Option<Message>,
                         proof: ClaimProof, now: int)
    requires Invariant(w) && Later(a, w) && Later(w, b) && id in a.state.jobs && id in w.anchors
    requires a.state.jobs[id].spec.mode.Work? && MayReport(a.state.jobs[id], proof, now)
    requires id in b.anchors && status.Terminal()
    requires Reports(b.anchors[id], runId, a.state.jobs[id], status, startedAt, finishedAt, result, error, now)
    ensures id in w.state.jobs && w.state.jobs[id].claim.Some? && w.state.jobs[id].spec.mode.Work?
    ensures var job := w.state.jobs[id];
      && ExactClaim(job, job.claim.value.Proof()).Ok?
      && IsWorkResult(w.anchors[id], runId, job)
      && ReduceJobStatus(job, ImportOf(id, w.anchors[id])).status == if status.Succeeded? then Succeeded else Ambiguous
  {
    hide Faithful, ProgressIndexed, OneIntent, SuccessDeclared, FilesAnchored, IsBlank, ValidCallerId;
    var was, job := a.state.jobs[id], w.state.jobs[id];
    assert Advances(was, job) && JobInvariant(w.state.executor, job);
    assert w.anchors[id] == b.anchors[id];
  }

  // A submission whose anchor and declared result are already durable, while the log
  // still says running.
  predicate MayComplete(w: World, id: string, runId: string, job: Job, proof: ClaimProof) {
    && id in w.anchors && BelongsTo(w.anchors[id], runId, job) && HasIntent(w.log, id, w.anchors[id].status, proof)
    && job.spec.mode.Work? && ExactClaim(job, proof).Ok?
    && job.status.Running? && job.claim.value.startedAt.Some?
  }

  predicate HasSubmission(log: seq<Event>, id: string) {
    exists i :: 0 <= i < |log| && log[i].ResultSubmitted? && log[i].jobId == id
  }

  // What a completed submission appends: the declared intent unless there is one, the
  // submission events unless a submission was recorded, and the status.
  function SubmissionLog(id: string, job: Job, terminal: Record, proof: Option<ClaimProof>, declared: bool,
                         recorded: bool): seq<Event>
  {
    var work := job.spec.mode.Work? && proof.Some?;
    (if work && !declared then [ResultIntent(id, terminal.status, proof.value)] else [])
    + SubmissionNotes(id, job, terminal, proof, recorded) + [JobStatus(id, terminal.status, terminal.error)]
  }

  lemma SubmissionLogJoins(log: seq<Event>, id: string, job: Job, terminal: Record, proof: Option<ClaimProof>,
                           declared: bool, recorded: bool)
    ensures var notes := SubmissionNotes(id, job, terminal, proof, recorded)
                         + [JobStatus(id, terminal.status, terminal.error)];
      log + SubmissionLog(id, job, terminal, proof, declared, recorded) ==
        if job.spec.mode.Work? && proof.Some? && !declared
        then log + [ResultIntent(id, terminal.status, proof.value)] + notes else log + notes
  {
  }

  function SubmissionNotes(id: string, job: Job, terminal: Record, proof: Option<ClaimProof>, recorded: bool): seq<Event> {
    if recorded then []
    else if job.spec.mode.Work? && proof.Some?
    then [ResultSubmitted(id, terminal.status), WorkResultSubmitted(id, terminal.status, proof.value)]
    else [ResultSubmitted(id, terminal.status)]
  }

  // What a submission found: a persisted terminal status, whether this claim has
  // declared a result, and whether a submission event is already in the log.
  datatype Plan = Plan(persisted: Option<Record>, intentDeclared: bool, recorded: bool)

  predicate PlanHolds(w: World, id: string, job: Job, status: Status, proof: Option<ClaimProof>, plan: Plan) {
    && (plan.persisted.Some? ==>
        && id in w.anchors && w.anchors[id] == plan.persisted.value
        && plan.persisted.value.Terminal())
    && (job.spec.mode.Work? ==>
        && proof.Some? && job.claim.Some? && job.claim.value.startedAt.Some?
        && job.claim.value.Proof() == proof.value)
    && (job.spec.mode.Work? && !plan.intentDeclared ==> NoIntent(w.log, id, proof.value))
    && (plan.intentDeclared ==>
        && job.spec.mode.Work?
        && HasIntent(w.log, id, if plan.persisted.Some? then plan.persisted.value.status else status,
                     proof.value))
  }

  // assertPersistedJobIdentity: no recorded field contradicts the job.
  predicate MayBelongTo(record: Record, runId: string, job: Job) {
    && (record.runId.Some? ==> record.runId.value == runId)
    && (record.jobKey.Some? ==> record.jobKey.value == job.jobKey)
    && (record.lane.Some? ==> record.lane.value == job.spec.lane)
    && (record.mode.Some? ==> record.mode.value == job.spec.mode)
  }

  // Another job of the run holds this key.
  predicate OtherHoldsKey(s: RunState, id: string, jobKey: string) {
    exists other :: other in s.jobs && other != id && s.jobs[other].jobKey == jobKey
  }

  // An active work job whose claim has run out.
  predicate Expired(job: Job, now: int) {
    job.spec.mode.Work? && Active(job) && job.claim.Some? && ClaimExpired(job.claim.value, now)
  }

  function ExpiredIds(jobs: map<string, Job>, now: int): (r: set<string>)
    ensures r <= jobs.Keys
  {
    set id | id in jobs && Expired(jobs[id], now)
  }

  // What has been reconciled holds no expired claim any more; everything else is as it was.
  predicate Reconciled(before: map<string, Job>, jobs: map<string, Job>, todo: set<string>, now: int) {
    && jobs.Keys == before.Keys
    && forall id :: id in before ==>
         if id in todo || !Expired(before[id], now) then jobs[id] == before[id] else !Expired(jobs[id], now)
  }

  lemma NothingReconciled(jobs: map<string, Job>, now: int)
    ensures Reconciled(jobs, jobs, jobs.Keys, now) && ExpiredIds(jobs, now) - jobs.Keys == {}
  {
  }

  lemma StillAsBefore(before: map<string, Job>, jobs: map<string, Job>, todo: set<string>, now: int, id: string)
    requires Reconciled(before, jobs, todo, now) && id in todo && todo <= before.Keys
    ensures id in jobs && jobs[id] == before[id]
  {
  }

  lemma OneReconciled(before: map<string, Job>, jobs: map<string, Job>, after: map<string, Job>, todo: set<string>,
                      now: int, id: string)
    requires Reconciled(before, jobs, todo, now) && id in todo && todo <= before.Keys
    requires after.Keys == jobs.Keys && forall other :: other in jobs && other != id ==> after[other] == jobs[other]
    requires if Expired(before[id], now) then !Expired(after[id], now) else after[id] == jobs[id]
    ensures Reconciled(before, after, todo - {id}, now)
  {
  }

  // No active work job holds a claim that has run out, and only those that did have changed.
  predicate NoneExpired(before: map<string, Job>, jobs: map<string, Job>, now: int) {
    && jobs.Keys == before.Keys
    && (forall id :: id in jobs ==>
          var job := jobs[id];
          (job.spec.mode.Work? && (job.status.Pending? || job.status.Running?) && job.claim.Some? ==>
            now < job.claim.value.expiresAt))
    && (forall id :: id in jobs ==>
          var job := before[id];
          (job.spec.mode.Work? && (job.status.Pending? || job.status.Running?) && job.claim.Some?
           && job.claim.value.expiresAt <= now) || jobs[id] == job)
  }

  lemma AllReconciled(before: map<string, Job>, jobs: map<string, Job>, now: int)
    requires Reconciled(before, jobs, {}, now)
    ensures NoneExpired(before, jobs, now)
  {
    forall id | id in jobs ensures !Expired(jobs[id], now) {
    }
  }

  lemma OneFewer(jobs: map<string, Job>, now: int, todo: set<string>, id: string)
    requires id in todo && todo <= jobs.Keys
    ensures ExpiredIds(jobs, now) - (todo - {id})
      == ExpiredIds(jobs, now) - todo + if Expired(jobs[id], now) then {id} else {}
  {
  }

  // ------------------------------------ what the checks of a writer guarantee

  // A live claim, as every writer sees it after its checks.
  predicate Live(job: Job, claim: Claim, now: int) {
    job.claim == Some(claim) && Active(job) && claim.heartbeatAt <= now < claim.expiresAt
  }

  // Why an operation of the claim's holder is refused before its own checks.
  function HolderRefusal(s: RunState, id: string, proof: ClaimProof, now: int, inactive: Refusal): Option<Refusal> {
    var loaded := ClaimedJob(s, id, proof);
    if loaded.Err? then Some(loaded.code)
    else if !Active(loaded.value) then Some(inactive)
    else if now < loaded.value.claim.value.heartbeatAt then Some(CallerWorkClockRegression)
    else None
  }

  // Why a claim is refused before anything is written.
  function ClaimRefusal(s: RunState, id: string, callerId: string, ttlMs: int, now: int): Option<Refusal> {
    if !ValidCallerId(callerId) then Some(CallerIdInvalid)
    else if !ValidTtl(ttlMs) then Some(CallerWorkClaimTtlInvalid)
    else
      var loaded := CallerWorkJob(s, id);
      if loaded.Err? then Some(loaded.code)
      else if !Active(loaded.value) then Some(CallerWorkNotClaimable)
      else if loaded.value.claim.Some? && !ClaimExpired(loaded.value.claim.value, now)
           && loaded.value.claim.value.callerId != callerId then Some(CallerWorkAlreadyClaimed)
      else None
  }

  // The claim is live, and this proof is its holder's.
  predicate HeldLive(s: RunState, id: string, proof: ClaimProof, now: int) {
    && ClaimedJob(s, id, proof).Ok?
    && Live(s.jobs[id], s.jobs[id].claim.value, now)
  }

  lemma StartEffect(executor: Executor, job: Job, claim: Claim, id: string, now: int)
    requires JobInvariant(executor, job) && Live(job, claim, now) && claim.startedAt.None?
    ensures ReduceStarted(job, StartOf(id, claim, now)) == AfterStart(job, claim, now)
  {
  }

  lemma HeartbeatEffect(executor: Executor, job: Job, claim: Claim, id: string, now: int)
    requires JobInvariant(executor, job) && Live(job, claim, now)
    ensures ReduceHeartbeat(job, Heartbeat(id, claim.Proof(), now, now + claim.ttlMs))
      == job.(claim := Some(Renewed(claim, now)))
  {
  }

  lemma ProgressEffect(executor: Executor, job: Job, claim: Claim, id: string, now: int,
                       kind: ProgressKind, hash: string)
    requires JobInvariant(executor, job) && Live(job, claim, now) && claim.startedAt.Some?
    requires IsSha256(hash) && hash !in claim.Hashes() && job.status.Running?
    ensures ReduceProgress(job, ProgressOf(id, claim, now, kind, hash))
      == AfterProgress(job, claim, now, kind, hash)
    ensures AfterProgress(job, claim, now, kind, hash) != job
  {
    assert AfterProgress(job, claim, now, kind, hash).claim.value.Hashes() != claim.Hashes();
  }

  // A review that passed every check of its writer takes effect exactly when its
  // limit fits a timer; a longer limit is written, and then dropped by the reducer.
  lemma ReviewTakesEffectExactlyWithinTimerRange(executor: Executor, job: Job, claim: Claim, id: string,
      why: ReviewReason, reason: string, limitMs: int, now: int)
    requires JobInvariant(executor, job) && Live(job, claim, now) && claim.startedAt.Some?
    requires ValidReason(reason) && 1 <= limitMs
    ensures ReduceReviewRequired(job, ReviewOf(id, claim, why, reason, limitMs, now)) ==
      if limitMs <= MAX_TIMER_DELAY_MS
      then job.(status := Ambiguous, error := Some(Given(reason))) else job
    ensures ReduceReviewRequired(job, ReviewOf(id, claim, why, reason, limitMs, now)) != job
      <==> limitMs <= MAX_TIMER_DELAY_MS
  {
    assert job.status.Running?;
  }

  function SomeClaimId(): (claimId: string)
    ensures ValidClaimId(claimId) && !IsBlank(claimId)
  {
    var claimId := seq(42, i requires 0 <= i < 42 =>
      if i < 6 then "claim_"[i] else if i == 14 || i == 19 || i == 24 || i == 29 then '-'
      else if i == 20 then '4' else if i == 25 then '8' else '0');
    assert claimId[..6] == "claim_";
    assert !IsWhitespace(claimId[6]);
    claimId
  }

  lemma NamesAreNotBlank()
    ensures ValidCallerId("caller") && ValidReason("late")
  {
    assert !IsWhitespace("caller"[0]) && !IsWhitespace("late"[0]);
  }

  // A work job, and a claim of it at instant 0.
  function SomeJob(): Job {
    Job("key", Spec(Work, "lane", Some("/work"), "hash"), Pending, None, None, 0)
  }

  function SomeClaim(identity: Option<WorkdirIdentity>): (claim: Claim)
    ensures Claimable(Caller, SomeJob(), claim) && !IsBlank(claim.claimId) && claim.identity == identity
    ensures claim.heartbeatAt == 0 && claim.ttlMs == 1_000 && claim.callerId == "caller"
  {
    NamesAreNotBlank();
    Claim(SomeClaimId(), "caller", 1, "hash", "/work", identity, 0, 0, 1_000, 1_000, None, None, None, None, None)
  }

  // A job that was registered, claimed and started is started.
  lemma StartedByLog(id: string, registered: Job, claim: Claim) returns (log: seq<Event>)
    requires FreshJob(registered) && Claimable(Caller, registered, claim) && claim.fencingToken == 1
    ensures LegalLog(EmptyRun(Caller), log)
    ensures Replay(EmptyRun(Caller), log)
      == RunState(Caller, map[id := AfterStart(AfterClaim(registered, claim), claim, claim.heartbeatAt)])
  {
    hide ValidClaimId, ValidCallerId;
    var none := EmptyRun(Caller);
    var start := StartOf(id, claim, claim.heartbeatAt);
    log := [JobRegistered(id, registered)];
    assert log[..0] == [];
    ReplayOne(none, log, Claimed(id, claim));
    log := log + [Claimed(id, claim)];
    assert log[..1] == [JobRegistered(id, registered)];
    StartEffect(Caller, AfterClaim(registered, claim), claim, id, claim.heartbeatAt);
    ReplayOne(none, log, start);
    assert (log + [start])[..1] == log[..1] && (log + [start])[..2] == log && (log + [start])[..0] == [];
    log := log + [start];
  }

  // Such a review exists: the log is legal, the writer accepts the claim, the reason
  // and the limit, and the reducer drops the event.
  lemma LongReviewIsDropped() returns (log: seq<Event>, proof: ClaimProof, limitMs: int)
    ensures LegalLog(EmptyRun(Caller), log)
    ensures var s := Replay(EmptyRun(Caller), log);
      && ReviewJob(s, "job", proof, "late", limitMs).Ok? && MayReport(s.jobs["job"], proof, 5)
      && Reduce(s, ReviewOf("job", s.jobs["job"].claim.value, MaxExecutionElapsed, "late", limitMs, 5)) == s
  {
    hide ValidClaimId, ValidCallerId, ValidReason, SomeClaimId;
    NamesAreNotBlank();
    var claim := SomeClaim(None);
    log := StartedByLog("job", SomeJob(), claim);
    proof, limitMs := claim.Proof(), MAX_TIMER_DELAY_MS + 1;
  }

  predicate ClaimExpired(claim: Claim, now: int) {
    claim.expiresAt <= now
  }

  // callerWorkJob: the job as caller work, or why it is not.
  function CallerWorkJob(s: RunState, id: string): Try<Job> {
    if !s.executor.Caller? then Err(CallerExecutorRequired)
    else if id !in s.jobs then Err(JobNotFound)
    else if !s.jobs[id].spec.mode.Work? then Err(CallerWorkJobRequired)
    else
      var workdir := s.jobs[id].spec.workdir;
      if workdir.None? || workdir.value == "" || workdir.value[0] != '/'
      then Err(CallerWorkdirRequired)
      else Ok(s.jobs[id])
  }

  // exactClaim: the job's claim, if the proof is well formed and exactly matches.
  function ExactClaim(job: Job, proof: ClaimProof): (r: Try<Claim>)
    ensures r.Err? ==> !SaysExpired(r.code)
    ensures r.Ok? ==> job.claim == Some(r.value) && r.value.Proof() == proof
  {
    if !ValidCallerId(proof.callerId) then Err(CallerIdInvalid)
    else if IsBlank(proof.claimId) || !SafeInteger(proof.fencingToken)
    then Err(CallerWorkClaimProofInvalid)
    else if
      || job.claim.None?
      || job.claim.value.Proof() != proof
      || job.claim.value.taskHash != job.spec.hash
      || Some(job.claim.value.workdir) != job.spec.workdir
    then Err(CallerWorkClaimMismatch)
    else Ok(job.claim.value)
  }

  // The job and its claim, as every proof-carrying operation loads them.
  function ClaimedJob(s: RunState, id: string, proof: ClaimProof): (r: Try<Job>)
    ensures r.Ok? ==>
      && id in s.jobs && r.value == s.jobs[id] && r.value.claim.Some?
      && r.value.claim.value.Proof() == proof
  {
    var job := CallerWorkJob(s, id);
    if job.Err? then job
    else
      var claim := ExactClaim(job.value, proof);
      if claim.Err? then Err(claim.code) else job
  }

  function ProgressJob(s: RunState, id: string, proof: ClaimProof, hash: string): (r: Try<Job>)
    ensures r.Ok? ==>
      && id in s.jobs && r.value == s.jobs[id] && r.value.claim.Some?
      && r.value.claim.value.Proof() == proof
      && r.value.status.Running? && r.value.claim.value.startedAt.Some? && IsSha256(hash)
  {
    var job := ClaimedJob(s, id, proof);
    if !IsSha256(hash) then Err(CallerWorkProgressInvalid)
    else if job.Ok? && !(job.value.status.Running? && job.value.claim.value.startedAt.Some?)
    then Err(CallerWorkNotStarted)
    else job
  }

  function ReviewJob(s: RunState, id: string, proof: ClaimProof, reason: string, limitMs: int)
    : (r: Try<Job>)
    ensures r.Ok? ==>
      && id in s.jobs && r.value == s.jobs[id] && r.value.claim.Some?
      && r.value.claim.value.Proof() == proof && ValidReason(reason) && 1 <= limitMs
  {
    if !ValidReason(reason) || !SafeInteger(limitMs) || limitMs < 1
    then Err(CallerWorkReviewInvalid)
    else ClaimedJob(s, id, proof)
  }

  // The job a result is for, after the checks of the result itself.
  function ResultJob(s: RunState, id: string, status: Status,
                     startedAt: Option<int>, finishedAt: Option<int>): (r: Try<Job>)
    ensures r.Ok? ==> id in s.jobs && r.value == s.jobs[id] && status.Terminal()
  {
    if !status.Terminal() || (startedAt.Some? && finishedAt.Some? && finishedAt.value < startedAt.value)
    then Err(CallerJobResultInvalid)
    else if !s.executor.Caller? then Err(CallerExecutorRequired)
    else if id !in s.jobs then Err(JobNotFound)
    else Ok(s.jobs[id])
  }

  // Nothing speaks against this result of an active job that is not settled yet.
  predicate MaySubmit(log: seq<Event>, id: string, job: Job, status: Status, proof: Option<ClaimProof>, now: int) {
    && Active(job) && (job.spec.mode.Work? <==> proof.Some?)
    && (proof.Some? ==> MayReport(job, proof.value, now) && NoOtherIntent(log, id, proof.value, status))
  }

  // What the checks of a claim's holder, of progress and of a review let through.
  lemma HolderChecksAreExact(s: RunState, id: string, proof: ClaimProof, hash: string, reason: string, limitMs: int)
    ensures ClaimedJob(s, id, proof).Ok? <==>
      && s.executor == Caller && id in s.jobs && s.jobs[id].spec.mode == Work
      && (exists dir :: s.jobs[id].spec.workdir == Some(dir) && dir != "" && dir[0] == '/')
      && !IsBlank(proof.callerId) && ValidCallerId(proof.callerId)
      && !IsBlank(proof.claimId) && -MAX_SAFE_INTEGER <= proof.fencingToken <= MAX_SAFE_INTEGER
      && s.jobs[id].claim.Some?
      && var claim := s.jobs[id].claim.value;
      && claim.claimId == proof.claimId && claim.callerId == proof.callerId && claim.fencingToken == proof.fencingToken
      && claim.taskHash == s.jobs[id].spec.hash && Some(claim.workdir) == s.jobs[id].spec.workdir
    ensures ProgressJob(s, id, proof, hash).Ok? <==>
      && IsSha256(hash) && ClaimedJob(s, id, proof).Ok?
      && s.jobs[id].status == Running && s.jobs[id].claim.value.startedAt != None
    ensures ReviewJob(s, id, proof, reason, limitMs).Ok? <==>
      && !IsBlank(reason) && |reason| <= 1_024 && 1 <= limitMs <= MAX_SAFE_INTEGER && ClaimedJob(s, id, proof).Ok?
  {
    hide IsBlank, IsSha256;
    assert id in s.jobs && s.jobs[id].spec.workdir.Some? ==>
      s.jobs[id].spec.workdir == Some(s.jobs[id].spec.workdir.value);
  }

  // What a claim is granted for.
  lemma ClaimChecksAreExact(s: RunState, id: string, callerId: string, ttlMs: int, now: int)
    ensures ClaimRefusal(s, id, callerId, ttlMs, now).None? <==>
      && !IsBlank(callerId) && |callerId| <= 256
      && (forall i :: 0 <= i < |callerId| ==> ' ' <= callerId[i] && callerId[i] != '\U{007F}')
      && 1_000 <= ttlMs <= 86_400_000
      && s.executor == Caller && id in s.jobs && s.jobs[id].spec.mode == Work
      && (exists dir :: s.jobs[id].spec.workdir == Some(dir) && dir != "" && dir[0] == '/')
      && s.jobs[id].status in {Pending, Running}
      && (s.jobs[id].claim.Some? && now < s.jobs[id].claim.value.expiresAt ==>
          s.jobs[id].claim.value.callerId == callerId)
  {
    hide IsBlank;
    assert id in s.jobs && s.jobs[id].spec.workdir.Some? ==>
      s.jobs[id].spec.workdir == Some(s.jobs[id].spec.workdir.value);
  }

  // A result is for a job of a caller run, terminal, and does not end before it starts.
  lemma ResultChecksAreExact(s: RunState, id: string, status: Status, startedAt: Option<int>, finishedAt: Option<int>)
    ensures ResultJob(s, id, status, startedAt, finishedAt).Ok? <==>
      && status in {Succeeded, Failed, TimedOut, Cancelled, Ambiguous}
      && (startedAt.Some? && finishedAt.Some? ==> startedAt.value <= finishedAt.value)
      && s.executor == Caller && id in s.jobs
  {
  }

  // Why a submission is refused, given what is persisted and declared.
  predicate SubmissionRefused(job: Job, bound: Status, persisted: Option<Record>, intent: Option<Status>)
  {
    || (persisted.Some? && bound.Succeeded? && Active(job) && intent != Some(Succeeded))
    || (intent.Some? && intent.value != bound)
  }

  // callerWorkResultIntentStatus: the first declared result of this exact claim.
  method ResultIntentStatus(log: seq<Event>, id: string, proof: ClaimProof) returns (r: Option<Status>)
    ensures r.Some? ==> HasIntent(log, id, r.value, proof)
    ensures r.None? <==> NoIntent(log, id, proof)
  {
    for i := 0 to |log|
      invariant forall j :: 0 <= j < i ==>
        !(log[j].ResultIntent? && log[j].jobId == id && log[j].proof == proof)
    {
      var e := log[i];
      if e.ResultIntent? && e.jobId == id && e.proof == proof {
        assert log[i] == ResultIntent(id, e.status, proof);
        return Some(e.status);
      }
    }
    r := None;
  }

  // priorProgressEvidence: the latest progress event with this evidence, if any.
  method PriorProgress(log: seq<Event>, id: string, claimId: string, hash: string)
    returns (r: Option<(int, ProgressKind)>)
    ensures r.Some? <==> HasProgress(log, id, claimId, hash)
    ensures r.Some? ==>
      exists i ::
        && 0 <= i < |log| && IsProgress(log[i], id, claimId, hash)
        && r.value == (log[i].progressAt, log[i].kind)
        && forall j :: i < j < |log| ==> !IsProgress(log[j], id, claimId, hash)
  {
    var i := |log| - 1;
    while 0 <= i
      invariant -1 <= i < |log|
      invariant forall j :: i < j < |log| ==> !IsProgress(log[j], id, claimId, hash)
    {
      if IsProgress(log[i], id, claimId, hash) {
        return Some((log[i].progressAt, log[i].kind));
      }
      i := i - 1;
    }
    r := None;
  }

  class Home {
    const runId: string
    var world: World
    var owned: bool
    var schedule: seq<seq<Interference>>
    var trace: seq<World>              // every world so far, each of which a crash may leave

    ghost predicate Valid()
      reads this
    {
      IsRun(trace) && trace[|trace| - 1] == world && Invariant(trace[0])
    }

    lemma Sound()
      requires Valid()
      ensures Invariant(world)
    {
      RunKeepsInvariant(trace, |trace| - 1);
    }

    // Nobody has taken the lease or settled the job.
    predicate Undisturbed(id: string)
      reads this
    {
      owned && id !in world.anchors
    }

    // Nobody else will ever act.
    predicate Alone()
      reads this
    {
      owned && schedule == []
    }

    // The job is not settled, and its status file does not start later than now.
    predicate Unsettled(id: string, now: int)
      reads this
    {
      id !in world.anchors && (id in world.files ==> world.files[id].startedAt <= now)
    }

    // Time has passed; while this process owns the lease nobody else appends.
    twostate predicate Advanced()
      reads this
    {
      && old(trace) <= trace
      && Later(old(world), world)
      && (owned ==> old(owned) && world.log == old(world.log) && world.state == old(world.state))
      && (old(Alone()) ==> Alone())
    }

    lemma JobSound(id: string)
      requires Valid() && id in world.state.jobs
      ensures JobInvariant(world.state.executor, world.state.jobs[id])
    {
      Sound();
    }

    // An event that made a job terminal has settled it for good.
    lemma SettledBy(from: nat, e: Event, job: Job)
      requires Valid() && TookEffect(world, from, e, job) && job.status.Terminal()
      ensures Settled(world.state, e.jobId)
    {
      Sound();
      EffectAdvances(world, from, e, job);
    }

    // Whatever happened since, the world is a later one.
    twostate lemma Aged()
      requires old(Valid()) && Valid() && old(trace) <= trace
      ensures Later(old(world), world)
    {
      var run := trace[|old(trace)| - 1..];
      RunKeepsInvariant(trace, |old(trace)| - 1);
      forall i | 0 <= i < |run| - 1 ensures Step(run[i], run[i + 1]) {
        var j := |old(trace)| - 1 + i;
        assert Step(trace[j], trace[j + 1]);
      }
      RunKeepsInvariant(run, |run| - 1);
    }

    // A process that has just claimed the run lease and loaded its store.
    constructor (runId: string, world: World, schedule: seq<seq<Interference>>)
      requires Invariant(world)
      ensures Valid() && owned && this.world == world && trace == [world]
      ensures this.schedule == schedule && this.runId == runId
    {
      this.runId := runId;
      this.world := world;
      this.owned := true;
      this.schedule := schedule;
      this.trace := [world];
    }

    // ------------------------------------------------------------ atomic accesses

    method Perform(a: Write)
      requires Valid() && Enabled(world, a)
      modifies this`world, this`trace
      ensures Valid() && world == Apply(old(world), a)
      ensures trace == old(trace) + [world] && Later(old(world), world)
    {
      world := Apply(world, a);
      trace := trace + [world];
      assert forall i :: 0 <= i < |trace| - 1 ==> Step(trace[i], trace[i + 1]) by {
        forall i | 0 <= i < |trace| - 1 ensures Step(trace[i], trace[i + 1]) {
          if i < |trace| - 2 {
            assert Step(old(trace)[i], old(trace)[i + 1]);
          }
        }
      }
      Aged();
    }

    // What the next access of this process finds.
    twostate function Seen(): (World, bool)
      reads this
    {
      if old(schedule) == [] then (old(world), old(owned)) else Disturbed(old(world), old(owned), old(schedule)[0])
    }

    method Interfere()
      requires Valid()
      modifies this
      ensures Valid() && Advanced()
      ensures old(schedule) == [] ==> world == old(world) && owned == old(owned) && schedule == []
      ensures old(schedule) != [] ==> schedule == old(schedule)[1..] && (Takeover in old(schedule)[0] ==> !owned)
      ensures (world, owned) == Seen()
    {
      LaterReflexive(world);
      if schedule == [] { return; }
      var todo := schedule[0];
      schedule := schedule[1..];
      while todo != []
        invariant Valid() && Advanced() && schedule == old(schedule)[1..]
        invariant Takeover in old(schedule)[0] ==> !owned || Takeover in todo
        invariant Disturbed(world, owned, todo) == Seen()
        decreases |todo|
      {
        match todo[0] {
          case Takeover => owned := false;
          case Other(write) =>
            if Enabled(world, write) && (write.Append? ==> !owned) {
              Perform(write);
            }
        }
        todo := todo[1..];
        Aged();
      }
    }

    // The run lease is given back, and claimed again for the next operation if it
    // is available.
    method Reacquire(available: bool)
      requires Valid()
      modifies this
      ensures Valid() && old(trace) <= trace && Later(old(world), world) && owned == available
      ensures old(schedule) == [] ==> world == old(world) && schedule == []
      ensures old(schedule) != [] ==> world == Disturbed(old(world), false, old(schedule)[0]).0
    {
      owned := false;
      Interfere();
      owned := available;
      Aged();
    }

    // RunStore.append: refused once the lease is gone, else appended and reduced.
    method AppendEvent(e: Event) returns (ok: bool)
      requires Valid() && (owned ==> MayAppend(world, e))
      modifies this
      ensures Valid() && old(trace) <= trace && Later(old(world), world)
      ensures ok ==> old(owned) && owned && world.log == old(world.log) + [e]
                     && world.state == Reduce(old(world.state), e)
      ensures ok && !e.JobRegistered? && e.jobId in old(world).state.jobs ==>
        TookEffect(world, |old(world).log|, e,
                   ReduceJob(world.state.executor, old(world).state.jobs[e.jobId], e))
      ensures owned <==> ok
      ensures old(Alone()) ==> ok && Alone() && world == Apply(old(world), Append(e))
      ensures old(schedule) != [] && Takeover in old(schedule)[0] ==> !ok
      ensures ok == Seen().1 && world == if ok then Apply(Seen().0, Append(e)) else Seen().0
    {
      Interfere();
      if !owned { return false; }
      Perform(Append(e));
      Aged();
      if e.jobId in old(world).state.jobs {
        LastTookEffect(trace, |old(world).log|, e);
      }
      ok := true;
    }

    method ReadAnchor(id: string) returns (r: Option<Record>)
      requires Valid()
      modifies this
      ensures Valid() && Advanced()
      ensures r == if id in world.anchors then Some(world.anchors[id]) else None
      ensures old(Alone()) ==> world == old(world)
      ensures (world, owned) == Seen()
    {
      Interfere();
      r := if id in world.anchors then Some(world.anchors[id]) else None;
    }

    method ReadFile(id: string) returns (r: Option<Record>)
      requires Valid()
      modifies this
      ensures Valid() && Advanced()
      ensures r == if id in world.files then Some(world.files[id]) else None
      ensures old(Alone()) ==> world == old(world)
      ensures (world, owned) == Seen()
    {
      Interfere();
      r := if id in world.files then Some(world.files[id]) else None;
    }

    // atomicCreateJson: exclusive creation of the anchor.
    method CreateAnchor(id: string, record: Record) returns (created: bool)
      requires Valid() && record.Terminal()
      requires id in world.anchors || Backed(world, id, record.status)
      modifies this
      ensures Valid() && Advanced()
      ensures id in world.anchors && (created ==> world.anchors[id] == record)
      ensures old(Alone()) && id !in old(world).anchors ==> created && world.files == old(world).files
      ensures created == (id !in Seen().0.anchors)
      ensures world == if created then Apply(Seen().0, Anchor(id, record)) else Seen().0
    {
      Interfere();
      created := id !in world.anchors;
      if created {
        BackedLater(old(world), world, id, record.status);
        Perform(Anchor(id, record));
        Aged();
      }
    }

    // atomicWriteJson on the replaceable status file.
    method WriteFile(id: string, record: Record)
      requires Valid()
      requires record.Terminal() ==> id in world.anchors && world.anchors[id] == record
      modifies this
      ensures Valid() && Advanced() && id in world.files && world.files[id] == record
      ensures old(Alone()) ==> world == Apply(old(world), File(id, record))
      ensures world == Apply(Seen().0, File(id, record)) && owned == Seen().1
    {
      Interfere();
      Perform(File(id, record));
      Aged();
    }

    // ------------------------------------------------------------- JobStatusStore

    method StatusRead(id: string) returns (r: Option<Record>)
      requires Valid()
      modifies this
      ensures Valid() && Advanced()
      ensures r.Some? && r.value.Terminal() ==> id in world.anchors && world.anchors[id] == r.value
      ensures r.Some? ==> PersistedStatus(world, id).Some?
      ensures old(Alone()) ==>
        && world == old(world) && r == PersistedStatus(world, id)
        && (id in world.anchors <==> r.Some? && r.value.Terminal())
    {
      r := ReadAnchor(id);
      Sound();
      if r.None? {
        r := ReadFile(id);
        Sound();
      }
      Aged();
    }

    method AnchorLegacyTerminal(id: string) returns (r: Option<Record>)
      requires Valid()
      modifies this
      ensures Valid() && Advanced()
      ensures r.Some? ==> id in world.anchors && world.anchors[id] == r.value
      ensures old(Alone()) ==>
        world == old(world) && r == if id in world.anchors then Some(world.anchors[id]) else None
    {
      r := ReadAnchor(id);
      if r.None? {
        r := ReadFile(id);
        Sound();
        if r.None? || !r.value.Terminal() {
          r := None;
        } else {
          var created := CreateAnchor(id, r.value);
          if !created {
            r := ReadAnchor(id);
          }
        }
      }
      Aged();
    }

    method StatusWrite(id: string, record: Record) returns (r: WriteOutcome)
      requires Valid()
      requires record.Terminal() ==> Backed(world, id, record.status)
      modifies this
      ensures Valid() && Advanced()
      ensures r.Written? && record.Terminal() ==> id in world.anchors && world.anchors[id] == record
      ensures r.Invalid? <==>
        || (record.finishedAt.Some? && record.finishedAt.value < record.startedAt)
        || (!record.Terminal() && (record.result.Some? || record.finishedAt.Some?))
      ensures r.Conflict? ==> id in world.anchors && world.anchors[id] != record
      ensures r.AlreadyTerminal? ==> id in world.anchors && !record.Terminal()
      ensures r.Written? && !record.Terminal() ==> id !in world.anchors && id in world.files
      ensures (r.Written? && record.Terminal()) || r.AlreadyTerminal? ==>
        id in world.anchors && id in world.files && world.files[id] == world.anchors[id]
      ensures old(Alone()) && id !in old(world).anchors && record.Valid() ==>
        r.Written? && world.files == old(world).files[id := record]
      ensures old(Alone()) && id in old(world).anchors && record.Valid() ==>
        r == if !record.Terminal() then AlreadyTerminal else if record == old(world).anchors[id] then Written else Conflict
    {
      hide IsRun, Invariant, Backed, Disturbed;
      if !record.Valid() {
        r := Invalid;
      } else {
        var existing := AnchorLegacyTerminal(id);
        if record.Terminal() {
          var committed := existing;
          if committed.None? {
            BackedLater(old(world), world, id, record.status);
            var created := CreateAnchor(id, record);
            if created {
              committed := Some(record);
            } else {
              committed := ReadAnchor(id);
            }
          }
          if committed.value != record {
            r := Conflict;
          } else {
            WriteFile(id, record);
            r := Written;
          }
        } else if existing.Some? {
          WriteFile(id, existing.value);
          r := AlreadyTerminal;
        } else {
          WriteFile(id, record);
          var concurrent := ReadAnchor(id);
          if concurrent.Some? {
            WriteFile(id, concurrent.value);
            r := AlreadyTerminal;
          } else {
            r := Written;
          }
        }
      }
      Aged();
    }

    // ------------------------------------------------------------ claim operations

    // writeClaimJobStatus
    method WriteClaimStatus(id: string, job: Job, status: Status, now: int,
                            error: Option<Message>, progress: Option<(Phase, int)>)
      returns (r: WriteOutcome)
      requires Valid() && (status.Pending? || status.Running? || status.Ambiguous?)
      modifies this
      ensures Valid() && Advanced()
      ensures r.Written? && status.Ambiguous? ==>
        && AnchoredAs(world, id, Ambiguous)
        && world.anchors[id].error == error && world.anchors[id].finishedAt == Some(now)
        && (job.spec.mode.Work? ==> IsWorkResult(world.anchors[id], runId, job))
      ensures !status.Ambiguous? ==> (r.Written? <==> id !in world.anchors)
      ensures old(Alone() && Unsettled(id, now)) ==> r.Written? && (!status.Ambiguous? ==> id !in world.anchors)
      ensures old(Alone()) && id !in old(world).anchors && !status.Ambiguous? ==>
        && r.Written? && id !in world.anchors && id in world.files
        && Follows(world.files[id], PersistedStatus(old(world), id), now, progress)
        && (error.None? ==> Shows(world.files[id], runId, job, status))
    {
      var existing := StatusRead(id);
      var startedAt :=
        if existing.None? || (status.Running? && !existing.value.status.Running?)
        then now else existing.value.startedAt;
      var phase :=
        if progress.Some? then Some(progress.value.0)
        else if existing.Some? then existing.value.phase else None;
      var lastProgressAt :=
        if progress.Some? then Some(progress.value.1)
        else if existing.Some? then existing.value.lastProgressAt else None;
      var finishedAt := if status.Ambiguous? then Some(now) else None;
      r := StatusWrite(id, Record(status, Some(runId), Some(job.jobKey), Some(job.spec.lane),
                                  Some(job.spec.mode), true, startedAt, finishedAt, phase,
                                  lastProgressAt, None, error));
      Aged();
    }

    method ReadEvents() returns (log: seq<Event>)
      requires Valid()
      modifies this
      ensures Valid() && Advanced() && log == world.log
      ensures old(Alone()) ==> world == old(world)
      ensures (world, owned) == Seen()
    {
      Interfere();
      log := world.log;
    }

    // The anchored success of a work job was declared by the holder of its claim.
    lemma AnchorIsBacked(id: string)
      requires Valid()
      ensures id in world.anchors ==> Backed(world, id, world.anchors[id].status)
    {
      Sound();
    }

    lemma EachClaimDeclaresOnce()
      requires Valid()
      ensures OneIntent(world.log)
    {
      Sound();
    }

    // Whether the result that this claim declared is a success.
    method SuccessIsDeclared(id: string, claim: Claim) returns (declared: bool)
      requires Valid()
      modifies this
      ensures Valid() && Advanced() && (old(Alone()) ==> world == old(world))
      ensures declared <==> HasIntent(world.log, id, Succeeded, claim.Proof())
    {
      var events := ReadEvents();
      Sound();
      var intent := ResultIntentStatus(events, id, claim.Proof());
      declared := intent == Some(Succeeded);
      if intent.Some? && HasIntent(world.log, id, Succeeded, claim.Proof()) {
        IntentIsUnique(world.log, id, intent.value, Succeeded, claim.Proof());
      }
    }

    // restoreCallerWorkTerminalEvidence: true when a persisted terminal status of
    // the claimed job was imported into the log.
    method RestoreTerminalEvidence(id: string, job: Job, claim: Claim) returns (r: Try<bool>)
      requires Valid() && (owned ==> id in world.state.jobs && world.state.jobs[id] == job)
      modifies this
      ensures Valid() && old(trace) <= trace
      ensures owned ==> old(owned)
      ensures r.Err? ==> !SaysExpired(r.code)
      ensures r == Ok(false) ==> Advanced()
      ensures old(Alone()) && id !in old(world).anchors ==> r == Ok(false) && world == old(world)
      ensures old(Alone()) && id in old(world).anchors
              && job.claim == Some(claim) && job.spec.mode.Work? && ExactClaim(job, claim.Proof()).Ok? ==>
        if IsWorkResult(old(world).anchors[id], runId, job) then r == Ok(true) && Alone()
        else r == Err(CallerJobResultConflict)
      ensures r == Ok(true) ==>
        && id in world.anchors && world.anchors[id].Terminal()
        && var e := ImportOf(id, world.anchors[id]);
        && TookEffect(world, |old(world).log|, e, ReduceJobStatus(job, e))
        && (owned ==> world.state == Reduce(old(world).state, e))
    {
      hide IsRun, Invariant, TookEffect, PersistedStatus, ReduceJobStatus, ExactClaim, HasIntent;
      AnchorIsBacked(id);
      var persisted := StatusRead(id);
      if persisted.None? || !persisted.value.Terminal() { return Ok(false); }
      var terminal := persisted.value;
      var exact := ExactClaim(job, claim.Proof());
      if exact.Err? { return Err(exact.code); }
      var belongs :=
        && terminal.runId == Some(runId) && terminal.jobKey == Some(job.jobKey)
        && terminal.lane == Some(job.spec.lane) && terminal.mode == Some(Work)
        && terminal.foreground && (terminal.status.Succeeded? || terminal.status.Ambiguous?);
      if belongs && terminal.status.Succeeded? {
        if claim.startedAt.None? {
          belongs := false;
        } else {
          belongs := SuccessIsDeclared(id, claim);
        }
      }
      if !belongs { return Err(CallerJobResultConflict); }
      var e := ImportOf(id, terminal);
      var ok := AppendEvent(e);
      if !ok { return Err(EventRuntimeOwnerLost); }
      r := Ok(true);
    }

    // Append an event, then mirror the new state in the status file.
    method AppendThenMirror(e: Event, job: Job, status: Status, now: int, progress: Option<(Phase, int)>)
      returns (r: Try<()>)
      requires Valid() && !e.JobRegistered? && (owned ==>
        MayAppend(world, e) && e.jobId in world.state.jobs && world.state.jobs[e.jobId] == job)
      requires status.Pending? || status.Running?
      modifies this
      ensures Valid() && old(trace) <= trace && (owned ==> old(owned))
      ensures Undisturbed(e.jobId) ==> r.Ok?
      ensures r.Err? ==> !SaysExpired(r.code)
      ensures old(Alone()) && e.jobId !in old(world).anchors ==>
        && Alone() && Undisturbed(e.jobId) && e.jobId in world.files
        && Shows(world.files[e.jobId], runId, job, status)
        && Follows(world.files[e.jobId], PersistedStatus(old(world), e.jobId), now, progress)
      ensures r.Ok? ==>
        && old(owned) && e.jobId !in world.anchors
        && TookEffect(world, |old(world).log|, e, ReduceJob(old(world).state.executor, job, e))
      ensures r.Ok? && owned ==>
        && world.log == old(world).log + [e]
        && world.state == Reduce(old(world).state, e)
    {
      hide IsRun, Invariant, Shows, Follows, JobAfter, ReduceJob;
      var ok := AppendEvent(e);
      if !ok { return Err(EventRuntimeOwnerLost); }
      label appended:
      var written := WriteClaimStatus(e.jobId, job, status, now, None, progress);
      TookEffectLater(old@appended(world), world, |old(world).log|, e,
                      ReduceJob(old(world).state.executor, job, e));
      r := if written.Written? then Ok(()) else Err(WriteError(written));
    }

    // Commit the ambiguous anchor, then append the event that relies on it.
    method AnchorThenAppend(e: Event, job: Job, now: int, error: Message) returns (r: Try<bool>)
      requires Valid() && (e.BecameAmbiguous? || e.ReviewRequired?)
      requires owned ==> e.jobId in world.state.jobs && world.state.jobs[e.jobId] == job
      modifies this
      ensures Valid() && old(trace) <= trace && (owned ==> old(owned))
      ensures r.Ok? ==>
        && r.value && old(owned)
        && AnchoredAs(world, e.jobId, Ambiguous)
        && world.anchors[e.jobId].error == Some(error) && world.anchors[e.jobId].finishedAt == Some(now)
        && (job.spec.mode.Work? ==> IsWorkResult(world.anchors[e.jobId], runId, job))
        && TookEffect(world, |old(world).log|, e, ReduceJob(old(world).state.executor, job, e))
        && (owned ==> world.state == Reduce(old(world).state, e))
      ensures old(Alone() && Unsettled(e.jobId, now)) ==> r.Ok? && Alone()
      ensures r.Err? ==> !SaysExpired(r.code)
    {
      var written := WriteClaimStatus(e.jobId, job, Ambiguous, now, Some(error), None);
      if !written.Written? { return Err(WriteError(written)); }
      var ok := AppendEvent(e);
      r := if ok then Ok(true) else Err(EventRuntimeOwnerLost);
    }

    // persistStartedClaimAmbiguous: false when a terminal status was imported
    // instead.  The anchor comes before the event that relies on it.
    method PersistStartedClaimAmbiguous(id: string, job: Job, claim: Claim, now: int)
      returns (r: Try<bool>)
      requires Valid() && (owned ==> id in world.state.jobs && world.state.jobs[id] == job)
      requires Active(job) && job.claim == Some(claim) && claim.startedAt.Some?
      modifies this
      ensures Valid() && old(trace) <= trace && (owned ==> old(owned))
      ensures r.Ok? && owned ==>
        OnlyJob(old(world).state, world.state, id) && Settled(world.state, id)
      ensures r == Ok(true) ==>
        && AnchoredAs(world, id, Ambiguous)
        && world.anchors[id].error == Some(ExpiredAfterStart) && world.anchors[id].finishedAt == Some(now)
        && (job.spec.mode.Work? ==> IsWorkResult(world.anchors[id], runId, job))
        && TookEffect(world, |old(world).log|,
                      BecameAmbiguous(id, claim.Proof(), ExpiredAfterStart, now),
                      job.(status := Ambiguous, error := Some(ExpiredAfterStart)))
      ensures old(Alone() && Unsettled(id, now)) ==> r == Ok(true)
      ensures r.Err? ==> !SaysExpired(r.code)
    {
      if owned { JobSound(id); }
      var restored := RestoreTerminalEvidence(id, job, claim);
      if restored.Err? { return Err(restored.code); }
      if restored.value { return Ok(false); }
      r := AnchorThenAppend(BecameAmbiguous(id, claim.Proof(), ExpiredAfterStart, now), job, now,
                            ExpiredAfterStart);
    }

    // releaseExpiredUnstartedClaim, and the explicit release before start.
    method ReleaseUnstartedClaim(id: string, job: Job, claim: Claim, now: int, reason: ReleaseReason)
      returns (r: Try<()>)
      requires Valid() && (owned ==> id in world.state.jobs && world.state.jobs[id] == job)
      requires Active(job) && job.claim == Some(claim) && claim.startedAt.None?
      modifies this
      ensures Valid() && old(trace) <= trace && (owned ==> old(owned))
      ensures Undisturbed(id) ==> r.Ok?
      ensures old(Alone()) && id !in old(world).anchors ==>
        && r.Ok? && Alone() && id !in world.anchors && id in world.files && Shows(world.files[id], runId, job, Pending)
        && Follows(world.files[id], PersistedStatus(old(world), id), now, None)
      ensures r.Err? ==> !SaysExpired(r.code)
      ensures r.Ok? ==>
        TookEffect(world, |old(world).log|, Released(id, claim.Proof(), reason, now),
                   job.(claim := None))
      ensures r.Ok? && owned ==>
        && world.log == old(world).log + [Released(id, claim.Proof(), reason, now)]
        && world.state == old(world).state.(jobs := old(world).state.jobs[id := job.(claim := None)])
    {
      if owned { JobSound(id); }
      r := AppendThenMirror(Released(id, claim.Proof(), reason, now), job, Pending, now, None);
    }

    // assertClaimNotExpired: nothing has happened when it returns no error.
    method AssertClaimNotExpired(id: string, job: Job, claim: Claim, now: int) returns (error: Option<Refusal>)
      requires Valid() && (owned ==> id in world.state.jobs && world.state.jobs[id] == job)
      requires Active(job) && job.claim == Some(claim)
      modifies this
      ensures Valid() && old(trace) <= trace && (owned ==> old(owned))
      ensures error.None? ==>
        && world == old(world) && owned == old(owned) && schedule == old(schedule)
        && claim.heartbeatAt <= now < claim.expiresAt
      ensures claim.heartbeatAt <= now < claim.expiresAt ==> error.None?
      ensures now < claim.heartbeatAt ==> error == Some(CallerWorkClockRegression) && world == old(world)
      ensures error == Some(CallerWorkClaimExpired) ==>
        && claim.startedAt.None?
        && TookEffect(world, |old(world).log|, Released(id, claim.Proof(), ExpiredBeforeStart, now), job.(claim := None))
      ensures error == Some(CallerWorkBecameAmbiguous) ==>
        && claim.startedAt.Some? && AnchoredAs(world, id, Ambiguous)
        && TookEffect(world, |old(world).log|, BecameAmbiguous(id, claim.Proof(), ExpiredAfterStart, now),
                      job.(status := Ambiguous, error := Some(ExpiredAfterStart)))
      ensures old(Alone() && Unsettled(id, now)) && claim.heartbeatAt <= now && claim.expiresAt <= now ==>
        error == Some(if claim.startedAt.Some? then CallerWorkBecameAmbiguous else CallerWorkClaimExpired)
    {
      if now < claim.heartbeatAt { return Some(CallerWorkClockRegression); }
      if !ClaimExpired(claim, now) { return None; }
      if claim.startedAt.Some? {
        var marked := PersistStartedClaimAmbiguous(id, job, claim, now);
        if marked.Err? { return Some(marked.code); }
        return Some(if marked.value then CallerWorkBecameAmbiguous else CallerWorkNotActive);
      }
      var released := ReleaseUnstartedClaim(id, job, claim, now, ExpiredBeforeStart);
      if released.Err? { return Some(released.code); }
      error := Some(CallerWorkClaimExpired);
    }

    method AppendClaim(id: string, job: Job, claim: Claim, now: int) returns (r: Try<()>)
      requires Valid() && (owned ==> id in world.state.jobs && world.state.jobs[id] == job)
      requires owned ==> Claimable(world.state.executor, job, claim) && claim.heartbeatAt == now
      modifies this
      ensures Valid() && old(trace) <= trace && (owned ==> old(owned))
      ensures Undisturbed(id) ==> r.Ok?
      ensures old(Alone()) && id !in old(world).anchors ==>
        && r.Ok? && id in world.files && Shows(world.files[id], runId, job, Pending)
        && Follows(world.files[id], PersistedStatus(old(world), id), now, None)
      ensures r.Ok? ==> TookEffect(world, |old(world).log|, Claimed(id, claim), AfterClaim(job, claim))
    {
      hide TookEffect;
      r := AppendThenMirror(Claimed(id, claim), job, Pending, now, None);
    }

    // An expired claim, or a live one without a pinned directory, is taken from its job;
    // a started one that expired leaves the job ambiguous.
    method FreeJob(id: string, job: Job, existing: Claim, now: int) returns (r: Try<Job>)
      requires Valid() && (owned ==> id in world.state.jobs && world.state.jobs[id] == job)
      requires Active(job) && job.claim == Some(existing) && (existing.startedAt.Some? ==> ClaimExpired(existing, now))
      modifies this
      ensures Valid() && old(trace) <= trace && Later(old(world), world)
      ensures r.Ok? ==>
        && old(owned) && owned && existing.startedAt.None? && r.value == job.(claim := None)
        && world.state == old(world).state.(jobs := old(world).state.jobs[id := r.value])
        && TookEffect(world, |old(world).log|,
                      Released(id, existing.Proof(),
                               if existing.expiresAt <= now then ExpiredBeforeStart else IdentityUpgradeBeforeStart, now),
                      r.value)
      ensures r == Err(CallerWorkBecameAmbiguous) ==>
        && AnchoredAs(world, id, Ambiguous) && world.anchors[id].finishedAt == Some(now)
        && TookEffect(world, |old(world).log|, BecameAmbiguous(id, existing.Proof(), ExpiredAfterStart, now),
                      job.(status := Ambiguous, error := Some(ExpiredAfterStart)))
      ensures old(Alone() && Unsettled(id, now)) ==>
        if existing.startedAt.Some? then r == Err(CallerWorkBecameAmbiguous)
        else r.Ok? && Alone() && id !in world.anchors
    {
      hide TookEffect, Invariant, IsRun, Shows, JobAfter;
      LaterReflexive(world);
      if existing.startedAt.Some? {
        var marked := PersistStartedClaimAmbiguous(id, job, existing, now);
        Aged();
        if marked.Err? { return Err(marked.code); }
        return Err(if marked.value then CallerWorkBecameAmbiguous else CallerWorkNotActive);
      }
      var reason := if ClaimExpired(existing, now) then ExpiredBeforeStart else IdentityUpgradeBeforeStart;
      var released := ReleaseUnstartedClaim(id, job, existing, now, reason);
      Aged();
      if released.Err? { return Err(released.code); }
      if !owned { return Err(EventRuntimeOwnerLost); }
      r := Ok(world.state.jobs[id]);
    }

    // A new claim of a job without one.
    method GrantClaim(id: string, job: Job, callerId: string, ttlMs: int, now: int,
                      observed: Option<WorkdirIdentity>, freshId: string)
      returns (r: Try<Claim>)
      requires Valid() && (owned ==> id in world.state.jobs && world.state.jobs[id] == job && world.state.executor.Caller?)
      requires job.spec.mode.Work? && job.claim.None? && job.spec.workdir.Some? && 0 <= job.nextFencingToken
      requires ValidClaimId(freshId) && ValidCallerId(callerId) && ValidTtl(ttlMs)
      modifies this
      ensures Valid() && old(trace) <= trace && Later(old(world), world)
      ensures r.Ok? ==>
        && observed.Some? && job.status.Pending?
        && r.value == Claim(freshId, callerId, job.nextFencingToken + 1, job.spec.hash, job.spec.workdir.value,
                            observed, now, now, now + ttlMs, ttlMs, None, None, None, None, None)
        && TookEffect(world, |old(world).log|, Claimed(id, r.value), AfterClaim(job, r.value))
      ensures job.status.Pending? && observed.None? ==> r == Err(CallerWorkdirUnavailable)
      ensures job.status.Pending? && observed.Some? && Undisturbed(id) ==> r.Ok?
      ensures job.status.Pending? && observed.Some? && old(Alone()) && id !in old(world).anchors ==>
        r.Ok? && id in world.files && Shows(world.files[id], runId, job, Pending)
    {
      hide TookEffect, Invariant, IsRun, AfterClaim, Shows, ValidClaimId, ValidCallerId;
      LaterReflexive(world);
      if !job.status.Pending? { return Err(CallerWorkClaimStateInvalid); }
      if observed.None? { return Err(CallerWorkdirUnavailable); }
      var claim := Claim(freshId, callerId, job.nextFencingToken + 1, job.spec.hash,
                         job.spec.workdir.value, observed, now, now, now + ttlMs, ttlMs,
                         None, None, None, None, None);
      var appended := AppendClaim(id, job, claim, now);
      Aged();
      r := if appended.Err? then Err(appended.code) else Ok(claim);
    }

    // claimCueLineCallerJob.  A new claim carries the next token; the reducer accepts
    // it, and it is what the job then holds, as long as that token is a safe integer.
    method ClaimJob(id: string, callerId: string, requestedTtl: Option<int>, now: int,
                    observed: Option<WorkdirIdentity>, freshId: string)
      returns (r: Try<ClaimOutcome>)
      requires Valid() && owned && ValidClaimId(freshId)
      modifies this
      ensures Valid() && old(trace) <= trace
      ensures r.Ok? ==> id in old(world).state.jobs
      ensures r.Ok? && r.value.AlreadyClaimed? ==>
        && world == old(world) && world.state.jobs[id].claim == Some(r.value.claim)
        && r.value.claim.callerId == callerId && now < r.value.claim.expiresAt
      ensures r.Ok? && r.value.NewlyClaimed? ==>
        var claim, job := r.value.claim, old(world).state.jobs[id];
        && claim.callerId == callerId && claim.claimId == freshId && claim.startedAt.None?
        && claim.identity == observed && observed.Some?
        && claim.taskHash == job.spec.hash && Some(claim.workdir) == job.spec.workdir
        && claim.fencingToken == job.nextFencingToken + 1
        && claim.heartbeatAt == now && claim.expiresAt == now + claim.ttlMs
        && claim.ttlMs == (if requestedTtl.Some? then requestedTtl.value else 300_000)
        && (job.claim.Some? ==>
            && job.claim.value.startedAt.None?
            && (now < job.claim.value.expiresAt ==> job.claim.value.identity.None?)
            && TookEffect(world, |old(world).log|,
                          Released(id, job.claim.value.Proof(),
                                   if job.claim.value.expiresAt <= now then ExpiredBeforeStart
                                   else IdentityUpgradeBeforeStart, now),
                          job.(claim := None)))
        && TookEffect(world, |old(world).log|, Claimed(id, claim),
                      AfterClaim(job.(claim := None), claim))
      ensures var refusal := ClaimRefusal(old(world).state, id, callerId, TtlOf(requestedTtl), now);
        && (refusal.Some? ==> r == Err(refusal.value) && world == old(world))
        && (refusal.None? && old(world).state.jobs[id].claim.None? && observed.Some? && Undisturbed(id) ==> r.Ok?)
      ensures old(Alone() && Unsettled(id, now))
              && ClaimRefusal(old(world).state, id, callerId, TtlOf(requestedTtl), now).None? ==>
        var job := old(world).state.jobs[id];
        if job.claim.Some? && job.claim.value.startedAt.Some? && job.claim.value.expiresAt <= now
        then r == Err(CallerWorkBecameAmbiguous)
        else if job.claim.Some? && now < job.claim.value.expiresAt
                && (job.claim.value.identity.Some? || job.claim.value.startedAt.Some?)
        then r == Ok(AlreadyClaimed(job.claim.value))
        else if observed.None? then r == Err(CallerWorkdirUnavailable)
        else r.Ok? && r.value.NewlyClaimed? && id in world.files && Shows(world.files[id], runId, job, Pending)
    {
      hide TookEffect, Invariant, IsRun, ReduceClaimed, ReduceReleased;
      if !ValidCallerId(callerId) { return Err(CallerIdInvalid); }
      var ttlMs := TtlOf(requestedTtl);
      if !ValidTtl(ttlMs) { return Err(CallerWorkClaimTtlInvalid); }
      var checked := CallerWorkJob(world.state, id);
      if checked.Err? { return Err(checked.code); }
      var job := checked.value;
      JobSound(id);
      if !Active(job) { return Err(CallerWorkNotClaimable); }
      if job.claim.Some? {
        var existing := job.claim.value;
        if !ClaimExpired(existing, now) {
          if existing.callerId != callerId { return Err(CallerWorkAlreadyClaimed); }
          if existing.identity.Some? || existing.startedAt.Some? {
            return Ok(AlreadyClaimed(existing));
          }
        }
        var freed := FreeJob(id, job, existing, now);
        if freed.Err? { return Err(freed.code); }
        job := freed.value;
      }
      label settled:
      var granted := GrantClaim(id, job, callerId, ttlMs, now, observed, freshId);
      if granted.Err? { return Err(granted.code); }
      var claim := granted.value;
      EffectFrom(world, |old@settled(world).log|, |old(world).log|, Claimed(id, claim), AfterClaim(job, claim));
      var before := old(world).state.jobs[id];
      if before.claim.Some? {
        TookEffectLater(old@settled(world), world, |old(world).log|,
                        Released(id, before.claim.value.Proof(),
                                 if before.claim.value.expiresAt <= now then ExpiredBeforeStart
                                 else IdentityUpgradeBeforeStart, now),
                        before.(claim := None));
      }
      r := Ok(NewlyClaimed(claim));
    }

    // startCueLineCallerJob.
    method StartJob(id: string, proof: ClaimProof, now: int, observed: Option<WorkdirIdentity>)
      returns (r: Try<Mutation>)
      requires Valid() && owned
      modifies this
      ensures Valid() && old(trace) <= trace
      ensures r.Ok? ==>
        && id in old(world).state.jobs && old(world).state.jobs[id].claim.Some?
        && var job := old(world).state.jobs[id];
        && var claim := job.claim.value;
        && claim.Proof() == proof && claim.heartbeatAt <= now < claim.expiresAt
        && if claim.startedAt.Some? then
             world == old(world) &&
             r.value == Mutation(AlreadyStarted, claim.heartbeatAt, claim.expiresAt, Some(now),
                                 claim.startedAt, claim.lastProgressAt)
           else
             && r.value == Mutation(StartRecorded, now, now + claim.ttlMs, Some(now), Some(now), Some(now))
             && claim.identity == observed
             && TookEffect(world, |old(world).log|, StartOf(id, claim, now), AfterStart(job, claim, now))
      ensures var refusal := HolderRefusal(old(world).state, id, proof, now, CallerWorkNotStartable);
        refusal.Some? ==> r == Err(refusal.value) && world == old(world)
      ensures HeldLive(old(world).state, id, proof, now) && Undisturbed(id) ==>
        var claim := old(world).state.jobs[id].claim.value;
        (r.Ok? <==> if claim.identity.Some? then claim.identity == observed else claim.startedAt.Some?)
      ensures old(Alone()) && id !in old(world).anchors && HeldLive(old(world).state, id, proof, now) ==>
        && Alone() && Undisturbed(id)
        && (r.Ok? && r.value.kind.StartRecorded? ==>
            && id in world.files && Follows(world.files[id], PersistedStatus(old(world), id), now, Some((WorkStarted, now)))
            && Shows(world.files[id], runId, old(world).state.jobs[id], Running)
            && world.files[id].phase == Some(WorkStarted) && world.files[id].lastProgressAt == Some(now))
    {
      hide TookEffect;
      var loaded := ClaimedJob(world.state, id, proof);
      if loaded.Err? { return Err(loaded.code); }
      var job, claim := loaded.value, loaded.value.claim.value;
      JobSound(id);
      if !Active(job) { return Err(CallerWorkNotStartable); }
      var expired := AssertClaimNotExpired(id, job, claim, now);
      if expired.Some? { return Err(expired.value); }
      if claim.startedAt.Some? {
        if claim.identity.Some? && claim.identity != observed {
          return Err(CallerWorkdirIdentityMismatch);
        }
        return Ok(Mutation(AlreadyStarted, claim.heartbeatAt, claim.expiresAt, Some(now),
                           claim.startedAt, claim.lastProgressAt));
      }
      if claim.identity.None? { return Err(CallerWorkdirIdentityRequired); }
      if claim.identity != observed { return Err(CallerWorkdirIdentityMismatch); }
      StartEffect(world.state.executor, job, claim, id, now);
      var appended := AppendThenMirror(StartOf(id, claim, now), job, Running, now,
                                       Some((WorkStarted, now)));
      if appended.Err? { return Err(appended.code); }
      r := Ok(Mutation(StartRecorded, now, now + claim.ttlMs, Some(now), Some(now), Some(now)));
    }

    // heartbeatCueLineCallerJob.  A renewal never moves the start or the progress.
    method HeartbeatJob(id: string, proof: ClaimProof, now: int) returns (r: Try<Mutation>)
      requires Valid() && owned
      modifies this
      ensures Valid() && old(trace) <= trace
      ensures r.Ok? ==>
        && id in old(world).state.jobs && old(world).state.jobs[id].claim.Some?
        && var job := old(world).state.jobs[id];
        && var claim := job.claim.value;
        && claim.Proof() == proof && claim.heartbeatAt <= now < claim.expiresAt
        && r.value == Mutation(HeartbeatRecorded, now, now + claim.ttlMs, Some(now),
                               claim.startedAt, claim.lastProgressAt)
        && TookEffect(world, |old(world).log|, Heartbeat(id, proof, now, now + claim.ttlMs),
                      job.(claim := Some(Renewed(claim, now))))
      ensures var refusal := HolderRefusal(old(world).state, id, proof, now, CallerWorkNotActive);
        refusal.Some? ==> r == Err(refusal.value) && world == old(world)
      ensures HeldLive(old(world).state, id, proof, now) && Undisturbed(id) ==> r.Ok?
      ensures old(Alone()) && id !in old(world).anchors && HeldLive(old(world).state, id, proof, now) ==>
        && id in world.files
        && var job := old(world).state.jobs[id];
        && Shows(world.files[id], runId, job, if job.claim.value.startedAt.None? then Pending else Running)
        && Follows(world.files[id], PersistedStatus(old(world), id), now, None)
    {
      hide TookEffect;
      var loaded := ClaimedJob(world.state, id, proof);
      if loaded.Err? { return Err(loaded.code); }
      var job, claim := loaded.value, loaded.value.claim.value;
      JobSound(id);
      if !Active(job) { return Err(CallerWorkNotActive); }
      var expired := AssertClaimNotExpired(id, job, claim, now);
      if expired.Some? { return Err(expired.value); }
      var e := Heartbeat(id, proof, now, now + claim.ttlMs);
      HeartbeatEffect(world.state.executor, job, claim, id, now);
      var status := if claim.startedAt.None? then Pending else Running;
      var appended := AppendThenMirror(e, job, status, now, None);
      if appended.Err? { return Err(appended.code); }
      r := Ok(Mutation(HeartbeatRecorded, now, now + claim.ttlMs, Some(now),
                       claim.startedAt, claim.lastProgressAt));
    }

    // The history scan finds what the dedup index holds, and while the lease is held
    // nothing else.
    method FindPriorProgress(id: string, claim: Claim, hash: string) returns (r: Option<(int, ProgressKind)>)
      requires Valid() && id in world.state.jobs && world.state.jobs[id].claim == Some(claim)
      modifies this
      ensures Valid() && Advanced()
      ensures r.Some? <==> HasProgress(world.log, id, claim.claimId, hash)
      ensures hash in claim.Hashes() ==> r.Some?
      ensures old(Alone()) ==> world == old(world)
      ensures owned && r.Some? ==> hash in claim.Hashes()
    {
      var events := ReadEvents();
      IndexSurvives(trace, |old(trace)| - 1, id, hash);
      r := PriorProgress(events, id, claim.claimId, hash);
    }

    // recordCueLineCallerJobProgress.  Evidence is recorded once per claim, however
    // far back the first recording lies.
    method RecordProgress(id: string, proof: ClaimProof, kind: ProgressKind, hash: string, now: int)
      returns (r: Try<Mutation>)
      requires Valid() && owned
      modifies this
      ensures Valid() && old(trace) <= trace
      ensures r.Ok? ==> id in old(world).state.jobs && old(world).state.jobs[id].claim.Some?
      ensures r.Ok? ==>
        var claim := old(world).state.jobs[id].claim.value;
        && claim.Proof() == proof && claim.startedAt.Some?
        && (r.value.kind.ProgressAlreadyRecorded? || r.value.kind.ProgressRecorded?)
        && (hash in claim.Hashes() ==> r.value.kind.ProgressAlreadyRecorded?)
      ensures r.Ok? && r.value.kind.ProgressAlreadyRecorded? ==>
        var claim := old(world).state.jobs[id].claim.value;
        && HasProgress(world.log, id, claim.claimId, hash)
        && (owned ==> hash in claim.Hashes() && world.state == old(world).state)
        && r.value.heartbeatAt == claim.heartbeatAt && r.value.expiresAt == claim.expiresAt
      ensures r.Ok? && r.value.kind.ProgressRecorded? ==>
        var job := old(world).state.jobs[id];
        var claim := job.claim.value;
        && r.value == Mutation(ProgressRecorded, now, now + claim.ttlMs, None, None, Some(now))
        && TookEffect(world, |old(world).log|, ProgressOf(id, claim, now, kind, hash),
                      AfterProgress(job, claim, now, kind, hash))
      ensures ProgressJob(old(world).state, id, proof, hash).Err? ==>
        r == Err(ProgressJob(old(world).state, id, proof, hash).code) && world == old(world)
      ensures (ProgressJob(old(world).state, id, proof, hash).Ok? && HeldLive(old(world).state, id, proof, now)
               && Undisturbed(id)) ==> r.Ok?
      ensures old(Alone()) && id !in old(world).anchors && r.Ok? && r.value.kind.ProgressRecorded? ==>
        && id in world.files && Shows(world.files[id], runId, old(world).state.jobs[id], Running)
        && world.files[id].phase == Some(ProgressMade(kind)) && world.files[id].lastProgressAt == Some(now)
    {
      hide TookEffect, IsRun, Invariant, ExactClaim, HasProgress, ReduceProgress, IsSha256;
      var loaded := ProgressJob(world.state, id, proof, hash);
      if loaded.Err? { return Err(loaded.code); }
      var job, claim := loaded.value, loaded.value.claim.value;
      JobSound(id);
      var expired := AssertClaimNotExpired(id, job, claim, now);
      if expired.Some? { return Err(expired.value); }
      var prior := FindPriorProgress(id, claim, hash);
      if prior.Some? {
        return Ok(Mutation(ProgressAlreadyRecorded, claim.heartbeatAt, claim.expiresAt, None, None,
                           Some(prior.value.0)));
      }
      if owned { ProgressEffect(world.state.executor, job, claim, id, now, kind, hash); }
      var appended := AppendThenMirror(ProgressOf(id, claim, now, kind, hash), job, Running, now,
                                       Some((ProgressMade(kind), now)));
      if appended.Err? { return Err(appended.code); }
      r := Ok(Mutation(ProgressRecorded, now, now + claim.ttlMs, None, None, Some(now)));
    }

    // requireCueLineCallerJobReview: true when the review was appended.  The event
    // takes effect exactly when the limit fits a timer; beyond it the anchor is
    // ambiguous while the log still says running.
    method RequireReview(id: string, proof: ClaimProof, reviewReason: ReviewReason, reason: string,
                         limitMs: int, now: int)
      returns (r: Try<bool>)
      requires Valid() && owned
      modifies this
      ensures Valid() && old(trace) <= trace
      ensures r.Ok? ==> id in old(world).state.jobs && old(world).state.jobs[id].claim.Some?
      ensures r == Ok(true) ==>
        var job := old(world).state.jobs[id];
        var claim := job.claim.value;
        && claim.Proof() == proof && claim.startedAt.Some?
        && AnchoredAs(world, id, Ambiguous)
        && world.anchors[id].error == Some(Given(reason)) && world.anchors[id].finishedAt == Some(now)
        && IsWorkResult(world.anchors[id], runId, job)
        && TookEffect(world, |old(world).log|,
                      ReviewOf(id, claim, reviewReason, reason, limitMs, now),
                      if limitMs <= MAX_TIMER_DELAY_MS
                      then job.(status := Ambiguous, error := Some(Given(reason))) else job)
      ensures r.Ok? && (r.value ==> limitMs <= MAX_TIMER_DELAY_MS) ==> Settled(world.state, id)
      ensures var loaded := ReviewJob(old(world).state, id, proof, reason, limitMs);
        && (loaded.Err? ==> r == Err(loaded.code) && world == old(world))
        && (loaded.Ok? && old(Alone() && Unsettled(id, now)) && MayReport(loaded.value, proof, now) ==>
            r == Ok(true))
    {
      hide TookEffect, IsRun, Invariant, ExactClaim, ValidReason;
      var loaded := ReviewJob(world.state, id, proof, reason, limitMs);
      if loaded.Err? { return Err(loaded.code); }
      var job, claim := loaded.value, loaded.value.claim.value;
      JobSound(id);
      if !Active(job) { return Ok(false); }
      if !job.status.Running? || claim.startedAt.None? { return Err(CallerWorkNotStarted); }
      var restored := RestoreTerminalEvidence(id, job, claim);
      if restored.Err? { return Err(restored.code); }
      if restored.value {
        SettledBy(|old(world).log|, ImportOf(id, world.anchors[id]),
                  ReduceJobStatus(job, ImportOf(id, world.anchors[id])));
        return Ok(false);
      }
      var expired := AssertClaimNotExpired(id, job, claim, now);
      if expired.Some? { return Err(expired.value); }
      var review := ReviewOf(id, claim, reviewReason, reason, limitMs, now);
      r := AnchorThenAppend(review, job, now, Given(reason));
      if r.Ok? && limitMs <= MAX_TIMER_DELAY_MS {
        SettledBy(|old(world).log|, review, job.(status := Ambiguous, error := Some(Given(reason))));
      }
    }

    // releaseCueLineCallerJob: only before the start.
    method ReleaseJob(id: string, proof: ClaimProof, now: int) returns (r: Try<()>)
      requires Valid() && owned
      modifies this
      ensures Valid() && old(trace) <= trace
      ensures r.Ok? ==> id in old(world).state.jobs && old(world).state.jobs[id].claim.Some?
      ensures r.Ok? ==>
        var job := old(world).state.jobs[id];
        && job.claim.value.Proof() == proof && job.claim.value.startedAt.None?
        && TookEffect(world, |old(world).log|, Released(id, proof, CallerReleasedBeforeStart, now),
                      job.(claim := None))
      ensures var refusal := HolderRefusal(old(world).state, id, proof, now, CallerWorkNotActive);
        refusal.Some? ==> r == Err(refusal.value) && world == old(world)
      ensures HeldLive(old(world).state, id, proof, now) && Undisturbed(id) ==>
        if old(world).state.jobs[id].claim.value.startedAt.Some?
        then r == Err(CallerWorkReleaseAfterStartForbidden) else r.Ok?
    {
      hide TookEffect;
      var loaded := ClaimedJob(world.state, id, proof);
      if loaded.Err? { return Err(loaded.code); }
      var job, claim := loaded.value, loaded.value.claim.value;
      if !Active(job) { return Err(CallerWorkNotActive); }
      var expired := AssertClaimNotExpired(id, job, claim, now);
      if expired.Some? { return Err(expired.value); }
      if claim.startedAt.Some? { return Err(CallerWorkReleaseAfterStartForbidden); }
      r := ReleaseUnstartedClaim(id, job, claim, now, CallerReleasedBeforeStart);
    }

    method SettleExpired(id: string, job: Job, now: int) returns (r: Try<()>)
      requires Valid() && (owned ==> id in world.state.jobs && world.state.jobs[id] == job)
      requires Expired(job, now)
      modifies this
      ensures Valid() && old(trace) <= trace && (owned ==> old(owned))
      ensures r.Ok? && owned ==>
        && OnlyJob(old(world).state, world.state, id)
        && !Expired(world.state.jobs[id], now)
    {
      var claim := job.claim.value;
      if claim.startedAt.None? {
        r := ReleaseUnstartedClaim(id, job, claim, now, ExpiredBeforeStart);
      } else {
        var marked := PersistStartedClaimAmbiguous(id, job, claim, now);
        r := if marked.Err? then Err(marked.code) else Ok(());
      }
    }

    // How many claims of this job have run out, and are settled now.
    method SettleIfExpired(id: string, job: Job, now: int) returns (r: Try<nat>)
      requires Valid() && (owned ==> id in world.state.jobs && world.state.jobs[id] == job)
      modifies this
      ensures Valid() && old(trace) <= trace && (owned ==> old(owned))
      ensures r.Ok? ==> r.value == if Expired(job, now) then 1 else 0
      ensures r.Ok? && owned ==>
        && OnlyJob(old(world).state, world.state, id)
        && (if Expired(job, now) then !Expired(world.state.jobs[id], now) else world.state == old(world).state)
    {
      hide IsRun, Invariant, Later;
      if !Expired(job, now) { return Ok(0); }
      var settled := SettleExpired(id, job, now);
      r := if settled.Err? then Err(settled.code) else Ok(1);
    }

    // reconcileExpiredCallerWorkClaims: afterwards no active work job holds an
    // expired claim, and the jobs without one are untouched.
    method ReconcileExpired(now: int) returns (r: Try<nat>)
      requires Valid() && owned
      modifies this
      ensures Valid() && old(trace) <= trace
      ensures r.Ok? && owned && old(world).state.executor.Caller? ==>
        NoneExpired(old(world).state.jobs, world.state.jobs, now)
      ensures r.Ok? && !old(world).state.executor.Caller? ==> r.value == 0
      ensures r.Ok? && old(world).state.executor.Caller? ==> r.value == |ExpiredIds(old(world).state.jobs, now)|
    {
      hide IsRun, Invariant, Later, ExpiredIds, Reconciled, Expired, NoneExpired;
      if !world.state.executor.Caller? { return Ok(0); }
      var jobs := world.state.jobs;
      var todo := jobs.Keys;
      var affected := 0;
      NothingReconciled(jobs, now);
      while todo != {}
        invariant Valid() && old(trace) <= trace && todo <= jobs.Keys
        invariant owned ==> Reconciled(jobs, world.state.jobs, todo, now)
        invariant affected == |ExpiredIds(jobs, now) - todo|
        decreases todo
      {
        var id :| id in todo;
        OneFewer(jobs, now, todo, id);
        if owned { StillAsBefore(jobs, world.state.jobs, todo, now, id); }
        ghost var before := world.state.jobs;
        var settled := SettleIfExpired(id, jobs[id], now);
        if settled.Err? { return Err(settled.code); }
        affected := affected + settled.value;
        if owned { OneReconciled(jobs, before, world.state.jobs, todo, now, id); }
        todo := todo - {id};
      }
      if owned { AllReconciled(jobs, world.state.jobs, now); }
      r := Ok(affected);
    }

    // ----------------------------------------------------------------- submission

    // The claim check of a result: true when the job is already terminal.
    // validateCallerWorkResultClaim.
    method ValidateResultClaim(id: string, job: Job, proof: ClaimProof, now: int, durableIntent: bool)
      returns (r: Try<bool>)
      requires Valid() && (owned ==> id in world.state.jobs && world.state.jobs[id] == job)
      modifies this
      ensures Valid() && old(trace) <= trace && (owned ==> old(owned))
      ensures r.Ok? ==> world == old(world) && owned == old(owned) && schedule == old(schedule)
      ensures r.Ok? ==> job.claim.Some? && job.claim.value.Proof() == proof
      ensures r.Ok? && !Active(job) ==> r.value
      ensures r.Ok? && Active(job) ==>
        !r.value && job.status.Running? && job.claim.value.startedAt.Some?
      ensures MayReport(job, proof, now) ==> r == Ok(false)
      ensures r == Ok(false) && !durableIntent ==>
        job.claim.value.heartbeatAt <= now < job.claim.value.expiresAt
      ensures durableIntent && ExactClaim(job, proof).Ok? && job.status.Running? && job.claim.value.startedAt.Some? ==>
        r == Ok(false)
    {
      var exact := ExactClaim(job, proof);
      if exact.Err? { return Err(exact.code); }
      var claim := exact.value;
      if !Active(job) { return Ok(true); }
      if !durableIntent {
        var expired := AssertClaimNotExpired(id, job, claim, now);
        if expired.Some? { return Err(expired.value); }
      }
      if claim.startedAt.None? || !job.status.Running? { return Err(CallerWorkNotStarted); }
      r := Ok(false);
    }

    // Append an event that changes no job.
    method AppendNote(e: Event) returns (ok: bool)
      requires Valid() && (e.ResultIntent? || e.ResultSubmitted? || e.WorkResultSubmitted?)
      requires owned && e.ResultIntent? ==> NoIntent(world.log, e.jobId, e.proof)
      modifies this
      ensures Valid() && old(trace) <= trace && Later(old(world), world) && (owned ==> old(owned))
      ensures owned <==> ok
      ensures ok ==> old(owned) && world.log == old(world).log + [e] && world.state == old(world).state
      ensures old(Alone()) ==> ok && Alone() && world.anchors == old(world).anchors
    {
      ok := AppendEvent(e);
      if ok {
        assert world.state.jobs == old(world).state.jobs;
      }
    }

    // Declare a result before anything else; a declared success may be anchored.
    method DeclareIntent(id: string, job: Job, status: Status, proof: ClaimProof) returns (ok: bool)
      requires Valid() && (owned ==> id in world.state.jobs && world.state.jobs[id] == job)
      requires job.claim.Some? && job.claim.value.startedAt.Some? && job.claim.value.Proof() == proof
      requires owned ==> NoIntent(world.log, id, proof)
      modifies this
      ensures Valid() && old(trace) <= trace && (owned ==> old(owned))
      ensures ok ==> old(owned) && owned && world.state == old(world).state
      ensures ok ==> |old(world).log| <= |world.log| && Backed(world, id, status)
      ensures ok ==> HasIntent(world.log, id, status, proof)
      ensures ok ==> world.log == old(world).log + [ResultIntent(id, status, proof)]
      ensures Later(old(world), world)
      ensures old(Alone()) ==> ok && Alone() && world.anchors == old(world).anchors
    {
      ok := AppendNote(ResultIntent(id, status, proof));
      if ok {
        assert world.log[|old(world).log|] == ResultIntent(id, status, proof);
      }
    }

    // The submission events, each at most once per job.
    method NoteSubmission(id: string, job: Job, terminal: Record, recorded: bool, proof: Option<ClaimProof>)
      returns (ok: bool)
      requires Valid()
      modifies this
      ensures Valid() && old(trace) <= trace && Later(old(world), world) && (owned ==> old(owned))
      ensures ok && (!recorded || owned) ==>
        && owned && world.state == old(world).state
        && world.log == old(world).log + SubmissionNotes(id, job, terminal, proof, recorded)
      ensures recorded ==> ok && world == old(world) && owned == old(owned)
      ensures old(Alone()) ==> ok && Alone()
    {
      LaterReflexive(world);
      if recorded { return true; }
      ok := AppendNote(ResultSubmitted(id, terminal.status));
      if ok && proof.Some? && job.spec.mode.Work? {
        ok := AppendNote(WorkResultSubmitted(id, terminal.status, proof.value));
      }
      Aged();
    }

    // The submission events, then the imported status.
    method RecordSubmission(id: string, job: Job, terminal: Record, recorded: bool, proof: Option<ClaimProof>)
      returns (r: Try<()>)
      requires Valid() && (owned ==> id in world.state.jobs && world.state.jobs[id] == job)
      requires id in world.anchors && world.anchors[id] == terminal && terminal.Terminal()
      modifies this
      ensures Valid() && old(trace) <= trace && (owned ==> old(owned))
      ensures r.Ok? ==>
        && old(owned) && id in world.anchors && world.anchors[id] == terminal
        && TookEffect(world, |old(world).log|, ImportOf(id, terminal),
                      ReduceJobStatus(job, ImportOf(id, terminal)))
      ensures Later(old(world), world) && (old(Alone()) ==> r.Ok?)
      ensures r.Ok? && owned ==>
        var notes := SubmissionNotes(id, job, terminal, proof, recorded);
        world.log == old(world).log + (notes + [JobStatus(id, terminal.status, terminal.error)])
    {
      hide SubmissionNotes, IsRun, Invariant, TookEffect, ReduceJobStatus;
      var ok := NoteSubmission(id, job, terminal, recorded, proof);
      if !ok { return Err(EventRuntimeOwnerLost); }
      label noted:
      var imported := AppendEvent(ImportOf(id, terminal));
      Aged();
      if !imported { return Err(EventRuntimeOwnerLost); }
      EffectFrom(world, |old@noted(world).log|, |old(world).log|, ImportOf(id, terminal),
                 ReduceJobStatus(job, ImportOf(id, terminal)));
      r := Ok(());
    }

    // A persisted terminal status that this submission may complete.
    method ReadPersistedResult(id: string, job: Job) returns (r: Try<Option<Record>>)
      requires Valid()
      modifies this
      ensures Valid() && Advanced()
      ensures r.Ok? && r.value.Some? ==>
        && id in world.anchors && world.anchors[id] == r.value.value && r.value.value.Terminal()
        && BelongsTo(r.value.value, runId, job)
      ensures old(Alone()) ==>
        && world == old(world)
        && r == if id !in world.anchors then Ok(None)
                else if BelongsTo(world.anchors[id], runId, job) then Ok(Some(world.anchors[id]))
                else Err(CallerJobResultConflict)
    {
      var persisted := StatusRead(id);
      if persisted.None? || !persisted.value.Terminal() {
        r := Ok(None);
      } else if !BelongsTo(persisted.value, runId, job) {
        r := Err(CallerJobResultConflict);
      } else {
        r := Ok(persisted);
      }
    }

    // Everything a submission is checked against.
    method ReadEvidence(id: string, job: Job) returns (r: Try<(Option<Record>, seq<Event>)>)
      requires Valid()
      modifies this
      ensures Valid() && Advanced()
      ensures r.Ok? ==> r.value.1 == world.log
      ensures r.Ok? && r.value.0.Some? ==>
        && id in world.anchors && world.anchors[id] == r.value.0.value && r.value.0.value.Terminal()
        && BelongsTo(r.value.0.value, runId, job)
      ensures old(Alone()) ==>
        && world == old(world)
        && (r.Ok? <==> id in world.anchors ==> BelongsTo(world.anchors[id], runId, job))
        && (r.Ok? ==> r.value.0 == if id in world.anchors then Some(world.anchors[id]) else None)
    {
      hide IsRun, Invariant, BelongsTo, PersistedStatus, Advances;
      var found := ReadPersistedResult(id, job);
      if found.Err? { return Err(found.code); }
      var events := ReadEvents();
      Aged();
      r := Ok((found.value, events));
    }

    // What a work result is checked against: whether this very result was declared.
    method CheckWorkResult(events: seq<Event>, id: string, job: Job, bound: Status, persisted: Option<Record>,
                           proof: ClaimProof, now: int)
      returns (r: Try<bool>)
      requires Valid() && (owned ==> id in world.state.jobs && world.state.jobs[id] == job)
      modifies this
      ensures Valid() && old(trace) <= trace
      ensures r.Ok? ==> world == old(world) && owned == old(owned) && schedule == old(schedule)
      ensures r.Ok? && Active(job) ==>
        job.claim.Some? && job.claim.value.startedAt.Some? && job.claim.value.Proof() == proof
      ensures r.Ok? ==> (r.value <==> !NoIntent(events, id, proof)) && (r.value ==> HasIntent(events, id, bound, proof))
      ensures persisted.None? && MayReport(job, proof, now) && NoOtherIntent(events, id, proof, bound) ==> r.Ok?
      ensures persisted.None? && r.Ok? && Active(job) ==>
        job.claim.value.heartbeatAt <= now < job.claim.value.expiresAt
      ensures persisted.Some? && OneIntent(events) && HasIntent(events, id, bound, proof)
              && ExactClaim(job, proof).Ok? && job.status.Running? && job.claim.value.startedAt.Some? ==>
        r == Ok(true)
    {
      hide ExactClaim, OneIntent;
      var intent := ResultIntentStatus(events, id, proof);
      if intent.Some? && OneIntent(events) && HasIntent(events, id, bound, proof) {
        IntentIsUnique(events, id, intent.value, bound, proof);
      }
      if SubmissionRefused(job, bound, persisted, intent) { return Err(CallerJobResultConflict); }
      var validated := ValidateResultClaim(id, job, proof, now, persisted.Some? && intent.Some?);
      r := if validated.Err? then Err(validated.code) else Ok(intent.Some?);
    }

    // The checks of a submission against the persisted status and the declared
    // intents; None when the job is already terminal.
    method PlanSubmission(id: string, job: Job, status: Status, proof: Option<ClaimProof>, now: int)
      returns (r: Try<Option<Plan>>)
      requires Valid() && (owned ==> id in world.state.jobs && world.state.jobs[id] == job)
      requires status.Terminal()
      modifies this
      ensures Valid() && old(trace) <= trace
      ensures r.Ok? ==> Advanced()
      ensures r.Ok? && r.value.None? ==> job.status.Terminal()
      ensures r.Ok? && r.value.Some? ==> Active(job) && PlanHolds(world, id, job, status, proof, r.value.value)
      ensures r.Ok? && r.value.Some? && r.value.value.persisted.Some? ==>
        BelongsTo(r.value.value.persisted.value, runId, job)
      ensures old(Alone()) && id !in old(world).anchors && r.Ok? && r.value.Some? ==> r.value.value.persisted.None?
      ensures r.Ok? && r.value.Some? ==>
        && (r.value.value.recorded <==> HasSubmission(world.log, id))
        && (r.value.value.intentDeclared <==> proof.Some? && !NoIntent(world.log, id, proof.value))
      ensures old(Alone()) && id !in old(world).anchors && (job.spec.mode.Work? <==> proof.None?) ==>
        r == Err(if proof.None? then CallerWorkClaimRequired else CallerWorkClaimUnexpected)
      ensures old(Alone()) && id !in old(world).anchors && r.Ok? && r.value.Some? && job.spec.mode.Work? ==>
        job.claim.value.heartbeatAt <= now < job.claim.value.expiresAt
      ensures old(Alone()) && id !in old(world).anchors
              && MaySubmit(old(world).log, id, job, status, proof, now) ==>
        r.Ok? && r.value.Some? && r.value.value.persisted.None? && world == old(world)
      ensures old(Alone()) && proof.Some? && MayComplete(old(world), id, runId, job, proof.value) ==>
        r.Ok? && r.value.Some? && r.value.value.persisted == Some(old(world).anchors[id]) && world == old(world)
    {
      hide IsRun, Invariant, MayReport, NoOtherIntent, BelongsTo, HasIntent, PersistedStatus, OneIntent, NoIntent;
      EachClaimDeclaresOnce();
      var found := ReadEvidence(id, job);
      if found.Err? { return Err(found.code); }
      var (persisted, events) := found.value;
      var bound := if persisted.Some? then persisted.value.status else status;
      var recorded := exists i :: 0 <= i < |events| && events[i].ResultSubmitted? && events[i].jobId == id;
      assert recorded <==> HasSubmission(events, id);
      var declared := false;
      if job.spec.mode.Work? != proof.Some? {
        return Err(if proof.None? then CallerWorkClaimRequired else CallerWorkClaimUnexpected);
      }
      if job.spec.mode.Work? {
        var checked := CheckWorkResult(events, id, job, bound, persisted, proof.value, now);
        if checked.Err? { return Err(checked.code); }
        declared := checked.value;
      }
      if !Active(job) { return Ok(None); }
      r := Ok(Some(Plan(persisted, declared, recorded)));
    }

    // The durable writes of a submission: intent, then anchor, then log.
    method CommitResult(id: string, job: Job, record: Record, proof: Option<ClaimProof>, plan: Plan)
      returns (r: Try<Record>)
      requires Valid() && (owned ==> id in world.state.jobs && world.state.jobs[id] == job)
      requires record.Terminal() && PlanHolds(world, id, job, record.status, proof, plan)
      requires plan.intentDeclared && plan.persisted.None? ==> Backed(world, id, record.status)
      requires !job.spec.mode.Work? ==> id in world.state.jobs && !world.state.jobs[id].spec.mode.Work?
      modifies this
      ensures Valid() && old(trace) <= trace
      ensures r.Ok? ==>
        && old(owned) && id in world.anchors && world.anchors[id] == r.value && r.value.Terminal()
        && r.value == (if plan.persisted.Some? then plan.persisted.value else record)
        && TookEffect(world, |old(world).log|, ImportOf(id, r.value),
                      ReduceJobStatus(job, ImportOf(id, r.value)))
        && (job.spec.mode.Work? ==> HasIntent(world.log, id, r.value.status, proof.value))
        && (owned ==>
            world.log == old(world).log + SubmissionLog(id, job, r.value, proof, plan.intentDeclared, plan.recorded))
      ensures old(Alone()) && id !in old(world).anchors && record.Valid() ==> r.Ok?
      ensures old(Alone()) && plan.persisted.Some? ==> r.Ok?
    {
      hide IsRun, Invariant, TookEffect, ReduceJobStatus, SubmissionNotes, SubmissionLog, HasIntent, NoIntent;
      var terminal := if plan.persisted.Some? then plan.persisted.value else record;
      if job.spec.mode.Work? && !plan.intentDeclared {
        var declared := DeclareIntent(id, job, terminal.status, proof.value);
        if !declared { return Err(EventRuntimeOwnerLost); }
      }
      label declared:
      if plan.persisted.None? {
        var written := StatusWrite(id, record);
        if !written.Written? { return Err(WriteError(written)); }
      }
      label anchored:
      var submitted := RecordSubmission(id, job, terminal, plan.recorded, proof);
      if submitted.Err? { return Err(submitted.code); }
      EffectFrom(world, |old@anchored(world).log|, |old(world).log|, ImportOf(id, terminal),
                 ReduceJobStatus(job, ImportOf(id, terminal)));
      SubmissionLogJoins(old(world).log, id, job, terminal, proof, plan.intentDeclared, plan.recorded);
      if job.spec.mode.Work? {
        HasIntentLater(old@declared(world).log, world.log, id, terminal.status, proof.value);
      }
      r := Ok(terminal);
    }

    // Plan and commit a result: none if the job is already terminal.
    method SubmitRecord(id: string, job: Job, record: Record, proof: Option<ClaimProof>, now: int)
      returns (r: Try<Option<Record>>)
      requires Valid() && owned && id in world.state.jobs && world.state.jobs[id] == job && record.Terminal()
      modifies this
      ensures Valid() && old(trace) <= trace
      ensures r == Ok(None) ==> job.status.Terminal()
      ensures r.Ok? && r.value.Some? ==>
        var terminal := r.value.value;
        && Active(job) && id in world.anchors && world.anchors[id] == terminal && terminal.Terminal()
        && (terminal == record || (BelongsTo(terminal, runId, job) && !old(Alone() && id !in world.anchors)))
        && (old(Alone()) && id !in old(world).anchors ==> record.Valid())
        && TookEffect(world, |old(world).log|, ImportOf(id, terminal), ReduceJobStatus(job, ImportOf(id, terminal)))
        && (job.spec.mode.Work? ==>
            && proof.Some? && job.claim.Some? && job.claim.value.Proof() == proof.value
            && job.claim.value.startedAt.Some? && HasIntent(world.log, id, terminal.status, proof.value))
        && (owned ==>
            world.log == old(world).log +
              SubmissionLog(id, job, terminal, proof, proof.Some? && !NoIntent(old(world).log, id, proof.value),
                            HasSubmission(old(world).log, id)))
      ensures old(Alone()) && id !in old(world).anchors ==>
        && (record.Valid() && MaySubmit(old(world).log, id, job, record.status, proof, now) ==> r == Ok(Some(record)))
        && ((job.spec.mode.Work? <==> proof.None?) ==>
            r == Err(if proof.None? then CallerWorkClaimRequired else CallerWorkClaimUnexpected))
        && (r.Ok? && r.value.Some? && job.spec.mode.Work? ==>
            job.claim.value.heartbeatAt <= now < job.claim.value.expiresAt)
      ensures old(Alone()) && proof.Some? && MayComplete(old(world), id, runId, job, proof.value) ==>
        r == Ok(Some(old(world).anchors[id]))
    {
      hide TookEffect, Invariant, IsRun, HasIntent, ReduceJobStatus, MaySubmit, BelongsTo, Backed, MayComplete;
      hide SubmissionLog, HasSubmission, NoIntent;
      var planned := PlanSubmission(id, job, record.status, proof, now);
      if planned.Err? { return Err(planned.code); }
      if planned.value.None? { return Ok(None); }
      var plan := planned.value.value;
      if plan.persisted.None? && !record.Valid() { return Err(CallerJobResultInvalid); }
      if plan.intentDeclared && plan.persisted.None? { StartedIsBacked(old(world), world, id, record.status); }
      var committed := CommitResult(id, job, record, proof, plan);
      if committed.Err? { return Err(committed.code); }
      r := Ok(Some(committed.value));
    }

    // submitCueLineCallerJobResult.  A result reported as submitted is the anchored
    // one, and the log says the same; for work its holder had started the claim.
    method SubmitResult(id: string, status: Status, startedAt: Option<int>, finishedAt: Option<int>,
                        result: string, error: Option<Message>, proof: Option<ClaimProof>, now: int)
      returns (r: Try<SubmitOutcome>)
      requires Valid() && owned
      modifies this
      ensures Valid() && old(trace) <= trace
      ensures r.Ok? ==> id in old(world).state.jobs
      ensures var loaded := ResultJob(old(world).state, id, status, startedAt, finishedAt);
        loaded.Err? ==> r == Err(loaded.code) && world == old(world)
      ensures r == Ok(ResultAlreadyTerminal) ==> old(world).state.jobs[id].status.Terminal()
      ensures r == Ok(Submitted) ==>
        var job := old(world).state.jobs[id];
        && Active(job)
        && id in world.anchors && world.anchors[id].Terminal()
        && TookEffect(world, |old(world).log|, JobStatus(id, world.anchors[id].status, world.anchors[id].error),
                      ReduceJobStatus(job, ImportOf(id, world.anchors[id])))
        && (job.spec.mode.Work? ==>
            && proof.Some? && job.claim.Some? && job.claim.value.Proof() == proof.value
            && job.claim.value.startedAt.Some?
            && HasIntent(world.log, id, world.anchors[id].status, proof.value))
        && world.anchors[id].runId == Some(runId) && world.anchors[id].jobKey == Some(job.jobKey)
        && (job.spec.mode.Work? ==>
            && world.anchors[id].lane == Some(job.spec.lane) && world.anchors[id].mode == Some(Work)
            && world.anchors[id].foreground)
      ensures r == Ok(Submitted) && owned ==>
        world.log == old(world).log +
          SubmissionLog(id, old(world).state.jobs[id], world.anchors[id], proof,
                        proof.Some? && !NoIntent(old(world).log, id, proof.value), HasSubmission(old(world).log, id))
      ensures old(Alone()) && r == Ok(Submitted) ==>
        id in old(world).anchors
        || Reports(world.anchors[id], runId, old(world).state.jobs[id], status, startedAt, finishedAt, result, error, now)
      ensures ResultJob(old(world).state, id, status, startedAt, finishedAt).Ok? ==>
        var job := old(world).state.jobs[id];
        var bound := if job.spec.mode.Work? && !status.Succeeded? then Ambiguous else status;
        var (from, until) := (if startedAt.Some? then startedAt.value else now,
                              if finishedAt.Some? then finishedAt.value else now);
        old(Alone()) && id !in old(world).anchors ==>
          && (from <= until && MaySubmit(old(world).log, id, job, bound, proof, now) ==> r == Ok(Submitted))
          && ((job.spec.mode.Work? <==> proof.None?) ==>
              r == Err(if proof.None? then CallerWorkClaimRequired else CallerWorkClaimUnexpected))
          && (r == Ok(Submitted) && job.spec.mode.Work? ==>
              job.claim.value.heartbeatAt <= now < job.claim.value.expiresAt)
      ensures (ResultJob(old(world).state, id, status, startedAt, finishedAt).Ok? && old(Alone()) && proof.Some?
               && MayComplete(old(world), id, runId, old(world).state.jobs[id], proof.value)) ==>
        r == Ok(Submitted) && world.anchors[id] == old(world).anchors[id]
    {
      hide TookEffect, Invariant, IsRun, HasIntent, ReduceJobStatus, MaySubmit, Reports, MayComplete;
      hide SubmissionLog, HasSubmission, NoIntent;
      var loaded := ResultJob(world.state, id, status, startedAt, finishedAt);
      if loaded.Err? { return Err(loaded.code); }
      var job := loaded.value;
      var record := ResultRecord(runId, job, status, startedAt, finishedAt, result, error, now);
      ResultRecordReports(runId, job, status, startedAt, finishedAt, result, error, now);
      var submitted := SubmitRecord(id, job, record, proof, now);
      if submitted.Err? { return Err(submitted.code); }
      r := Ok(if submitted.value.None? then ResultAlreadyTerminal else Submitted);
    }

    // A work submission that nobody disturbs crashes anywhere behind its anchor: whoever
    // restores the terminal evidence of its claim then completes it.
    method SubmitThenRecover(id: string, status: Status, startedAt: Option<int>, finishedAt: Option<int>,
                             result: string, error: Option<Message>, proof: ClaimProof, now: int, crash: nat)
      returns (next: Home?, r: Try<bool>)
      requires Valid() && Alone() && id !in world.anchors
      requires ResultJob(world.state, id, status, startedAt, finishedAt).Ok?
      requires var job := world.state.jobs[id];
        && job.spec.mode.Work?
        && MaySubmit(world.log, id, job, if status.Succeeded? then Succeeded else Ambiguous, Some(proof), now)
      requires (if startedAt.Some? then startedAt.value else now) <= (if finishedAt.Some? then finishedAt.value else now)
      modifies this
      ensures Valid() && old(trace) <= trace
      ensures next != null <==> |old(trace)| <= crash < |trace| && id in trace[crash].anchors
      ensures next != null ==>
        && fresh(next) && next.Valid() && trace[crash] in next.trace && r == Ok(true)
        && id in next.world.state.jobs
        && next.world.state.jobs[id].status == if status.Succeeded? then Succeeded else Ambiguous
    {
      hide Invariant, TookEffect, Reports, IsWorkResult, ExactClaim, HasIntent, ReduceJobStatus, MayReport, Live;
      next, r := null, Ok(false);
      var job, before := world.state.jobs[id], |trace|;
      var submitted := SubmitResult(id, status, startedAt, finishedAt, result, error, Some(proof), now);
      if crash < before || |trace| <= crash || id !in trace[crash].anchors { return; }
      LaterInRun(trace, |old(trace)| - 1, crash);
      LaterInRun(trace, crash, |trace| - 1);
      StillRecoverable(trace[before - 1], trace[crash], world, id, runId, status, startedAt, finishedAt, result, error,
                       proof, now);
      next, r := Recover(trace[crash], id);
    }

    // A new process restores what a crash left of this job's claim.
    method Recover(crashed: World, id: string) returns (next: Home, r: Try<bool>)
      requires Invariant(crashed) && id in crashed.state.jobs && id in crashed.anchors
      requires var job := crashed.state.jobs[id];
        && job.claim.Some? && job.spec.mode.Work? && ExactClaim(job, job.claim.value.Proof()).Ok?
        && IsWorkResult(crashed.anchors[id], runId, job)
      ensures fresh(next) && next.Valid() && crashed in next.trace && r == Ok(true)
      ensures id in next.world.state.jobs
        && next.world.state.jobs[id] == ReduceJobStatus(crashed.state.jobs[id], ImportOf(id, crashed.anchors[id]))
    {
      hide Invariant, TookEffect, IsWorkResult, ExactClaim, ReduceJobStatus, Backed;
      next := new Home(runId, crashed, []);
      label started:
      r := next.RestoreTerminalEvidence(id, crashed.state.jobs[id], crashed.state.jobs[id].claim.value);
      next.Aged@started();
    }

    // --------------------------------------------------------------- cancellation

    // appendPersistedTerminalIfPresent
    method ImportPersistedTerminal(id: string, job: Job) returns (r: Try<bool>)
      requires Valid() && (owned ==> id in world.state.jobs && world.state.jobs[id] == job)
      modifies this
      ensures Valid() && old(trace) <= trace && (owned ==> old(owned))
      ensures r.Ok? && !r.value ==> Advanced()
      ensures r.Ok? && r.value && owned ==>
        OnlyJob(old(world).state, world.state, id) && (Active(job) ==> Settled(world.state, id))
      ensures r == Ok(true) ==> owned
      ensures old(Alone()) ==>
        if id !in old(world).anchors then r == Ok(false) && world == old(world)
        else if MayBelongTo(old(world).anchors[id], runId, job) then r == Ok(true)
        else r == Err(JobStatusIdentityMismatch)
    {
      hide MayBelongTo, IsRun, Invariant, TookEffect;
      var persisted := StatusRead(id);
      if persisted.None? || !persisted.value.Terminal() { return Ok(false); }
      if !MayBelongTo(persisted.value, runId, job) { return Err(JobStatusIdentityMismatch); }
      var ok := AppendEvent(ImportOf(id, persisted.value));
      r := if ok then Ok(true) else Err(EventRuntimeOwnerLost);
    }

    // persistOwnerlessJobTerminal
    method PersistOwnerlessTerminal(id: string, job: Job, status: Status, error: Message, now: int)
      returns (r: Try<()>)
      requires Valid() && (status.Cancelled? || status.Ambiguous?)
      modifies this
      ensures Valid() && Advanced()
      ensures r.Ok? ==>
        && AnchoredAs(world, id, status) && MayBelongTo(world.anchors[id], runId, job)
        && world.anchors[id].runId == Some(runId) && world.anchors[id].jobKey == Some(job.jobKey)
        && world.anchors[id].error == Some(error) && world.anchors[id].finishedAt == Some(now)
      ensures old(Alone()) && id !in old(world).anchors ==>
        (r.Ok? <==> old(Unsettled(id, now))) && (r.Err? ==> r == Err(JobStatusInvalid))
    {
      var existing := StatusRead(id);
      if existing.Some? && existing.value.Terminal() { return Err(JobTerminalEvidenceExists); }
      var startedAt := if existing.Some? then existing.value.startedAt else now;
      var foreground := existing.None? || existing.value.foreground;
      var written := StatusWrite(id, Record(status, Some(runId), Some(job.jobKey), Some(job.spec.lane),
                                            Some(job.spec.mode), foreground, startedAt, Some(now),
                                            None, None, None, Some(error)));
      Aged();
      r := if written.Written? then Ok(()) else Err(WriteError(written));
    }

    // What the cancellation of an active job comes to when nobody else acts.
    ghost function CancelledAs(w: World, job: Job, id: string, now: int): Try<CancelOutcome> {
      if id in w.anchors
      then if MayBelongTo(w.anchors[id], runId, job) then Ok(CancelAlreadyTerminal) else Err(JobStatusIdentityMismatch)
      else if id in w.files && now < w.files[id].startedAt then Err(JobStatusInvalid)
      else Ok(if job.status.Pending? then CancelledPending else MarkedAmbiguous)
    }

    // Cancel one active caller job: a pending one is cancelled, a running one is
    // ambiguous; a terminal status that was already persisted wins.
    method SettleCancelled(id: string, job: Job, now: int) returns (r: Try<CancelOutcome>)
      requires Valid() && (owned ==> id in world.state.jobs && world.state.jobs[id] == job)
      requires Active(job)
      modifies this
      ensures Valid() && old(trace) <= trace && (owned ==> old(owned))
      ensures r.Ok? ==> owned && OnlyJob(old(world).state, world.state, id) && Settled(world.state, id)
      ensures r.Ok? && !r.value.CancelAlreadyTerminal? ==>
        && AnchoredAs(world, id, if job.status.Pending? then Cancelled else Ambiguous)
        && world.anchors[id].error == Some(if job.status.Pending? then CancelledBeforeEvidence else CancelledWithoutRuntime)
        && world.state.jobs[id].error == world.anchors[id].error
      ensures old(Alone()) ==> r == CancelledAs(old(world), job, id, now)
    {
      hide IsRun, MayBelongTo, Invariant, Later, TookEffect;
      var imported := ImportPersistedTerminal(id, job);
      if imported.Err? { return Err(imported.code); }
      if imported.value { return Ok(CancelAlreadyTerminal); }
      var status := if job.status.Pending? then Cancelled else Ambiguous;
      var error := if job.status.Pending? then CancelledBeforeEvidence else CancelledWithoutRuntime;
      var persisted := PersistOwnerlessTerminal(id, job, status, error, now);
      if persisted.Err? { return Err(persisted.code); }
      var ok := AppendEvent(JobStatus(id, status, Some(error)));
      if !ok { return Err(EventRuntimeOwnerLost); }
      r := Ok(if job.status.Pending? then CancelledPending else MarkedAmbiguous);
    }

    // cancelCueLineJob, once it owns the run lease of a caller run.
    method CancelJob(id: string, now: int) returns (r: Try<CancelOutcome>)
      requires Valid() && owned && world.state.executor.Caller?
      modifies this
      ensures Valid() && old(trace) <= trace
      ensures r.Ok? ==> owned && Settled(world.state, id)
      ensures old(Alone()) && id in old(world).state.jobs && Active(old(world).state.jobs[id]) ==>
        r == CancelledAs(old(world), old(world).state.jobs[id], id, now)
      ensures old(Alone()) && id in old(world).anchors
              && id in old(world).state.jobs && Active(old(world).state.jobs[id]) ==>
        var job, record := old(world).state.jobs[id], old(world).anchors[id];
        r == if record.runId in {None, Some(runId)} && record.jobKey in {None, Some(job.jobKey)}
                && record.lane in {None, Some(job.spec.lane)} && record.mode in {None, Some(job.spec.mode)}
             then Ok(CancelAlreadyTerminal) else Err(JobStatusIdentityMismatch)
      ensures !(id in old(world).state.jobs && Active(old(world).state.jobs[id])) ==>
        world == old(world) && r == if id in world.state.jobs then Ok(CancelAlreadyTerminal) else Err(JobNotFound)
    {
      if id !in world.state.jobs { return Err(JobNotFound); }
      var job := world.state.jobs[id];
      if !Active(job) { return Ok(CancelAlreadyTerminal); }
      r := SettleCancelled(id, job, now);
    }

    // cancelCueLineRun: afterwards every job of the run is terminal.
    method CancelRun(now: int) returns (r: Try<()>)
      requires Valid() && owned && world.state.executor.Caller?
      modifies this
      ensures Valid() && old(trace) <= trace
      ensures r.Ok? ==>
        && owned && world.state.jobs.Keys == old(world).state.jobs.Keys
        && (forall id :: id in world.state.jobs ==> world.state.jobs[id].status.Terminal())
        && (forall id :: id in world.state.jobs && old(world).state.jobs[id].status.Terminal() ==>
              world.state.jobs[id] == old(world).state.jobs[id])
    {
      var jobs := world.state.jobs;
      var todo := jobs.Keys;
      while todo != {}
        invariant Valid() && old(trace) <= trace && todo <= jobs.Keys && owned
        invariant owned ==> world.state.jobs.Keys == jobs.Keys
        invariant owned ==> forall id :: id in todo ==> world.state.jobs[id] == jobs[id]
        invariant owned ==> forall id :: id in jobs && id !in todo ==> world.state.jobs[id].status.Terminal()
        invariant owned ==> forall id :: id in jobs && jobs[id].status.Terminal() ==> world.state.jobs[id] == jobs[id]
        decreases todo
      {
        var id :| id in todo;
        todo := todo - {id};
        if Active(jobs[id]) {
          var settled := SettleCancelled(id, jobs[id], now);
          if settled.Err? { return Err(settled.code); }
        }
      }
      r := Ok(());
    }

    // A dispatched caller job is registered, or taken up again while it is pending, and
    // then has a persisted status; false for a duplicate.
    method RegisterJob(id: string, job: Job, resume: bool, now: int) returns (r: Try<bool>)
      requires Valid() && owned && FreshJob(job)
      modifies this
      ensures Valid() && old(trace) <= trace
      ensures (exists other :: other in old(world).state.jobs && other != id
                && old(world).state.jobs[other].jobKey == job.jobKey) ==>
        r == Err(JobKeyIdentityMismatch) && world == old(world)
      ensures r.Ok? ==>
        (r.value <==> id !in old(world).state.jobs || (resume && old(world).state.jobs[id].status.Pending?))
      ensures r.Ok? && owned ==>
        world.state.jobs ==
          if id in old(world).state.jobs then old(world).state.jobs else old(world).state.jobs[id := job]
      ensures r == Ok(true) ==> PersistedStatus(world, id).Some?
      ensures old(Alone()) && id !in old(world).anchors && !OtherHoldsKey(old(world).state, id, job.jobKey) ==>
        && r.Ok?
        && (r.value && id !in old(world).files ==>
            && id in world.files && world.files[id].startedAt == now
            && Shows(world.files[id], runId,
                     if id in old(world).state.jobs then old(world).state.jobs[id] else job, Pending))
    {
      if OtherHoldsKey(world.state, id, job.jobKey) { return Err(JobKeyIdentityMismatch); }
      var registered := job;
      if id in world.state.jobs {
        registered := world.state.jobs[id];
        if !resume || !registered.status.Pending? { return Ok(false); }
      } else {
        var ok := AppendEvent(JobRegistered(id, job));
        if !ok { return Err(EventRuntimeOwnerLost); }
      }
      var persisted := StatusRead(id);
      if persisted.None? {
        var written := StatusWrite(id, Record(Pending, Some(runId), Some(registered.jobKey),
                                              Some(registered.spec.lane), Some(registered.spec.mode), true, now,
                                              None, None, None, None, None));
        if !written.Written? { return Err(WriteError(written)); }
      }
      r := Ok(true);
    }
  }
}
