/**
 * Starting the executor-side lease of a claim, for the first time or again after
 * its process went away.  Whatever happened in between, the deadlines handed to the
 * lease are measured from the durable start and the durable last new progress.
 */
module WorkLeaseStart {
  import opened Common
  import opened CallerWork
  import opened CallerWorkWorld
  import opened CallerWorkHome
  import L = WorkLease

  datatype LeaseError =
    | HeartbeatIntervalInvalid
    | MaxExecutionInvalid
    | ProgressTimeoutInvalid
    | LeaseAnchorInvalid
    | ExecutionAborted
    | RunUnavailable
    | MaxExecutionExceeded
    | ProgressReviewRequired
    | Refused(code: Refusal)

  datatype Limits = Limits(heartbeatIntervalMs: int, progressTimeoutMs: int, maxExecutionMs: int)

  // What a started lease is told to wait for, seen from the instant `currentAt`.
  datatype Terms = Terms(currentAt: int, progressRemainingMs: int, maxExecutionRemainingMs: int)

  // validatedTimerDelay with the minimum 1.
  predicate ValidTimerDelay(ms: int) {
    1 <= ms <= MAX_TIMER_DELAY_MS
  }

  function LimitsError(limits: Limits, claim: Claim): Option<LeaseError> {
    if !ValidTimerDelay(limits.heartbeatIntervalMs) then Some(HeartbeatIntervalInvalid)
    else if !ValidTimerDelay(limits.maxExecutionMs) then Some(MaxExecutionInvalid)
    else if !ValidTimerDelay(limits.progressTimeoutMs) then Some(ProgressTimeoutInvalid)
    else if claim.expiresAt - claim.heartbeatAt <= limits.heartbeatIntervalMs
    then Some(HeartbeatIntervalInvalid)
    else None
  }

  lemma LimitsErrorExactly(limits: Limits, claim: Claim)
    ensures var error := LimitsError(limits, claim);
      && (error.Some? ==> error.value in {HeartbeatIntervalInvalid, MaxExecutionInvalid, ProgressTimeoutInvalid})
      && (error.None? <==>
          && 1 <= limits.heartbeatIntervalMs <= 2_147_483_647 && 1 <= limits.maxExecutionMs <= 2_147_483_647
          && 1 <= limits.progressTimeoutMs <= 2_147_483_647
          && limits.heartbeatIntervalMs < claim.expiresAt - claim.heartbeatAt)
  {
  }

  // The instants from which the deadlines run.
  datatype Anchors = Anchors(startedAt: int, progressAt: int) {
    function ProgressDue(limits: Limits): int { progressAt + limits.progressTimeoutMs }
    function MaxExecutionDue(limits: Limits): int { startedAt + limits.maxExecutionMs }
  }

  // Those of a claim that is started now, unless it already was.
  function AnchorsOf(claim: Claim, now: int): Anchors {
    if claim.startedAt.Some? then Anchors(claim.startedAt.value, ReviewAnchor(claim)) else Anchors(now, now)
  }

  // The job holds this claim, started when the anchors say, and its last new
  // progress is no older than they say.
  predicate AnchoredIn(w: World, id: string, proof: ClaimProof, anchors: Anchors) {
    && id in w.state.jobs
    && var claim := w.state.jobs[id].claim;
    && claim.Some? && claim.value.Proof() == proof
    && claim.value.startedAt == Some(anchors.startedAt)
    && claim.value.lastProgressAt.Some?
    && anchors.startedAt <= anchors.progressAt <= claim.value.lastProgressAt.value
  }

  lemma AnchoredLater(a: World, b: World, id: string, proof: ClaimProof, anchors: Anchors)
    requires Later(a, b) && AnchoredIn(a, id, proof, anchors)
    ensures AnchoredIn(b, id, proof, anchors)
  {
  }

  // Refuse a claim whose time is up, after its durable review.
  method AssertDeadlineAvailable(home: Home, id: string, proof: ClaimProof, anchors: Anchors,
                                 limits: Limits, currentAt: int, reason: string, reviewAt: int,
                                 available: bool)
    returns (error: Option<LeaseError>)
    requires home.Valid()
    requires ValidTimerDelay(limits.progressTimeoutMs) && ValidTimerDelay(limits.maxExecutionMs)
    modifies home
    ensures home.Valid() && old(home.trace) <= home.trace
    ensures error.None? ==> home.world == old(home.world)
    ensures error.None? <==>
      anchors.progressAt <= currentAt
      && currentAt < anchors.ProgressDue(limits) && currentAt < anchors.MaxExecutionDue(limits)
    ensures error.Some? && (error.value.MaxExecutionExceeded? || error.value.ProgressReviewRequired?) ==>
      Settled(home.world.state, id)
    ensures error.Some? ==>
      || error.value.MaxExecutionExceeded? || error.value.ProgressReviewRequired?
      || error.value.LeaseAnchorInvalid? || error.value.RunUnavailable? || error.value.Refused?
    ensures error.Some? && error.value.MaxExecutionExceeded? ==>
      anchors.MaxExecutionDue(limits) <= currentAt
      && anchors.MaxExecutionDue(limits) <= anchors.ProgressDue(limits)
    ensures error.Some? && error.value.ProgressReviewRequired? ==>
      anchors.ProgressDue(limits) <= currentAt
      && anchors.ProgressDue(limits) < anchors.MaxExecutionDue(limits)
    ensures (old(home.Alone() && home.Unsettled(id, reviewAt)) && available && error.Some?
             && anchors.progressAt <= currentAt && ValidReason(reason)
             && ClaimedJob(old(home.world).state, id, proof).Ok?
             && MayReport(old(home.world).state.jobs[id], proof, reviewAt)) ==>
      var job := old(home.world).state.jobs[id];
      var elapsed := anchors.startedAt + limits.maxExecutionMs <= anchors.progressAt + limits.progressTimeoutMs;
      && error == Some(if elapsed then MaxExecutionExceeded else ProgressReviewRequired)
      && TookEffect(home.world, |old(home.world).log|,
                    ReviewRequired(id, proof, if elapsed then MaxExecutionElapsed else ProgressStalled, reason,
                                   if elapsed then limits.maxExecutionMs else limits.progressTimeoutMs, reviewAt,
                                   ReviewAnchor(job.claim.value)),
                    job.(status := Ambiguous, error := Some(Given(reason))))
  {
    hide TookEffect, ExactClaim;
    if currentAt < anchors.progressAt { return Some(LeaseAnchorInvalid); }
    var progressDue, maxExecutionDue := anchors.ProgressDue(limits), anchors.MaxExecutionDue(limits);
    if currentAt < progressDue && currentAt < maxExecutionDue { return None; }
    var maxElapsedFirst := maxExecutionDue <= progressDue;
    home.Reacquire(available);
    if !available { return Some(RunUnavailable); }
    var reviewed := home.RequireReview(id, proof,
      if maxElapsedFirst then MaxExecutionElapsed else ProgressStalled, reason,
      if maxElapsedFirst then limits.maxExecutionMs else limits.progressTimeoutMs, reviewAt);
    if reviewed.Err? { return Some(Refused(reviewed.code)); }
    error := Some(if maxElapsedFirst then MaxExecutionExceeded else ProgressReviewRequired);
  }

  // The claim is live, this proof is its holder's, and it is pinned to this directory.
  predicate HeldIn(s: RunState, id: string, proof: ClaimProof, now: int, observed: Option<WorkdirIdentity>) {
    && HeldLive(s, id, proof, now)
    && s.jobs[id].claim.value.identity.Some? && s.jobs[id].claim.value.identity == observed
  }

  // The durable start, or what an earlier start left: the anchors of the deadlines.
  method StartClaim(home: Home, id: string, proof: ClaimProof, now: int, observed: Option<WorkdirIdentity>)
    returns (error: Option<LeaseError>, anchors: Anchors, started: Mutation)
    requires home.Valid() && home.owned
    modifies home
    ensures home.Valid() && old(home.trace) <= home.trace
    ensures error.None? ==>
      && AnchoredIn(home.world, id, proof, anchors) && started.observedAt == Some(now)
      && id in old(home.world).state.jobs && old(home.world).state.jobs[id].claim.Some?
      && var claim := old(home.world).state.jobs[id].claim.value;
      && (started.kind.AlreadyStarted? <==> claim.startedAt.Some?)
      && anchors == AnchorsOf(claim, now) && claim.Proof() == proof
      && (if claim.startedAt.Some? then home.world == old(home.world)
          else HasEvent(home.world.log, |old(home.world).log|, StartOf(id, claim, now)))
    ensures error.Some? ==> error.value.Refused?
    ensures old(home.Alone()) && id !in old(home.world).anchors
            && HeldIn(old(home.world).state, id, proof, now, observed) ==>
      error.None?
  {
    hide IsRun, TookEffect, ExactClaim, HasEvent, Shows;
    anchors, started := Anchors(0, 0), Mutation(AlreadyStarted, 0, 0, None, None, None);
    home.Sound();
    var mutation := home.StartJob(id, proof, now, observed);
    if mutation.Err? { return Some(Refused(mutation.code)), anchors, started; }
    started := mutation.value;
    if started.kind.StartRecorded? {
      var job := old(home.world).state.jobs[id];
      var claim := job.claim.value;
      home.Sound();
      EffectAdvances(home.world, |old(home.world).log|, StartOf(id, claim, now), AfterStart(job, claim, now));
      EffectIsLogged(home.world, |old(home.world).log|, |old(home.world).log|, StartOf(id, claim, now),
                     AfterStart(job, claim, now));
    }
    anchors := Anchors(started.startedAt.value, started.progressAt.value);
    error := None;
  }

  predicate HasEvent(log: seq<Event>, from: nat, e: Event) {
    exists n :: from <= n < |log| && log[n] == e
  }

  lemma EffectIsLogged(w: World, from: nat, earlier: nat, e: Event, job: Job)
    requires TookEffect(w, from, e, job) && earlier <= from
    ensures HasEvent(w.log, earlier, e)
  {
  }

  // An already started claim is renewed before its deadlines are looked at again.
  method RenewClaim(home: Home, id: string, proof: ClaimProof, anchors: Anchors, now: int, available: bool)
    returns (error: Option<LeaseError>)
    requires home.Valid() && AnchoredIn(home.world, id, proof, anchors)
    modifies home
    ensures home.Valid() && old(home.trace) <= home.trace
    ensures error.None? ==> AnchoredIn(home.world, id, proof, anchors)
    ensures error.None? ==>
      var ttlMs := old(home.world).state.jobs[id].claim.value.ttlMs;
      HasEvent(home.world.log, |old(home.world).log|, Heartbeat(id, proof, now, now + ttlMs))
    ensures error.Some? ==> error.value.Refused? || error.value.RunUnavailable?
  {
    hide IsRun, Invariant, TookEffect, ExactClaim, HasEvent, Shows, Disturbed;
    home.Reacquire(available);
    if !available { return Some(RunUnavailable); }
    label reacquired:
    var renewed := home.HeartbeatJob(id, proof, now);
    if renewed.Err? { return Some(Refused(renewed.code)); }
    home.Aged();
    AnchoredLater(old(home.world), home.world, id, proof, anchors);
    var job := old@reacquired(home.world).state.jobs[id];
    EffectIsLogged(home.world, |old@reacquired(home.world).log|, |old(home.world).log|,
                   Heartbeat(id, proof, now, now + job.claim.value.ttlMs),
                   job.(claim := Some(Renewed(job.claim.value, now))));
    error := None;
  }

  // Whatever crashes and restarts lie between two worlds of a run: the start of a
  // started claim does not move, its last progress never moves back, and it moves at
  // all only with new evidence.
  lemma DeadlinesSurviveRuns(run: seq<World>, i: nat, j: nat, id: string, now: int, later: int)
    requires IsRun(run) && Invariant(run[0]) && i <= j < |run| && HasStarted(run[i].state, id)
    ensures HasStarted(run[j].state, id)
    ensures run[i].log <= run[j].log
    ensures var a, b := run[i].state.jobs[id].claim.value, run[j].state.jobs[id].claim.value;
      && AnchorsOf(b, later).startedAt == AnchorsOf(a, now).startedAt
      && AnchorsOf(a, now).progressAt <= AnchorsOf(b, later).progressAt
      && (NoNewEvidence(run[j].log, |run[i].log|, id, a.Hashes()) ==> AnchorsOf(b, later) == AnchorsOf(a, now))
  {
    LaterInRun(run, i, j);
    var a := run[i].state.jobs[id].claim.value;
    if NoNewEvidence(run[j].log, |run[i].log|, id, a.Hashes()) {
      var s := EmptyRun(run[j].state.executor);
      assert run[j].log[..|run[i].log|] == run[i].log;
      OnlyNewEvidenceMovesTheProgressClock(s, run[j].log, |run[i].log|, id);
    }
  }

  // startCueLineCallerWorkLease.  The remaining execution time runs from the durable
  // start, and the remaining progress time from the last new progress that the log
  // held when the lease was built.  The lease adds both to its own clock: it outlives
  // its durable deadlines by just as much as that clock is ahead of the instant from
  // which the remaining times were taken.
  method StartLease(home: Home, id: string, claim: Claim, limits: Limits, aborted: bool,
                    observed: Option<WorkdirIdentity>, startAt: int, renewAt: int, renewable: bool,
                    reason: string, reviewAt: int, reviewable: bool, builtAt: int)
    returns (error: Option<LeaseError>, lease: L.Lease?, terms: Terms)
    requires home.Valid() && home.owned
    modifies home
    ensures home.Valid() && old(home.trace) <= home.trace
    ensures error.None? <==> lease != null
    ensures error.None? ==>
      && id in old(home.world).state.jobs && old(home.world).state.jobs[id].claim.Some?
      && var before := old(home.world).state.jobs[id].claim.value;
      && var anchors := AnchorsOf(before, startAt);
      && AnchoredIn(home.world, id, claim.Proof(), anchors) && before.Proof() == claim.Proof()
      && home.world.state.jobs[id].claim.value.startedAt ==
           (if before.startedAt.Some? then before.startedAt else Some(startAt))
      && HasEvent(home.world.log, |old(home.world).log|,
                  if before.startedAt.Some? then Heartbeat(id, claim.Proof(), renewAt, renewAt + before.ttlMs)
                  else StartOf(id, before, startAt))
      && terms.currentAt == (if before.startedAt.Some? then renewAt else startAt)
      && terms.currentAt + terms.maxExecutionRemainingMs == anchors.startedAt + limits.maxExecutionMs
      && terms.currentAt + terms.progressRemainingMs == anchors.progressAt + limits.progressTimeoutMs
      && 0 < terms.maxExecutionRemainingMs && 0 < terms.progressRemainingMs
    ensures error.None? ==>
      && fresh(lease) && lease.Valid() && lease.state.Active?
      && lease.progressTimeoutMs == limits.progressTimeoutMs
      && var anchors := AnchorsOf(old(home.world).state.jobs[id].claim.value, startAt);
      && lease.progressDeadlineAt == anchors.ProgressDue(limits) + (builtAt - terms.currentAt)
      && lease.maxExecutionDueAt == anchors.MaxExecutionDue(limits) + (builtAt - terms.currentAt)
      && (lease.progressDeadlineAt <= anchors.ProgressDue(limits) <==> builtAt <= terms.currentAt)
      && (lease.maxExecutionDueAt <= anchors.MaxExecutionDue(limits) <==> builtAt <= terms.currentAt)
    ensures !aborted && LimitsError(limits, claim).None? && old(home.Alone()) && id !in old(home.world).anchors
            && HeldIn(old(home.world).state, id, claim.Proof(), startAt, observed)
            && old(home.world).state.jobs[id].claim.value.startedAt.None? ==>
      error.None?
    ensures error.Some? && (error.value.MaxExecutionExceeded? || error.value.ProgressReviewRequired?) ==>
      Settled(home.world.state, id)
    ensures error == Some(ExecutionAborted) <==> aborted
    ensures !aborted ==>
      ((error == Some(HeartbeatIntervalInvalid) || error == Some(MaxExecutionInvalid)
        || error == Some(ProgressTimeoutInvalid)) <==>
       !(1 <= limits.heartbeatIntervalMs <= 2_147_483_647 && 1 <= limits.maxExecutionMs <= 2_147_483_647
         && 1 <= limits.progressTimeoutMs <= 2_147_483_647
         && limits.heartbeatIntervalMs < claim.expiresAt - claim.heartbeatAt))
  {
    hide IsRun, Invariant, TookEffect, ExactClaim, HasEvent, LimitsError, IsSha256;
    LimitsErrorExactly(limits, claim);
    lease, terms := null, Terms(0, 0, 0);
    if aborted { return Some(ExecutionAborted), lease, terms; }
    error := LimitsError(limits, claim);
    if error.Some? { return; }
    home.Sound();
    var anchors, started;
    error, anchors, started := StartClaim(home, id, claim.Proof(), startAt, observed);
    if error.Some? { return; }
    var currentAt := startAt;
    error := AssertDeadlineAvailable(home, id, claim.Proof(), anchors, limits, currentAt, reason, reviewAt,
                                     reviewable);
    if error.Some? { return; }
    if started.kind.AlreadyStarted? {
      error := RenewClaim(home, id, claim.Proof(), anchors, renewAt, renewable);
      if error.Some? { return; }
      currentAt := renewAt;
      error := AssertDeadlineAvailable(home, id, claim.Proof(), anchors, limits, currentAt, reason, reviewAt,
                                       reviewable);
      if error.Some? { return; }
    }
    terms := Terms(currentAt, anchors.ProgressDue(limits) - currentAt, anchors.MaxExecutionDue(limits) - currentAt);
    lease := new L.Lease(limits.progressTimeoutMs, builtAt, terms.progressRemainingMs, terms.maxExecutionRemainingMs);
  }

  // --------------------------------------------------------- a lease that is built late

  const LIMITS := Limits(100, 500, 800)
  const DIRECTORY := WorkdirIdentity("/work", "1", "2")

  // A run in which a work job has been registered and claimed.
  function ClaimedWorld(registered: Job, claim: Claim): World {
    Apply(Apply(InitialWorld(Caller, map[]), Append(JobRegistered("job", registered))), Append(Claimed("job", claim)))
  }

  lemma NothingYet()
    ensures Invariant(InitialWorld(Caller, map[]))
  {
  }

  lemma ClaimedWorldIsSound(registered: Job, claim: Claim)
    requires FreshJob(registered) && Claimable(Caller, registered, claim) && claim.fencingToken == 1
    ensures Invariant(ClaimedWorld(registered, claim))
    ensures ClaimedWorld(registered, claim).state == RunState(Caller, map["job" := AfterClaim(registered, claim)])
    ensures ClaimedWorld(registered, claim).anchors == map[]
  {
    hide Invariant, ValidClaimId, ValidCallerId;
    var start := InitialWorld(Caller, map[]);
    NothingYet();
    StepKeepsInvariant(start, Append(JobRegistered("job", registered)));
    StepKeepsInvariant(Apply(start, Append(JobRegistered("job", registered))), Append(Claimed("job", claim)));
  }

  // The process starts the claim at instant 5 and builds the lease one millisecond later.
  method LateLeaseOutlivesItsDeadlines() returns (home: Home, lease: L.Lease, anchors: Anchors)
    ensures AnchoredIn(home.world, "job", SomeClaim(Some(DIRECTORY)).Proof(), anchors)
    ensures anchors.ProgressDue(LIMITS) < lease.progressDeadlineAt
    ensures anchors.MaxExecutionDue(LIMITS) < lease.maxExecutionDueAt
  {
    hide Invariant, ValidClaimId, ValidCallerId, SomeClaimId;
    var claim := SomeClaim(Some(DIRECTORY));
    ClaimedWorldIsSound(SomeJob(), claim);
    home := new Home("run", ClaimedWorld(SomeJob(), claim), []);
    anchors := Anchors(5, 5);
    var error, built, terms :=
      StartLease(home, "job", claim, LIMITS, false, Some(DIRECTORY), 5, 5, true, "late", 5, true, 6);
    lease := built;
  }
}
