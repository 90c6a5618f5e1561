/**
 * The process scheduler: it starts the jobs of one dispatch under a global and a
 * per-lane limit while it waits for jobs that already run.
 *
 * Which completion settles next, and with which status, is an arbitrary input, and so
 * are the moment the run is cancelled and which jobs can be prepared.  `trace` records
 * the durable state after every append and every start, so a crash leaves one of its
 * elements.
 */
module ProcessDispatch {
  import opened Common
  import C = CallerWork

  type Status = C.Status

  datatype JobSpec = JobSpec(jobKey: string, work: bool, lane: string, background: bool) {
    predicate BackgroundAdvice() { !work && background }
  }

  datatype Job = Job(spec: JobSpec, status: Status)

  // A job that is waited for; a foreign one was started by an earlier process.
  datatype Entry = Entry(jobId: string, lane: string, backgroundAdvice: bool, waitingForTerminal: bool, foreign: bool)

  // A call of jobSupervisor.start, and what was going on just before it.
  datatype Start = Start(spec: JobSpec, jobId: string, activeBefore: seq<Entry>, runningBefore: set<string>,
                         settledBefore: seq<Settlement>, foreign: set<string>, globalLimit: int, laneLimit: int)

  // A completion that settled, as its entry was then.
  datatype Settlement = Settlement(entry: Entry, status: Status)

  // An input: this entry of the active ones settles next, with this status.
  datatype Settle = Settle(pick: nat, status: Status)

  // What a crash leaves: the replayed jobs, and which jobs have been started.
  datatype Durable = Durable(jobs: map<string, Job>, started: seq<string>)

  datatype Outcome = Completed | Deadlock | Aborted

  // The statuses with which a completion may settle.  A job that was started in the
  // foreground settles when it has ended, and so does a wait for a job that this
  // process started; a wait for a job of an earlier process reports whatever is
  // persisted.  No started job is reported as pending.
  predicate MaySettle(entry: Entry, status: Status) {
    && !status.Pending?
    && (!entry.waitingForTerminal && !entry.backgroundAdvice ==> status.Terminal())
    && (entry.waitingForTerminal && !entry.foreign ==> status.Terminal())
  }

  // A job that has ended can always settle.
  lemma EndedJobsMaySettle(entry: Entry, status: Status)
    requires status.Succeeded? || status.Failed? || status.TimedOut? || status.Cancelled? || status.Ambiguous?
    ensures MaySettle(entry, status)
  {
  }

  // The input is one that can happen to these entries.
  predicate Possible(active: seq<Entry>, s: Settle) {
    s.pick < |active| && MaySettle(active[s.pick], s.status)
  }

  // The job_status branch of the reducer.
  function ReduceStatus(job: Job, status: Status): (r: Job)
    ensures job.status.Terminal() ==> r == job
    ensures !job.status.Terminal() ==> r.status == status && r.spec == job.spec
  {
    if job.status.Terminal() then job else job.(status := status)
  }

  function RunningIds(jobs: map<string, Job>): set<string> {
    set id | id in jobs && jobs[id].status.Running?
  }

  function ActiveIds(active: seq<Entry>): set<string> {
    set e | e in active :: e.jobId
  }

  function LaneCount(active: seq<Entry>, lane: string): nat {
    if active == [] then 0
    else LaneCount(active[..|active| - 1], lane) + if active[|active| - 1].lane == lane then 1 else 0
  }

  function OfLane(specs: seq<JobSpec>, lane: string): seq<JobSpec> {
    if specs == [] then []
    else OfLane(specs[..|specs| - 1], lane) + if specs[|specs| - 1].lane == lane then [specs[|specs| - 1]] else []
  }

  // How much waiting an entry may still cost.
  function Weight(active: seq<Entry>): nat {
    if active == [] then 0
    else Weight(active[..|active| - 1]) + if active[|active| - 1].waitingForTerminal then 1 else 2
  }

  function Without<T>(s: seq<T>, i: nat): seq<T>
    requires i < |s|
  {
    s[..i] + s[i + 1..]
  }

  // The jobs whose wait was answered while they still ran.
  function Lost(settled: seq<Settlement>): set<string> {
    set s | s in settled && s.entry.waitingForTerminal && s.status.Running? :: s.entry.jobId
  }

  // The own jobs that are waited for to their end.
  function Foreground(active: seq<Entry>): set<string> {
    set e | e in active && !e.backgroundAdvice && !e.foreign :: e.jobId
  }

  // A started job that still runs is waited for, unless it is a background advice.
  predicate Followed(s: Start, jobs: map<string, Job>, active: seq<Entry>) {
    && s.jobId in jobs && !jobs[s.jobId].status.Pending?
    && (jobs[s.jobId].status.Running? ==> s.spec.BackgroundAdvice() || s.jobId in Foreground(active))
  }

  // A start within both limits, when all that runs is active, or a foreign job that was
  // lost to a wait answered while it still ran.
  predicate SafeStart(s: Start) {
    && |s.activeBefore| < s.globalLimit
    && LaneCount(s.activeBefore, s.spec.lane) < s.laneLimit
    && s.runningBefore == ActiveIds(s.activeBefore) + Lost(s.settledBefore)
    && ActiveIds(s.activeBefore) !! Lost(s.settledBefore)
    && Lost(s.settledBefore) <= s.foreign
    && s.jobId !in s.runningBefore
  }

  // Every job was started at most once, and only after its log said it runs.
  predicate StartedOnce(d: Durable) {
    && NoDuplicates(d.started)
    && forall id :: id in d.started ==> id in d.jobs && !d.jobs[id].status.Pending?
  }

  // ------------------------------------------------------------------------- lemmas

  lemma {:induction false} LaneCountConcat(a: seq<Entry>, b: seq<Entry>, lane: string)
    ensures LaneCount(a + b, lane) == LaneCount(a, lane) + LaneCount(b, lane)
    ensures Weight(a + b) == Weight(a) + Weight(b)
  {
    if b == [] {
      assert a + b == a;
    } else {
      assert (a + b)[..|a + b| - 1] == a + b[..|b| - 1];
      LaneCountConcat(a, b[..|b| - 1], lane);
    }
  }

  lemma CountWithout(active: seq<Entry>, i: nat, lane: string)
    requires i < |active|
    ensures LaneCount(active, lane)
      == LaneCount(Without(active, i), lane) + if active[i].lane == lane then 1 else 0
    ensures Weight(active) == Weight(Without(active, i)) + if active[i].waitingForTerminal then 1 else 2
  {
    var one := [active[i]];
    assert active == active[..i] + (one + active[i + 1..]);
    LaneCountConcat(active[..i], one + active[i + 1..], lane);
    LaneCountConcat(one, active[i + 1..], lane);
    LaneCountConcat(active[..i], active[i + 1..], lane);
    assert one[..0] == [];
  }

  predicate DistinctEntries(active: seq<Entry>) {
    forall i, j :: 0 <= i < j < |active| ==> active[i].jobId != active[j].jobId
  }

  // Only these jobs are waited for as foreign.
  predicate ForeignIn(active: seq<Entry>, foreign: set<string>) {
    forall i :: 0 <= i < |active| ==> (active[i].foreign ==> active[i].jobId in foreign)
  }

  // Every settlement was one that may happen, of foreign entries only for these jobs.
  predicate SettledProperly(settled: seq<Settlement>, foreign: set<string>) {
    forall i :: 0 <= i < |settled| ==>
      MaySettle(settled[i].entry, settled[i].status)
      && (settled[i].entry.foreign ==> settled[i].entry.jobId in foreign)
  }

  function AllForeign(active: seq<Entry>): (r: set<string>)
    ensures ForeignIn(active, r)
  {
    set e | e in active :: e.jobId
  }

  lemma ForegroundWith(active: seq<Entry>, entry: Entry)
    ensures Foreground(active) <= Foreground(active + [entry])
    ensures !entry.backgroundAdvice && !entry.foreign ==> entry.jobId in Foreground(active + [entry])
  {
    assert forall e :: e in active + [entry] <==> e in active || e == entry;
  }

  lemma ForegroundWithout(active: seq<Entry>, i: nat)
    requires i < |active|
    ensures Foreground(active) - {active[i].jobId} <= Foreground(Without(active, i))
    ensures active[i].backgroundAdvice || active[i].foreign ==> Foreground(active) <= Foreground(Without(active, i))
  {
    forall e | e in active && e != active[i] ensures e in Without(active, i) {
      var k :| 0 <= k < |active| && active[k] == e;
      assert Without(active, i)[if k < i then k else k - 1] == e;
    }
  }

  lemma ForegroundWaiting(active: seq<Entry>, i: nat)
    requires i < |active|
    ensures Foreground(active) <= Foreground(Waiting(active, i))
  {
    forall e | e in active && !e.backgroundAdvice && !e.foreign ensures e.jobId in Foreground(Waiting(active, i)) {
      var k :| 0 <= k < |active| && active[k] == e;
      assert Waiting(active, i)[k] in Waiting(active, i) && Waiting(active, i)[k].jobId == e.jobId;
    }
  }

  lemma EntriesWith(active: seq<Entry>, entry: Entry, foreign: set<string>)
    requires DistinctEntries(active) && ForeignIn(active, foreign)
    requires entry.jobId !in ActiveIds(active) && (entry.foreign ==> entry.jobId in foreign)
    ensures ActiveIds(active + [entry]) == ActiveIds(active) + {entry.jobId}
    ensures DistinctEntries(active + [entry]) && ForeignIn(active + [entry], foreign)
  {
    assert forall e :: e in active + [entry] <==> e in active || e == entry;
    assert forall i :: 0 <= i < |active| ==> active[i].jobId in ActiveIds(active);
  }

  lemma EntriesWithout(active: seq<Entry>, i: nat, foreign: set<string>)
    requires i < |active| && DistinctEntries(active) && ForeignIn(active, foreign)
    ensures active[i].jobId in ActiveIds(active)
    ensures ActiveIds(Without(active, i)) == ActiveIds(active) - {active[i].jobId}
    ensures DistinctEntries(Without(active, i)) && ForeignIn(Without(active, i), foreign)
  {
    IdsWithout(active, i);
  }

  lemma IdsWithout(active: seq<Entry>, i: nat)
    requires i < |active| && forall j, k :: 0 <= j < k < |active| ==> active[j].jobId != active[k].jobId
    ensures ActiveIds(Without(active, i)) == ActiveIds(active) - {active[i].jobId}
    ensures forall j, k :: 0 <= j < k < |active| - 1 ==> Without(active, i)[j].jobId != Without(active, i)[k].jobId
  {
    var rest := Without(active, i);
    forall id | id in ActiveIds(active) && id != active[i].jobId ensures id in ActiveIds(rest) {
      var k :| 0 <= k < |active| && active[k].jobId == id;
      assert rest[if k < i then k else k - 1] == active[k];
    }
    forall id | id in ActiveIds(rest) ensures id in ActiveIds(active) && id != active[i].jobId {
      var k :| 0 <= k < |rest| && rest[k].jobId == id;
      assert active[if k < i then k else k + 1] == rest[k];
    }
  }

  function Waiting(active: seq<Entry>, i: nat): seq<Entry>
    requires i < |active|
  {
    active[i := active[i].(waitingForTerminal := true)]
  }

  lemma WaitingKeepsLane(active: seq<Entry>, i: nat, lane: string)
    requires i < |active|
    ensures LaneCount(Waiting(active, i), lane) == LaneCount(active, lane)
    ensures !active[i].waitingForTerminal ==> Weight(Waiting(active, i)) < Weight(active)
  {
    assert Without(Waiting(active, i), i) == Without(active, i);
    CountWithout(active, i, lane);
    CountWithout(Waiting(active, i), i, lane);
  }

  lemma WaitingKeepsIds(active: seq<Entry>, i: nat)
    requires i < |active|
    ensures ActiveIds(Waiting(active, i)) == ActiveIds(active)
    ensures forall k :: 0 <= k < |active| ==> Waiting(active, i)[k].jobId == active[k].jobId
  {
    var changed := Waiting(active, i);
    forall e | e in active ensures e.jobId in ActiveIds(changed) {
      var k :| 0 <= k < |active| && active[k] == e;
      assert changed[k].jobId == e.jobId && changed[k] in changed;
    }
    forall e | e in changed ensures e.jobId in ActiveIds(active) {
      var k :| 0 <= k < |changed| && changed[k] == e;
      assert active[k].jobId == e.jobId && active[k] in active;
    }
  }

  lemma {:induction false} OfLaneConcat(a: seq<JobSpec>, b: seq<JobSpec>, lane: string)
    ensures OfLane(a + b, lane) == OfLane(a, lane) + OfLane(b, lane)
  {
    if b == [] {
      assert a + b == a;
    } else {
      assert (a + b)[..|a + b| - 1] == a + b[..|b| - 1];
      OfLaneConcat(a, b[..|b| - 1], lane);
    }
  }

  lemma {:induction false} NoneOfLane(specs: seq<JobSpec>, lane: string)
    requires forall i :: 0 <= i < |specs| ==> specs[i].lane != lane
    ensures OfLane(specs, lane) == []
  {
    if specs != [] {
      NoneOfLane(specs[..|specs| - 1], lane);
    }
  }

  lemma OfLaneAround(a: seq<JobSpec>, x: JobSpec, b: seq<JobSpec>, lane: string)
    ensures OfLane(a + ([x] + b), lane) == OfLane(a, lane) + ((if x.lane == lane then [x] else []) + OfLane(b, lane))
  {
    OfLaneConcat(a, [x] + b, lane);
    OfLaneConcat([x], b, lane);
    assert [x][..0] == [];
  }

  // Taking out the first spec of its lane takes the head of that lane's queue.
  lemma TakeHeadOfLane(queued: seq<JobSpec>, i: nat, lane: string)
    requires i < |queued| && forall j :: 0 <= j < i ==> queued[j].lane != queued[i].lane
    ensures OfLane(queued, lane)
      == (if queued[i].lane == lane then [queued[i]] else []) + OfLane(Without(queued, i), lane)
  {
    hide OfLane;
    var before, after := queued[..i], queued[i + 1..];
    assert queued == before + ([queued[i]] + after);
    OfLaneAround(before, queued[i], after, lane);
    OfLaneConcat(before, after, lane);
    if queued[i].lane == lane {
      NoneOfLane(before, lane);
    }
  }

  lemma {:induction false} CountInLane(specs: seq<JobSpec>, spec: JobSpec)
    ensures multiset(specs)[spec] == multiset(OfLane(specs, spec.lane))[spec]
  {
    if specs != [] {
      var init, last := specs[..|specs| - 1], specs[|specs| - 1];
      CountInLane(init, spec);
      assert specs == init + [last];
    }
  }

  // What has been handed over lane by lane, in order, is every spec exactly once.
  lemma LanesMakeUpTheDispatch(handed: seq<JobSpec>, specs: seq<JobSpec>)
    requires forall lane :: OfLane(handed, lane) == OfLane(specs, lane)
    ensures multiset(handed) == multiset(specs) && |handed| == |specs|
  {
    forall spec: JobSpec ensures multiset(handed)[spec] == multiset(specs)[spec] {
      CountInLane(handed, spec);
      CountInLane(specs, spec);
      assert OfLane(handed, spec.lane) == OfLane(specs, spec.lane);
    }
    assert |multiset(handed)| == |handed| && |multiset(specs)| == |specs|;
  }

  lemma LostGrows(settled: seq<Settlement>, s: Settlement)
    ensures Lost(settled + [s]) ==
      Lost(settled) + if s.entry.waitingForTerminal && s.status.Running? then {s.entry.jobId} else {}
  {
    assert forall x :: x in settled + [s] <==> x in settled || x == s;
  }

  lemma RunningAfter(jobs: map<string, Job>, id: string, job: Job)
    ensures RunningIds(jobs[id := job]) == RunningIds(jobs) - {id} + if job.status.Running? then {id} else {}
  {
  }

  // Nothing but active jobs runs when this job starts.
  predicate Isolated(s: Start) {
    s.runningBefore <= ActiveIds(s.activeBefore)
  }

  // Only a wait for a foreign job can be answered while the job still runs.
  lemma OnlyForeignJobsAreLost(settled: seq<Settlement>, foreign: set<string>)
    requires SettledProperly(settled, foreign)
    ensures Lost(settled) <= foreign
  {
  }

  // A start is next to nothing but active jobs, and under limit one alone, exactly when
  // no wait has been answered with a job still running; and it always is if no foreign
  // job ran when the dispatch began.
  lemma IsolatedExactlyWithoutLostJobs(s: Start)
    requires SafeStart(s)
    ensures Isolated(s) <==> Lost(s.settledBefore) == {}
    ensures s.foreign == {} ==> Isolated(s)
    ensures s.globalLimit == 1 ==> (s.runningBefore == {} <==> Lost(s.settledBefore) == {})
  {
    if Isolated(s) {
      assert forall id :: id in Lost(s.settledBefore) ==> id in s.runningBefore && id in ActiveIds(s.activeBefore);
    }
  }

  class Dispatcher {
    const idOf: JobSpec -> string
    const prepares: JobSpec -> bool    // resolveRunnerSpec returns
    const maxConcurrency: int
    const laneConcurrency: map<string, int>
    var jobs: map<string, Job>
    var own: set<string>               // started by this process
    var queued: seq<JobSpec>
    var active: seq<Entry>
    var activeByLane: map<string, nat>
    var globalLimit: int
    var settlements: seq<Settle>       // still to come
    var patience: nat                  // how often the process looks before it is interrupted
    var interrupted: bool              // cancelled, fenced, or out of settlements
    var resume: bool                   // pending jobs of the dispatch are taken up again
    ghost var foreign: set<string>     // ran when the dispatch began, but not by this process
    ghost var dormant: set<string>     // pending when the dispatch began
    ghost var starts: seq<Start>       // by this dispatch
    ghost var started: seq<string>     // ever, in this run
    ghost var handed: seq<JobSpec>     // taken out of the queue
    ghost var settled: seq<Settlement> // by this dispatch
    ghost var lost: set<string>        // running, but no longer waited for
    ghost var trace: seq<Durable>

    function LaneActive(lane: string): nat
      reads this`activeByLane
    {
      if lane in activeByLane then activeByLane[lane] else 0
    }

    function LaneLimit(lane: string): int
      reads this`globalLimit
    {
      if lane in laneConcurrency then laneConcurrency[lane] else globalLimit
    }

    ghost predicate LanesCounted()
      reads this`active, this`activeByLane
    {
      && (forall lane :: LaneActive(lane) == LaneCount(active, lane))
      && (forall lane :: lane in activeByLane ==> 0 < activeByLane[lane])
    }

    ghost predicate Tracked()
      reads this`active, this`jobs, this`lost
    {
      RunningIds(jobs) == ActiveIds(active) + lost && ActiveIds(active) !! lost && DistinctEntries(active)
    }

    // Only jobs that ran from the start are waited for as foreign.
    ghost predicate Watched()
      reads this`active, this`settled, this`foreign
    {
      ForeignIn(active, foreign) && SettledProperly(settled, foreign)
    }

    ghost predicate Recorded()
      reads this`jobs, this`started, this`trace
    {
      && trace != [] && trace[|trace| - 1] == Durable(jobs, started)
      && forall i :: 0 <= i < |trace| ==> StartedOnce(trace[i])
    }

    ghost predicate Safe()
      reads this`starts, this`globalLimit, this`foreign
    {
      forall i :: 0 <= i < |starts| ==>
        && SafeStart(starts[i]) && starts[i].foreign == foreign
        && starts[i].globalLimit == globalLimit && starts[i].laneLimit == LaneLimit(starts[i].spec.lane)
    }

    ghost predicate Accounted()
      reads this`queued, this`lost, this`settled
    {
      queued != [] ==> lost == Lost(settled)
    }

    // What this dispatch started is waited for, unless it may go on in the background.
    ghost predicate Awaited()
      reads this`starts, this`jobs, this`active, this`own
    {
      forall i :: 0 <= i < |starts| ==> Followed(starts[i], jobs, active) && starts[i].jobId in own
    }

    // No job becomes pending that was not, but to be started at once.
    ghost predicate PendingFromBefore()
      reads this`jobs, this`dormant
    {
      forall id :: id in jobs && jobs[id].status.Pending? ==> id in dormant
    }

    ghost predicate Valid()
      reads this
    {
      Recorded() && PendingFromBefore() && Safe() && LanesCounted() && Tracked() && Watched() && Accounted() && Awaited()
    }

    // Each lane's specs have been handed over in order, and the others still wait.
    ghost predicate InOrder(specs: seq<JobSpec>)
      reads this`handed, this`queued
    {
      forall lane :: OfLane(handed, lane) + OfLane(queued, lane) == OfLane(specs, lane)
    }

    // Another job holds this spec's key.
    ghost predicate KeyConflict(spec: JobSpec)
      reads this`jobs
    {
      exists other :: other in jobs && jobs[other].spec.jobKey == spec.jobKey && other != idOf(spec)
    }

    // Whatever was handed over has a job, and none that should be started is pending.
    ghost predicate Registered()
      reads this`handed, this`jobs, this`resume, this`dormant
    {
      forall i :: 0 <= i < |handed| ==>
        idOf(handed[i]) in jobs && (jobs[idOf(handed[i])].status.Pending? ==> !resume && idOf(handed[i]) in dormant)
    }

    // Why a dispatch may stop half way.
    ghost predicate Stopped()
      reads this`interrupted, this`handed, this`jobs
    {
      interrupted || (handed != [] && KeyConflict(handed[|handed| - 1]))
    }

    // A new job that nothing keeps from being started.
    ghost predicate Startable(spec: JobSpec)
      reads this`interrupted, this`patience, this`jobs
    {
      !interrupted && 0 < patience && !KeyConflict(spec) && idOf(spec) !in jobs && prepares(spec)
    }

    // The start of a job as it would be recorded now.
    ghost function StartNow(spec: JobSpec): Start
      reads this`active, this`jobs, this`settled, this`foreign, this`globalLimit
    {
      Start(spec, idOf(spec), active, RunningIds(jobs), settled, foreign, globalLimit, LaneLimit(spec.lane))
    }

    // A run as a process finds it when it starts, or after a crash.
    constructor (idOf: JobSpec -> string, prepares: JobSpec -> bool, maxConcurrency: int,
                 laneConcurrency: map<string, int>, jobs: map<string, Job>, ghost started: seq<string>,
                 settlements: seq<Settle>, patience: nat)
      requires StartedOnce(Durable(jobs, started))
      ensures this.idOf == idOf && this.prepares == prepares
      ensures this.maxConcurrency == maxConcurrency && this.laneConcurrency == laneConcurrency
      ensures this.jobs == jobs && this.started == started && trace == [Durable(jobs, started)]
      ensures this.settlements == settlements && this.patience == patience && own == {}
      ensures starts == [] && Recorded()
    {
      this.idOf, this.prepares := idOf, prepares;
      this.maxConcurrency, this.laneConcurrency := maxConcurrency, laneConcurrency;
      this.jobs, this.started, this.settlements, this.patience := jobs, started, settlements, patience;
      own, queued, active, activeByLane, globalLimit, interrupted := {}, [], [], map[], 0, false;
      resume, dormant := false, {};
      foreign, starts, handed, settled, lost, trace := {}, [], [], [], {}, [Durable(jobs, started)];
    }

    // Where the process looks whether it has been interrupted.
    method Poll()
      modifies this`interrupted, this`patience
      ensures interrupted <==> old(interrupted) || old(patience) == 0
      ensures patience == if old(patience) == 0 then 0 else old(patience) - 1
    {
      if patience == 0 { interrupted := true; } else { patience := patience - 1; }
    }

    method Append(id: string, job: Job)
      requires Recorded() && (id in started ==> !job.status.Pending?)
      modifies this`jobs, this`trace
      ensures Recorded() && jobs == old(jobs)[id := job] && trace == old(trace) + [Durable(jobs, started)]
    {
      jobs := jobs[id := job];
      trace := trace + [Durable(jobs, started)];
    }

    // A running job reports a status.
    method Report(id: string, status: Status)
      requires Recorded() && id in RunningIds(jobs) && !status.Pending?
      modifies this`jobs, this`trace
      ensures Recorded() && old(trace) <= trace
      ensures RunningIds(jobs) == RunningIds(old(jobs)) - (if status.Running? then {} else {id})
      ensures jobs == old(jobs)[id := old(jobs)[id].(status := status)]
    {
      Append(id, ReduceStatus(jobs[id], status));
    }

    // registerDispatchedJob: the id to start, none for a duplicate.
    method Register(spec: JobSpec, resume: bool) returns (ok: bool, id: Option<string>)
      requires Recorded()
      modifies this`jobs, this`trace
      ensures Recorded() && old(trace) <= trace && RunningIds(jobs) == RunningIds(old(jobs))
      ensures ok <==> !old(KeyConflict(spec))
      ensures ok && id.Some? ==>
        && id == Some(idOf(spec)) && id.value in jobs && jobs[id.value].status.Pending?
        && (id.value in old(jobs) ==> resume && old(jobs)[id.value].status.Pending?)
        && jobs == if id.value in old(jobs) then old(jobs) else old(jobs)[id.value := Job(spec, C.Pending)]
      ensures ok ==> (id.None? <==> idOf(spec) in old(jobs) && !(resume && old(jobs)[idOf(spec)].status.Pending?))
      ensures ok && id.None? ==> jobs == old(jobs) && idOf(spec) in jobs
      ensures !ok ==> jobs == old(jobs)
    {
      var jobId := idOf(spec);
      if exists other :: other in jobs && jobs[other].spec.jobKey == spec.jobKey && other != jobId {
        return false, None;
      }
      if jobId in jobs {
        return true, if resume && jobs[jobId].status.Pending? then Some(jobId) else None;
      }
      Append(jobId, Job(spec, C.Pending));
      assert RunningIds(jobs) == RunningIds(old(jobs));
      ok, id := true, Some(jobId);
    }

    lemma PendingIsNotStarted(id: string)
      requires Recorded() && id in jobs && jobs[id].status.Pending?
      ensures id !in started && id !in RunningIds(jobs)
    {
    }

    // Within the limits, the start of a job that does not run is a safe one.
    lemma StartIsSafe(spec: JobSpec)
      requires Tracked() && LanesCounted() && Watched() && lost == Lost(settled)
      requires |active| < globalLimit && LaneActive(spec.lane) < LaneLimit(spec.lane)
      ensures idOf(spec) !in RunningIds(jobs) ==> SafeStart(StartNow(spec))
    {
      hide RunningIds, ActiveIds, LaneCount;
      OnlyForeignJobsAreLost(settled, foreign);
    }

    // startDispatchedJob: the log says running before the supervisor is called.
    method StartDispatched(spec: JobSpec) returns (ok: bool, entry: Option<Entry>)
      requires Recorded() && Safe() && Tracked() && LanesCounted() && Watched() && lost == Lost(settled)
      requires |active| < globalLimit && LaneActive(spec.lane) < LaneLimit(spec.lane)
      modifies this`jobs, this`own, this`trace, this`starts, this`started, this`interrupted, this`patience
      ensures Recorded() && Safe() && old(trace) <= trace && old(starts) <= starts && old(started) <= started
      ensures old(jobs).Keys <= jobs.Keys <= old(jobs).Keys + {idOf(spec)} && (ok ==> idOf(spec) in jobs)
      ensures forall id :: id in old(jobs) && id != idOf(spec) ==> jobs[id] == old(jobs)[id]
      ensures forall id :: id in jobs && jobs[id].status.Pending? ==> id in old(jobs) && old(jobs)[id].status.Pending?
      ensures ok && jobs[idOf(spec)].status.Pending? ==> !resume
      ensures !ok ==> interrupted || KeyConflict(spec)
      ensures ok && entry.None? ==> jobs == old(jobs) || jobs[idOf(spec)].status.Failed?
      ensures entry.None? ==> RunningIds(jobs) == RunningIds(old(jobs)) && starts == old(starts)
      ensures old(interrupted || patience == 0) ==> !ok && jobs == old(jobs) && trace == old(trace)
      ensures own == old(own) + if entry.Some? then {idOf(spec)} else {}
      ensures old(Startable(spec)) ==> entry.Some?
      ensures entry.Some? ==>
        && ok && entry.value == Entry(idOf(spec), spec.lane, spec.BackgroundAdvice(), false, false)
        && idOf(spec) !in RunningIds(old(jobs)) && idOf(spec) in jobs && jobs[idOf(spec)].status.Running?
        && (idOf(spec) in old(jobs) ==> old(jobs)[idOf(spec)].status.Pending?)
        && RunningIds(jobs) == RunningIds(old(jobs)) + {idOf(spec)}
        && starts == old(starts) + [old(StartNow(spec))]
    {
      hide Recorded, Safe, Tracked, LanesCounted, Watched, SafeStart, RunningIds, LaneCount, KeyConflict;
      ghost var start := StartNow(spec);
      StartIsSafe(spec);
      Poll();
      if interrupted { return false, None; }
      var registered, id := Register(spec, resume);
      if !registered || id.None? { return registered, None; }
      ok := true;
      PendingIsNotStarted(id.value);
      entry := Launch(spec, start);
    }

    // The log says running, or failed if the job cannot be prepared, and then the
    // supervisor is called.
    method Launch(spec: JobSpec, ghost start: Start) returns (entry: Option<Entry>)
      requires Recorded() && Safe() && idOf(spec) in jobs && jobs[idOf(spec)].status.Pending?
      requires start.jobId == idOf(spec) && start.foreign == foreign && SafeStart(start)
      requires start.globalLimit == globalLimit && start.laneLimit == LaneLimit(start.spec.lane)
      modifies this`jobs, this`own, this`trace, this`starts, this`started
      ensures Recorded() && Safe() && old(trace) <= trace && old(started) <= started
      ensures jobs == old(jobs)[idOf(spec) :=
        old(jobs)[idOf(spec)].(status := if entry.Some? then C.Running else C.Failed)]
      ensures RunningIds(jobs) == RunningIds(old(jobs)) + if entry.Some? then {idOf(spec)} else {}
      ensures starts == old(starts) + if entry.Some? then [start] else []
      ensures own == old(own) + if entry.Some? then {idOf(spec)} else {}
      ensures if prepares(spec) then entry == Some(Entry(idOf(spec), spec.lane, spec.BackgroundAdvice(), false, false))
              else entry.None?
    {
      hide Safe, SafeStart, RunningIds;
      var id, prepared := idOf(spec), prepares(spec);
      PendingIsNotStarted(id);
      RunningAfter(jobs, id, ReduceStatus(jobs[id], if prepared then C.Running else C.Failed));
      Append(id, ReduceStatus(jobs[id], if prepared then C.Running else C.Failed));
      if !prepared { return None; }
      own := own + {id};
      RecordStart(start);
      entry := Some(Entry(id, spec.lane, spec.BackgroundAdvice(), false, false));
    }

    ghost method RecordStart(s: Start)
      requires Recorded() && Safe() && SafeStart(s) && s.foreign == foreign
      requires s.globalLimit == globalLimit && s.laneLimit == LaneLimit(s.spec.lane)
      requires s.jobId !in started && s.jobId in jobs && !jobs[s.jobId].status.Pending?
      modifies this`trace, this`starts, this`started
      ensures Recorded() && Safe() && starts == old(starts) + [s] && old(started) <= started && old(trace) <= trace
    {
      starts := starts + [s];
      started := started + [s.jobId];
      trace := trace + [Durable(jobs, started)];
    }

    method Activate(entry: Entry)
      requires LanesCounted()
      modifies this`active, this`activeByLane
      ensures LanesCounted() && active == old(active) + [entry]
      ensures Weight(active) == Weight(old(active)) + if entry.waitingForTerminal then 1 else 2
    {
      activeByLane := activeByLane[entry.lane := LaneActive(entry.lane) + 1];
      active := active + [entry];
      assert active[..|active| - 1] == old(active);
    }

    method Deactivate(i: nat)
      requires LanesCounted() && i < |active|
      modifies this`active, this`activeByLane
      ensures LanesCounted() && active == Without(old(active), i)
      ensures Weight(active) < Weight(old(active))
    {
      var entry := active[i];
      forall lane ensures LaneCount(active, lane)
        == LaneCount(Without(active, i), lane) + if entry.lane == lane then 1 else 0
      {
        CountWithout(active, i, lane);
      }
      CountWithout(active, i, entry.lane);
      var remaining := (if entry.lane in activeByLane then activeByLane[entry.lane] else 1) - 1;
      active := Without(active, i);
      if remaining == 0 {
        activeByLane := activeByLane - {entry.lane};
      } else {
        activeByLane := activeByLane[entry.lane := remaining];
      }
    }

    // A job that has just been started is waited for.
    method Admit(entry: Entry)
      requires LanesCounted() && Watched() && DistinctEntries(active) && ActiveIds(active) !! lost
      requires entry.jobId !in ActiveIds(active) && entry.jobId !in lost && !entry.foreign
      requires RunningIds(jobs) == ActiveIds(active) + lost + {entry.jobId}
      modifies this`active, this`activeByLane
      ensures LanesCounted() && Tracked() && Watched() && active == old(active) + [entry]
      ensures Weight(active) == Weight(old(active)) + if entry.waitingForTerminal then 1 else 2
    {
      hide LaneCount, RunningIds, ActiveIds, DistinctEntries, ForeignIn, SettledProperly, Weight;
      EntriesWith(active, entry, foreign);
      Activate(entry);
    }

    // An entry leaves the scheduler, with its job perhaps still running.
    method Retire(i: nat, running: bool)
      requires LanesCounted() && Watched() && i < |active| && ActiveIds(active) !! lost && DistinctEntries(active)
      requires RunningIds(jobs) == ActiveIds(active) + lost - if running then {} else {active[i].jobId}
      requires Awaited() && (running ==> active[i].backgroundAdvice || active[i].foreign)
      modifies this`active, this`activeByLane, this`lost
      ensures LanesCounted() && Tracked() && Watched() && Awaited() && Weight(active) < Weight(old(active))
      ensures lost == old(lost) + if running then {old(active)[i].jobId} else {}
      ensures active == Without(old(active), i)
    {
      hide LaneCount, RunningIds, ActiveIds, DistinctEntries, ForeignIn, SettledProperly, Weight;
      var entry := active[i];
      ForegroundWithout(active, i);
      if !running { NotRunning(i); }
      EntriesWithout(active, i, foreign);
      Deactivate(i);
      if running { lost := lost + {entry.jobId}; }
    }

    lemma NotRunning(i: nat)
      requires i < |active| && DistinctEntries(active) && ActiveIds(active) !! lost
      requires RunningIds(jobs) == ActiveIds(active) + lost - {active[i].jobId}
      ensures active[i].jobId in jobs ==> !jobs[active[i].jobId].status.Running?
    {
      assert active[i].jobId !in RunningIds(jobs);
    }

    // The entry as which a running job is inherited.
    function Inherited(id: string): Entry
      requires id in jobs
      reads this`jobs, this`own
    {
      var spec := jobs[id].spec;
      Entry(id, spec.lane, spec.BackgroundAdvice(), true, id !in own)
    }

    ghost predicate AllInherited()
      reads this`active, this`jobs, this`own
    {
      forall i :: 0 <= i < |active| ==> active[i].jobId in jobs && active[i] == Inherited(active[i].jobId)
    }

    method InheritOne(id: string)
      requires LanesCounted() && DistinctEntries(active) && AllInherited() && id in jobs && id !in ActiveIds(active)
      modifies this`active, this`activeByLane
      ensures LanesCounted() && DistinctEntries(active) && AllInherited()
      ensures ActiveIds(active) == ActiveIds(old(active)) + {id}
    {
      hide LaneCount, ActiveIds, DistinctEntries;
      EntriesWith(active, Inherited(id), AllForeign(active) + {id});
      Activate(Inherited(id));
    }

    // Everything that runs already counts against the limits.
    method Inherit()
      requires Recorded()
      modifies this`active, this`activeByLane
      ensures LanesCounted() && DistinctEntries(active) && ActiveIds(active) == RunningIds(jobs) && AllInherited()
    {
      active, activeByLane := [], map[];
      var todo := RunningIds(jobs);
      while todo != {}
        invariant LanesCounted() && DistinctEntries(active) && todo <= RunningIds(jobs) && AllInherited()
        invariant ActiveIds(active) == RunningIds(jobs) - todo
        decreases todo
      {
        hide LaneCount, LanesCounted, AllInherited, ActiveIds, DistinctEntries;
        var id :| id in todo;
        InheritOne(id);
        todo := todo - {id};
      }
    }

    // Start a job, and wait for it if it was started.
    method StartAndAdmit(spec: JobSpec) returns (ok: bool)
      requires Recorded() && Safe() && Tracked() && LanesCounted() && Watched() && lost == Lost(settled) && Awaited()
      requires |active| < globalLimit && LaneActive(spec.lane) < LaneLimit(spec.lane)
      modifies this`jobs, this`own, this`active, this`activeByLane, this`starts, this`started, this`interrupted,
               this`patience, this`trace
      ensures Recorded() && Safe() && Tracked() && LanesCounted() && Watched() && Awaited()
      ensures old(trace) <= trace && old(started) <= started && old(starts) <= starts
      ensures old(jobs).Keys <= jobs.Keys && (ok ==> idOf(spec) in jobs)
      ensures forall id :: id in jobs && jobs[id].status.Pending? ==> id in old(jobs) && old(jobs)[id].status.Pending?
      ensures forall id :: id in old(jobs) && !old(jobs)[id].status.Pending? ==> id in jobs && !jobs[id].status.Pending?
      ensures ok && jobs[idOf(spec)].status.Pending? ==> !resume
      ensures !ok ==> interrupted || KeyConflict(spec)
      ensures Weight(active) <= Weight(old(active)) + 2
      ensures old(active) <= active
      ensures old(Startable(spec)) ==> ok && starts == old(starts) + [old(StartNow(spec))]
    {
      hide LaneCount, OfLane, Lost, MaySettle, SafeStart, StartedOnce, Followed, RunningIds, ActiveIds, Foreground;
      var entry;
      ok, entry := StartDispatched(spec);
      if entry.Some? {
        ForegroundWith(active, entry.value);
        Admit(entry.value);
        NewlyFollowed(old(jobs), old(active), old(starts));
      } else {
        StillFollowed(old(jobs));
      }
    }

    lemma NewlyFollowed(before: map<string, Job>, was: seq<Entry>, earlier: seq<Start>)
      requires forall i :: 0 <= i < |earlier| ==> Followed(earlier[i], before, was)
      requires |starts| == |earlier| + 1 && earlier <= starts && before.Keys <= jobs.Keys
      requires var s := starts[|earlier|];
        && s.jobId in jobs && (s.spec.BackgroundAdvice() || s.jobId in Foreground(active))
        && forall id :: id in before && id != s.jobId ==> jobs[id] == before[id]
      requires Foreground(was) <= Foreground(active)
      requires forall i :: 0 <= i < |starts| ==> starts[i].jobId in own
      requires !jobs[starts[|earlier|].jobId].status.Pending?
      requires starts[|earlier|].jobId in before ==> before[starts[|earlier|].jobId].status.Pending?
      ensures Awaited()
    {
      var s := starts[|earlier|];
      forall i | 0 <= i < |starts| ensures Followed(starts[i], jobs, active) && starts[i].jobId in own {
        assert i < |earlier| ==> Followed(earlier[i], before, was) && starts[i].jobId != s.jobId;
      }
    }

    lemma StillFollowed(before: map<string, Job>)
      requires forall i :: 0 <= i < |starts| ==> Followed(starts[i], before, active) && starts[i].jobId in own
      requires before.Keys <= jobs.Keys && RunningIds(jobs) == RunningIds(before)
      requires forall id :: id in before && jobs[id].status.Pending? ==> before[id].status.Pending?
      ensures Awaited()
    {
      forall i | 0 <= i < |starts| ensures Followed(starts[i], jobs, active) && starts[i].jobId in own {
        var id := starts[i].jobId;
        assert id in RunningIds(jobs) <==> id in RunningIds(before);
      }
    }

    // Hand one queued spec over, and wait for its job if it was started.
    method HandOver(specs: seq<JobSpec>, index: nat) returns (ok: bool)
      requires Valid() && InOrder(specs) && Registered() && index < |queued|
      requires |active| < globalLimit && LaneActive(queued[index].lane) < LaneLimit(queued[index].lane)
      requires forall j :: 0 <= j < index ==> queued[j].lane != queued[index].lane
      modifies this`jobs, this`own, this`queued, this`active, this`activeByLane, this`starts, this`started,
               this`handed, this`interrupted, this`patience, this`trace
      ensures Valid() && InOrder(specs) && queued == Without(old(queued), index)
      ensures if ok then Registered() else Stopped()
      ensures old(trace) <= trace && old(started) <= started && old(starts) <= starts
      ensures Weight(active) <= Weight(old(active)) + 2
      ensures old(active) <= active
      ensures old(Startable(queued[index])) ==> ok && starts == old(starts) + [old(StartNow(queued[index]))]
    {
      hide LaneCount, OfLane, Lost, MaySettle, SafeStart, StartedOnce, RunningIds, ActiveIds, Followed, Weight;
      var spec := queued[index];
      TakeSpec(specs, index);
      ok := StartAndAdmit(spec);
    }

    method TakeSpec(specs: seq<JobSpec>, index: nat)
      requires InOrder(specs) && index < |queued|
      requires forall j :: 0 <= j < index ==> queued[j].lane != queued[index].lane
      modifies this`queued, this`handed
      ensures InOrder(specs) && queued == Without(old(queued), index) && handed == old(handed) + [old(queued)[index]]
    {
      var spec := queued[index];
      forall lane ensures OfLane(handed + [spec], lane) + OfLane(Without(queued, index), lane) == OfLane(specs, lane) {
        TakeHeadOfLane(queued, index, lane);
        assert (handed + [spec])[..|handed|] == handed;
        assert OfLane(handed, lane) + OfLane(queued, lane) == OfLane(specs, lane);
      }
      queued := Without(queued, index);
      handed := handed + [spec];
    }

    // The first queued spec may start at once.
    ghost predicate HeadMayStart()
      reads this
    {
      && queued != [] && |active| < globalLimit
      && LaneActive(queued[0].lane) < LaneLimit(queued[0].lane) && Startable(queued[0])
    }

    // One pass over the queue: whatever may start does, the first spec first.
    method StartReady(specs: seq<JobSpec>) returns (ok: bool, any: bool)
      requires Valid() && InOrder(specs) && Registered()
      modifies this`jobs, this`own, this`queued, this`active, this`activeByLane, this`starts, this`started,
               this`handed, this`interrupted, this`patience, this`trace
      ensures Valid() && InOrder(specs)
      ensures old(trace) <= trace && old(started) <= started && old(starts) <= starts
      ensures if ok then Registered() else Stopped()
      ensures 3 * |queued| + Weight(active) + (if any then 1 else 0) <= old(3 * |queued| + Weight(active))
      ensures !any ==> queued == old(queued) && active == old(active)
      ensures ok && !any && active == [] && queued != [] ==>
        globalLimit <= 0 || LaneLimit(queued[0].lane) <= 0
      ensures old(HeadMayStart()) ==>
        |old(starts)| < |starts| && starts[|old(starts)|] == old(StartNow(queued[0]))
      ensures globalLimit <= |old(active)| ==>
        && ok && !any && jobs == old(jobs)
        && starts == old(starts) && interrupted == old(interrupted) && patience == old(patience)
    {
      hide Recorded, Safe, Tracked, Watched, Accounted, LaneCount, Weight, StartNow;
      any, ok := false, true;
      var index := 0;
      while index < |queued| && |active| < globalLimit
        invariant Valid() && InOrder(specs)
        invariant old(trace) <= trace && old(started) <= started && old(starts) <= starts
        invariant index <= |queued| && Registered() && ok
        invariant forall j :: 0 <= j < index ==> LaneActive(queued[j].lane) >= LaneLimit(queued[j].lane)
        invariant 3 * |queued| + Weight(active) + (if any then 1 else 0) <= old(3 * |queued| + Weight(active))
        invariant !any ==>
          && queued == old(queued) && active == old(active) && activeByLane == old(activeByLane)
          && jobs == old(jobs) && starts == old(starts) && interrupted == old(interrupted)
          && patience == old(patience) && (index == 0 || !old(HeadMayStart()))
        invariant any && old(HeadMayStart()) ==>
          |old(starts)| < |starts| && starts[|old(starts)|] == old(StartNow(queued[0]))
        invariant globalLimit <= |old(active)| ==> !any
        decreases |queued| - index
      {
        if LaneActive(queued[index].lane) >= LaneLimit(queued[index].lane) {
          index := index + 1;
        } else {
          ghost var before := active;
          ok := HandOver(specs, index);
          any := true;
          LanesOnlyFill(before);
          if !ok { return; }
        }
      }
      if active == [] { NothingActive(); }
    }

    lemma NothingActive()
      requires LanesCounted() && active == []
      ensures forall lane :: LaneActive(lane) == 0
    {
      assert forall lane :: LaneCount([], lane) == 0;
    }

    // More active entries mean no fewer in any lane.
    lemma LanesOnlyFill(before: seq<Entry>)
      requires LanesCounted() && before <= active
      ensures forall lane :: LaneCount(before, lane) <= LaneActive(lane)
    {
      forall lane ensures LaneCount(before, lane) <= LaneActive(lane) {
        assert active == before + active[|before|..];
        LaneCountConcat(before, active[|before|..], lane);
      }
    }

    // With nothing left to start, a background advice that is only waited for is left
    // to itself.
    method LeaveBackgroundAdvice()
      requires Valid() && queued == []
      modifies this`active, this`activeByLane, this`lost
      ensures Valid() && (active == old(active) || Weight(active) < Weight(old(active)))
      ensures forall e :: e in active ==> !(e.backgroundAdvice && e.waitingForTerminal)
    {
      hide Recorded, Safe, LaneCount, OfLane, ForeignIn, SettledProperly, Followed, RunningIds, ActiveIds;
      var index := |active|;
      while index > 0
        invariant Valid() && 0 <= index <= |active| && (active == old(active) || Weight(active) < Weight(old(active)))
        invariant forall k :: index <= k < |active| ==> !(active[k].backgroundAdvice && active[k].waitingForTerminal)
        decreases index
      {
        index := index - 1;
        var entry := active[index];
        if entry.backgroundAdvice && entry.waitingForTerminal {
          Retire(index, true);
        }
      }
    }

    // A job reports a status, which is noted.
    method Note(i: nat, status: Status)
      requires Recorded() && Tracked() && Watched() && Awaited() && i < |active| && MaySettle(active[i], status)
      modifies this`jobs, this`settled, this`trace
      ensures Recorded() && Watched() && Awaited() && old(trace) <= trace
      ensures active[i].jobId in old(jobs)
      ensures jobs == old(jobs)[active[i].jobId := old(jobs)[active[i].jobId].(status := status)]
      ensures RunningIds(jobs) == ActiveIds(active) + lost - (if status.Running? then {} else {active[i].jobId})
      ensures settled == old(settled) + [Settlement(active[i], status)]
      ensures Lost(settled) == Lost(old(settled)) +
        if active[i].waitingForTerminal && status.Running? then {active[i].jobId} else {}
    {
      assert active[i].jobId in ActiveIds(active);
      Report(active[i].jobId, status);
      LostGrows(settled, Settlement(active[i], status));
      settled := settled + [Settlement(active[i], status)];
    }

    // Some completion settles.  A background advice that reports running is waited
    // for while others are queued; anything else leaves the scheduler.
    method SettleOne(i: nat, status: Status)
      requires Valid() && i < |active| && MaySettle(active[i], status)
      modifies this`jobs, this`active, this`activeByLane, this`settled, this`lost, this`trace
      ensures Valid() && old(trace) <= trace && Weight(active) < Weight(old(active))
      ensures settled == old(settled) + [Settlement(old(active)[i], status)]
      ensures old(active)[i].jobId in old(jobs)
      ensures jobs == old(jobs)[old(active)[i].jobId := old(jobs)[old(active)[i].jobId].(status := status)]
      ensures active ==
        if old(active)[i].backgroundAdvice && !old(active)[i].waitingForTerminal && status.Running? && queued != []
        then Waiting(old(active), i) else Without(old(active), i)
    {
      hide Recorded, Safe, LaneCount, RunningIds, ActiveIds, ForeignIn, SettledProperly, DistinctEntries, Weight;
      var entry := active[i];
      Note(i, status);
      if entry.backgroundAdvice && !entry.waitingForTerminal && status.Running? && queued != [] {
        WaitFor(i);
      } else {
        Retire(i, status.Running?);
      }
    }

    // The entry is now waited for until its job has ended.
    method WaitFor(i: nat)
      requires LanesCounted() && Tracked() && Watched() && Awaited() && i < |active| && !active[i].waitingForTerminal
      modifies this`active
      ensures LanesCounted() && Tracked() && Watched() && Awaited()
      ensures active == Waiting(old(active), i) && Weight(active) < Weight(old(active))
    {
      ghost var before := active;
      active := Waiting(active, i);
      WaitingKeepsIds(before, i);
      ForegroundWaiting(before, i);
      forall lane ensures LaneCount(active, lane) == LaneCount(before, lane) {
        WaitingKeepsLane(before, i, lane);
      }
      WaitingKeepsLane(before, i, "");
    }

    // What the scheduler may still do, at most.
    ghost function Measure(): nat
      reads this`queued, this`active
    {
      3 * |queued| + Weight(active)
    }

    ghost predicate LimitBelowOne()
      reads this`globalLimit
    {
      globalLimit <= 0 || exists lane :: lane in laneConcurrency && laneConcurrency[lane] <= 0
    }

    ghost predicate NextIsPossible()
      reads this`active, this`settlements
    {
      settlements != [] && Possible(active, settlements[0])
    }

    // What this settlement makes of these entries, jobs and earlier settlements.
    ghost predicate After(entries: seq<Entry>, before: map<string, Job>, earlier: seq<Settlement>, next: Settle)
      requires Possible(entries, next)
      reads this`active, this`jobs, this`settled
    {
      var entry := entries[next.pick];
      && settled == earlier + [Settlement(entry, next.status)]
      && entry.jobId in before && jobs == before[entry.jobId := before[entry.jobId].(status := next.status)]
      && (entry.waitingForTerminal ==> active == Without(entries, next.pick))
    }

    // Promise.race: the next possible settlement happens; without one the process is
    // never woken again.
    method LetOneSettle()
      requires Valid() && Registered() && active != []
      modifies this`jobs, this`active, this`activeByLane, this`settled, this`lost, this`settlements,
               this`interrupted, this`trace
      ensures Valid() && Registered() && old(trace) <= trace
      ensures interrupted || Weight(active) < Weight(old(active))
      ensures old(NextIsPossible()) ==>
        && interrupted == old(interrupted) && settlements == old(settlements)[1..]
        && After(old(active), old(jobs), old(settled), old(settlements)[0])
    {
      hide Recorded, Safe, LanesCounted, Tracked, Watched, Accounted, Weight;
      while settlements != [] && !Possible(active, settlements[0])
        invariant settlements == old(settlements) ||
          (old(settlements) != [] && !Possible(old(active), old(settlements)[0]))
        modifies this`settlements
        decreases |settlements|
      {
        settlements := settlements[1..];
      }
      if settlements == [] {
        interrupted := true;
        return;
      }
      var next := settlements[0];
      settlements := settlements[1..];
      SettleOne(next.pick, next.status);
    }

    // The limit keeps the queue waiting, and the next settlement can happen.
    ghost predicate MustWait()
      reads this
    {
      && globalLimit <= |active| && queued != [] && active != [] && NextIsPossible()
      && 0 < patience && !interrupted
    }

    // One round: start what may start, then let one completion settle.
    method Round(specs: seq<JobSpec>) returns (stopped: Option<Outcome>)
      requires Valid() && InOrder(specs) && Registered() && (queued != [] || active != [])
      modifies this`jobs, this`own, this`queued, this`active, this`activeByLane, this`starts, this`started,
               this`handed, this`settled, this`lost, this`settlements, this`interrupted, this`patience, this`trace
      ensures Valid() && InOrder(specs)
      ensures old(trace) <= trace && old(started) <= started && old(starts) <= starts
      ensures stopped.None? ==> Measure() < old(Measure()) && Registered()
      ensures stopped.Some? ==> (stopped.value.Aborted? && Stopped()) || (stopped.value.Deadlock? && LimitBelowOne())
      ensures old(HeadMayStart()) ==>
        |old(starts)| < |starts| && starts[|old(starts)|] == old(StartNow(queued[0]))
      ensures old(MustWait()) ==>
        && stopped.None? && queued == old(queued) && starts == old(starts) && patience == old(patience) - 1
        && !interrupted && After(old(active), old(jobs), old(settled), old(settlements)[0])
    {
      hide Valid, InOrder, Registered, Weight, StartNow, After, KeyConflict, Startable, Possible;
      var ok, any := StartReady(specs);
      if !ok { return Some(Aborted); }
      if queued == [] { LeaveBackgroundAdvice(); }
      if active == [] {
        return if !any && queued != [] then Some(Deadlock) else None;
      }
      AwaitOne();
      stopped := if interrupted then Some(Aborted) else None;
    }

    // Unless the process has been interrupted, a completion is awaited.
    method AwaitOne()
      requires Valid() && Registered() && active != []
      modifies this`jobs, this`active, this`activeByLane, this`settled, this`lost, this`settlements,
               this`interrupted, this`patience, this`trace
      ensures Valid() && Registered() && old(trace) <= trace
      ensures interrupted || Weight(active) < Weight(old(active))
      ensures old(NextIsPossible() && 0 < patience && !interrupted) ==>
        && !interrupted && patience == old(patience) - 1
        && After(old(active), old(jobs), old(settled), old(settlements)[0])
    {
      hide Recorded, Safe, LanesCounted, Tracked, Watched, Accounted, Weight, After;
      Poll();
      if !interrupted { LetOneSettle(); }
    }

    // The global limit is one if any queued or inherited job is work.
    method Begin(specs: seq<JobSpec>, resume: bool)
      requires Recorded()
      modifies this`queued, this`active, this`activeByLane, this`globalLimit, this`foreign, this`starts,
               this`handed, this`settled, this`lost, this`interrupted, this`resume, this`dormant
      ensures this.resume == resume && dormant == set id | id in jobs && jobs[id].status.Pending?
      ensures Valid() && InOrder(specs) && Registered() && queued == specs
      ensures globalLimit == LimitFor(specs) && foreign == RunningIds(jobs) - own
      ensures starts == [] && settled == [] && !interrupted
      ensures ActiveIds(active) == RunningIds(jobs) && AllInherited()
    {
      hide Recorded, LanesCounted, AllInherited, InOrder, ActiveIds, RunningIds, DistinctEntries;
      Inherit();
      Reset(specs);
      this.resume, dormant := resume, set id | id in jobs && jobs[id].status.Pending?;
      NothingHandedOver();
    }

    lemma NothingHandedOver()
      requires handed == []
      ensures Registered()
    {
    }

    // Nothing has happened in this dispatch yet.
    method Reset(specs: seq<JobSpec>)
      requires ActiveIds(active) == RunningIds(jobs) && AllInherited()
      modifies this`queued, this`globalLimit, this`foreign, this`starts, this`handed, this`settled, this`lost,
               this`interrupted
      ensures Safe() && Watched() && Accounted() && InOrder(specs) && handed == [] && queued == specs
      ensures globalLimit == LimitFor(specs) && foreign == RunningIds(jobs) - own
      ensures starts == [] && settled == [] && lost == {} && !interrupted
    {
      hide OfLane, Lost, ActiveIds, RunningIds, ForeignIn, SettledProperly;
      NothingHappenedYet(specs);
      globalLimit, interrupted := LimitFor(specs), false;
      queued, handed := specs, [];
      foreign, starts, settled, lost := RunningIds(jobs) - own, [], [], {};
    }

    lemma NothingHappenedYet(specs: seq<JobSpec>)
      requires ActiveIds(active) == RunningIds(jobs) && AllInherited()
      ensures var others := RunningIds(jobs) - own;
        Lost([]) == {} && ForeignIn(active, others) && SettledProperly([], others)
      ensures forall lane :: OfLane([], lane) + OfLane(specs, lane) == OfLane(specs, lane)
    {
      assert forall i :: 0 <= i < |active| ==> active[i].jobId in ActiveIds(active);
    }

    function LimitFor(specs: seq<JobSpec>): int
      reads this`jobs
    {
      if (exists i :: 0 <= i < |specs| && specs[i].work) || (exists id :: id in RunningIds(jobs) && jobs[id].spec.work)
      then 1 else maxConcurrency
    }

    // With nothing left in the queue, every spec has been handed over exactly once.
    lemma HandedOverOnce(specs: seq<JobSpec>)
      requires InOrder(specs) && queued == []
      ensures multiset(handed) == multiset(specs)
      ensures forall lane :: OfLane(handed, lane) == OfLane(specs, lane)
      ensures Registered() ==> forall spec :: spec in specs ==>
        idOf(spec) in jobs && (jobs[idOf(spec)].status.Pending? ==> !resume && idOf(spec) in dormant)
    {
      assert forall spec :: spec in handed <==> spec in multiset(handed);
      assert forall spec :: spec in specs <==> spec in multiset(specs);
      forall lane ensures OfLane(handed, lane) == OfLane(specs, lane) {
        assert OfLane(handed, lane) + OfLane(queued, lane) == OfLane(specs, lane);
      }
      LanesMakeUpTheDispatch(handed, specs);
    }

    // executeProcessDispatch.  It ends; when it completes, the specs of every lane
    // have been handed over once each and in order; every start was within both
    // limits, with all that runs active unless a wait was answered with a running
    // job; it was isolated in any case if nothing foreign ran when the dispatch began;
    // and it deadlocks only under a limit below one.
    method ExecuteProcessDispatch(specs: seq<JobSpec>, resume: bool) returns (outcome: Outcome)
      requires Recorded()
      modifies this
      ensures Valid() && old(trace) <= trace && old(started) <= started
      ensures outcome.Completed? ==> active == [] && queued == [] && InOrder(specs)
      ensures outcome.Completed? ==> forall spec :: spec in specs ==>
        && idOf(spec) in jobs
        && (jobs[idOf(spec)].status.Pending? ==>
            !resume && idOf(spec) in old(jobs) && old(jobs)[idOf(spec)].status.Pending?)
      ensures outcome.Aborted? ==> Stopped()
      ensures outcome.Completed? ==> forall s :: s in starts && s.jobId in jobs && jobs[s.jobId].status.Running? ==>
        !s.spec.work && s.spec.background
      ensures outcome.Deadlock? ==>
        || (exists lane :: lane in laneConcurrency && laneConcurrency[lane] <= 0)
        || (maxConcurrency <= 0 && !old(WorkAmong(specs)))
      ensures forall d :: d in trace ==>
        && NoDuplicates(d.started)
        && forall id :: id in d.started ==> id in d.jobs && !d.jobs[id].status.Pending?
      ensures trace[|trace| - 1] == Durable(jobs, started)
      ensures forall s :: s in starts ==>
        && s.jobId !in s.runningBefore && s.jobId in own
        && (old(WorkAmong(specs)) ==> s.activeBefore == [])
        && (!old(WorkAmong(specs)) ==> |s.activeBefore| < maxConcurrency)
        && (s.spec.lane in laneConcurrency ==> LaneCount(s.activeBefore, s.spec.lane) < laneConcurrency[s.spec.lane])
      ensures old(NothingForeignRuns()) ==> forall s :: s in starts ==>
        && Isolated(s)
        && (old(WorkAmong(specs)) ==> s.runningBefore == {})
    {
      hide Recorded, SafeStart, Isolated, LaneCount, Lost, Followed;
      Begin(specs, resume);
      outcome := Rounds(specs);
      if outcome.Completed? {
        OnlyBackgroundGoesOn();
        HandedOverOnce(specs);
      }
      NeverStartedTwice();
      WithinLimits(old(WorkAmong(specs)));
      if foreign == {} { NothingForeignIsLost(); }
    }

    lemma NeverStartedTwice()
      requires Recorded()
      ensures forall d :: d in trace ==>
        && NoDuplicates(d.started)
        && forall id :: id in d.started ==> id in d.jobs && !d.jobs[id].status.Pending?
      ensures trace != [] && trace[|trace| - 1] == Durable(jobs, started)
    {
      forall d | d in trace ensures StartedOnce(d) {
        var i :| 0 <= i < |trace| && trace[i] == d;
        assert StartedOnce(trace[i]);
      }
    }

    lemma WithinLimits(work: bool)
      requires Safe() && Awaited() && globalLimit == if work then 1 else maxConcurrency
      ensures forall s :: s in starts ==>
        && s.jobId !in s.runningBefore && s.jobId in own
        && (if work then s.activeBefore == [] else |s.activeBefore| < maxConcurrency)
        && (s.spec.lane in laneConcurrency ==> LaneCount(s.activeBefore, s.spec.lane) < laneConcurrency[s.spec.lane])
    {
      hide LaneCount, ActiveIds, Lost, Followed;
      assert forall s :: s in starts ==> exists i :: 0 <= i < |starts| && starts[i] == s;
    }

    lemma OnlyBackgroundGoesOn()
      requires Awaited() && active == []
      ensures forall s :: s in starts && s.jobId in jobs && jobs[s.jobId].status.Running? ==>
        !s.spec.work && s.spec.background
    {
      forall s | s in starts && s.jobId in jobs && jobs[s.jobId].status.Running? ensures !s.spec.work && s.spec.background {
        var i :| 0 <= i < |starts| && starts[i] == s;
        assert Followed(starts[i], jobs, active);
      }
    }

    // Some job to run, or one that already runs, is work.
    ghost predicate WorkAmong(specs: seq<JobSpec>)
      reads this`jobs
    {
      || (exists spec :: spec in specs && spec.work)
      || (exists id :: id in jobs && jobs[id].status.Running? && jobs[id].spec.work)
    }

    ghost predicate NothingForeignRuns()
      reads this`jobs, this`own
    {
      forall id :: id in jobs && jobs[id].status.Running? ==> id in own
    }

    lemma NothingForeignIsLost()
      requires Safe() && foreign == {}
      ensures forall s :: s in starts ==> Isolated(s) && (s.activeBefore == [] ==> s.runningBefore == {})
    {
      hide SafeStart, Lost;
      forall s | s in starts ensures Isolated(s) && (s.activeBefore == [] ==> s.runningBefore == {}) {
        var i :| 0 <= i < |starts| && starts[i] == s;
        IsolatedExactlyWithoutLostJobs(s);
      }
    }

    method Rounds(specs: seq<JobSpec>) returns (outcome: Outcome)
      requires Valid() && InOrder(specs) && Registered()
      modifies this`jobs, this`own, this`queued, this`active, this`activeByLane, this`starts, this`started,
               this`handed, this`settled, this`lost, this`settlements, this`interrupted, this`patience, this`trace
      ensures Valid() && old(trace) <= trace && old(started) <= started
      ensures outcome.Completed? ==> active == [] && queued == [] && InOrder(specs) && Registered()
      ensures outcome.Aborted? ==> Stopped()
      ensures outcome.Deadlock? ==> LimitBelowOne()
    {
      hide SafeStart, StartedOnce, LaneCount, OfLane, RunningIds, ActiveIds, Lost, MaySettle;
      while queued != [] || active != []
        invariant Valid() && InOrder(specs) && Registered() && old(trace) <= trace && old(started) <= started
        decreases Measure()
      {
        var stopped := Round(specs);
        if stopped.Some? { return stopped.value; }
      }
      outcome := Completed;
    }
  }

  // ------------------------------------------------------------------ a lost wait

  function EntryOf(id: string, spec: JobSpec): Entry {
    Entry(id, spec.lane, spec.BackgroundAdvice(), true, true)
  }

  // Two jobs of one run that may not run beside each other.
  predicate Apart(idOf: JobSpec -> string, id: string, inherited: JobSpec, next: JobSpec) {
    (inherited.work || next.work) && idOf(next) != id && next.jobKey != inherited.jobKey
  }

  // The dispatch of one job while another one of an earlier process runs, in an
  // environment where the wait for that one is answered first, with `running`.
  method DispatchBesideInherited(idOf: JobSpec -> string, id: string, inherited: JobSpec, next: JobSpec)
    returns (d: Dispatcher)
    requires Apart(idOf, id, inherited, next)
    ensures fresh(d) && d.Valid() && d.InOrder([next]) && d.Registered()
    ensures d.idOf == idOf && d.prepares(next) && d.globalLimit == 1 && d.laneConcurrency == map[]
    ensures d.queued == [next] && d.active == [EntryOf(id, inherited)]
    ensures d.jobs == map[id := Job(inherited, C.Running)]
    ensures d.settlements == [Settle(0, C.Running)] && d.patience == 3 && !d.interrupted
    ensures d.starts == [] && d.settled == []
  {
    hide Dispatcher.Recorded, Dispatcher.Safe, Dispatcher.LanesCounted, Dispatcher.Watched;
    hide Dispatcher.Accounted, Dispatcher.Awaited, Dispatcher.InOrder, Dispatcher.Registered;
    var jobs := map[id := Job(inherited, C.Running)];
    d := new Dispatcher(idOf, _ => true, 2, map[], jobs, [], [Settle(0, C.Running)], 3);
    var specs := [next];
    assert specs[0] == next && RunningIds(jobs) == {id};
    d.Begin(specs, false);
    OneInheritedEntry(d.active, id);
  }

  // Its first two rounds.  The wait for the inherited job is answered with its persisted
  // `running`, and the new job is started beside it, although the limit is one.
  method InheritedWaitBreaksIsolation(idOf: JobSpec -> string, id: string, inherited: JobSpec, next: JobSpec)
    returns (d: Dispatcher)
    requires Apart(idOf, id, inherited, next)
    ensures fresh(d) && d.Valid() && d.starts != []
    ensures d.starts[0] ==
      Start(next, idOf(next), [], {id}, [Settlement(EntryOf(id, inherited), C.Running)], d.foreign, 1, 1)
    ensures !Isolated(d.starts[0])
  {
    hide Dispatcher.Recorded, Dispatcher.Safe, Dispatcher.Tracked, Dispatcher.Watched, Dispatcher.Accounted;
    hide Dispatcher.Awaited, Dispatcher.PendingFromBefore;
    hide Dispatcher.InOrder, Dispatcher.Registered, LaneCount;
    d := DispatchBesideInherited(idOf, id, inherited, next);
    var waiting := d.Round([next]);
    d.NothingActive();
    var afterwards := d.Round([next]);
  }

  // One such pair: two work jobs of the same lane.
  method TwoWorkJobsRunTogether() returns (d: Dispatcher)
    ensures d.starts != [] && d.starts[0].spec.work && !Isolated(d.starts[0])
  {
    var inherited, next := JobSpec("inherited", true, "lane", false), JobSpec("next", true, "lane", false);
    d := InheritedWaitBreaksIsolation((spec: JobSpec) => spec.jobKey, "inherited", inherited, next);
  }

  lemma OneInheritedEntry(active: seq<Entry>, id: string)
    requires ActiveIds(active) == {id}
    requires DistinctEntries(active)
    ensures |active| == 1 && active[0].jobId == id
  {
    assert forall i :: 0 <= i < |active| ==> active[i].jobId in ActiveIds(active);
    assert active != [] by {
      assert ActiveIds([]) == {};
      assert id in ActiveIds(active);
    }
    assert active[|active| - 1].jobId == active[0].jobId;
  }
}
