/**
 * The two durable stores of caller work: the authoritative event log and the job
 * status files (a replaceable `.json` and an immutable `.terminal` anchor per job).
 *
 * `Step` is what one process may do to them in one atomic write.  Every run of
 * steps, whoever takes them and wherever processes crash in between, keeps the two
 * stores in agreement and never records a success that was not submitted.
 */
module CallerWorkWorld {
  import opened Common
  import opened CallerWork

  datatype Phase = WorkStarted | ProgressMade(kind: ProgressKind)

  // A persisted job status record.
  datatype Record = Record(
    status: Status,
    runId: Option<string>,
    jobKey: Option<string>,
    lane: Option<string>,
    mode: Option<Mode>,
    foreground: bool,
    startedAt: int,
    finishedAt: Option<int>,
    phase: Option<Phase>,
    lastProgressAt: Option<int>,
    result: Option<string>,
    error: Option<Message>)
  {
    predicate Terminal() { status.Terminal() }

    // The checks of assertJobStatus that well-typed fields can still fail.
    predicate Valid() {
      && (finishedAt.Some? ==> startedAt <= finishedAt.value)
      && (!Terminal() ==> result.None? && finishedAt.None?)
    }
  }

  datatype World = World(
    state: RunState,
    log: seq<Event>,
    anchors: map<string, Record>,
    files: map<string, Record>)

  // No two jobs of the run hold one key.
  predicate UniqueKeys(s: RunState) {
    forall a, b :: a in s.jobs && b in s.jobs && a != b ==> s.jobs[a].jobKey != s.jobs[b].jobKey
  }

  function EmptyRun(executor: Executor): RunState {
    RunState(executor, map[])
  }

  // ------------------------------------------------------------- atomic writes

  datatype Write =
    | Append(event: Event)
    | Anchor(jobId: string, record: Record)
    | File(jobId: string, record: Record)

  predicate HasIntent(log: seq<Event>, id: string, status: Status, proof: ClaimProof) {
    exists i :: 0 <= i < |log| && log[i] == ResultIntent(id, status, proof)
  }

  predicate NoIntent(log: seq<Event>, id: string, proof: ClaimProof) {
    forall i :: 0 <= i < |log| ==> !(log[i].ResultIntent? && log[i].jobId == id && log[i].proof == proof)
  }

  // No claim declares two results.
  predicate OneIntent(log: seq<Event>) {
    forall i, j :: 0 <= i < j < |log| && log[i].ResultIntent? && log[j].ResultIntent? ==>
      !(log[i].jobId == log[j].jobId && log[i].proof == log[j].proof)
  }

  // A success of a work job belongs to a started claim whose holder declared it.
  predicate Backed(w: World, id: string, status: Status) {
    status.Succeeded? ==>
      && id in w.state.jobs
      && (w.state.jobs[id].spec.mode.Work? ==>
          var claim := w.state.jobs[id].claim;
          && claim.Some? && claim.value.startedAt.Some?
          && HasIntent(w.log, id, Succeeded, claim.value.Proof()))
  }

  predicate AnchoredAs(w: World, id: string, status: Status) {
    id in w.anchors && w.anchors[id].status == status
  }

  predicate MayAppend(w: World, e: Event) {
    && Legal(w.state, e)
    && match e
       case JobRegistered(id, job) => forall other :: other in w.state.jobs ==> w.state.jobs[other].jobKey != job.jobKey
       case BecameAmbiguous(id, _, _, _) => AnchoredAs(w, id, Ambiguous)
       case ReviewRequired(id, _, _, _, _, _, _) => AnchoredAs(w, id, Ambiguous)
       case JobStatus(id, status, _) => AnchoredAs(w, id, status)
       case ResultIntent(id, _, proof) => NoIntent(w.log, id, proof)
       case Progress(id, _, _, _, _, _) =>
         id in w.state.jobs && ReduceProgress(w.state.jobs[id], e) != w.state.jobs[id]
       case _ => true
  }

  predicate Enabled(w: World, a: Write) {
    match a
    case Append(e) => MayAppend(w, e)
    case Anchor(id, record) =>
      id !in w.anchors && record.Terminal() && Backed(w, id, record.status)
    case File(id, record) =>
      record.Terminal() ==> id in w.anchors && w.anchors[id] == record
  }

  function Apply(w: World, a: Write): World {
    match a
    case Append(e) => w.(state := Reduce(w.state, e), log := w.log + [e])
    case Anchor(id, record) => w.(anchors := w.anchors[id := record])
    case File(id, record) => w.(files := w.files[id := record])
  }

  ghost predicate Step(w: World, w': World) {
    exists a :: Enabled(w, a) && w' == Apply(w, a)
  }

  // ----------------------------------------------------------------- invariants

  // A terminal status in the replayed log has an anchor with that very status.
  predicate Agreement(w: World) {
    forall id :: id in w.state.jobs && w.state.jobs[id].status.Terminal() ==>
      AnchoredAs(w, id, w.state.jobs[id].status)
  }

  // An anchored success was declared, before, by the holder of the started claim.
  predicate SuccessDeclared(w: World) {
    forall id :: id in w.anchors ==> Backed(w, id, w.anchors[id].status)
  }

  predicate FilesAnchored(w: World) {
    && (forall id :: id in w.anchors ==> w.anchors[id].Terminal())
    && (forall id :: id in w.files && w.files[id].Terminal() ==>
          id in w.anchors && w.anchors[id] == w.files[id])
  }

  // The progress event at index i is reflected in the claim of its job.
  predicate ProgressReflected(w: World, i: nat)
    requires i < |w.log|
  {
    w.log[i].Progress? ==>
      && w.log[i].jobId in w.state.jobs
      && var claim := w.state.jobs[w.log[i].jobId].claim;
      && claim.Some? && claim.value.startedAt.Some?
      && claim.value.claimId == w.log[i].proof.claimId
      && w.log[i].hash in claim.value.Hashes()
  }

  predicate IsProgress(e: Event, id: string, claimId: string, hash: string) {
    e.Progress? && e.jobId == id && e.proof.claimId == claimId && e.hash == hash
  }

  predicate HasProgress(log: seq<Event>, id: string, claimId: string, hash: string) {
    exists i :: 0 <= i < |log| && IsProgress(log[i], id, claimId, hash)
  }

  // The dedup index of every claim is exactly the history of its progress events.
  ghost predicate ProgressIndexed(w: World) {
    && (forall i :: 0 <= i < |w.log| ==> ProgressReflected(w, i))
    && (forall id, hash ::
          (id in w.state.jobs && w.state.jobs[id].claim.Some?
           && hash in w.state.jobs[id].claim.value.Hashes()) ==>
          HasProgress(w.log, id, w.state.jobs[id].claim.value.claimId, hash))
  }

  ghost predicate Faithful(w: World) {
    && LegalLog(EmptyRun(w.state.executor), w.log)
    && w.state == Replay(EmptyRun(w.state.executor), w.log)
  }

  ghost predicate Invariant(w: World) {
    && Faithful(w)
    && StateInvariant(w.state)
    && FilesAnchored(w)
    && Agreement(w)
    && SuccessDeclared(w)
    && ProgressIndexed(w)
    && OneIntent(w.log)
    && UniqueKeys(w.state)
  }

  // What holds between an earlier and a later world.
  ghost predicate Later(a: World, b: World) {
    && a.state.executor == b.state.executor
    && a.log <= b.log
    && (forall id :: id in a.anchors ==> id in b.anchors && b.anchors[id] == a.anchors[id])
    && a.files.Keys <= b.files.Keys
    && (forall id :: id in a.state.jobs ==>
          id in b.state.jobs && Advances(a.state.jobs[id], b.state.jobs[id]))
  }

  lemma LaterReflexive(w: World)
    ensures Later(w, w)
  {
  }

  lemma LaterTransitive(a: World, b: World, c: World)
    requires Later(a, b) && Later(b, c)
    ensures Later(a, c)
  {
    forall id | id in a.state.jobs ensures Advances(a.state.jobs[id], c.state.jobs[id]) {
      AdvancesTransitive(a.state.jobs[id], b.state.jobs[id], c.state.jobs[id]);
    }
  }

  // ------------------------------------------------------ every step keeps them

  lemma HasIntentLater(log: seq<Event>, log': seq<Event>, id: string, status: Status, proof: ClaimProof)
    requires log <= log' && HasIntent(log, id, status, proof)
    ensures HasIntent(log', id, status, proof)
  {
    var i :| 0 <= i < |log| && log[i] == ResultIntent(id, status, proof);
    assert log'[i] == log[i];
  }

  lemma HasProgressLater(log: seq<Event>, log': seq<Event>, id: string, claimId: string, hash: string)
    requires log <= log' && HasProgress(log, id, claimId, hash)
    ensures HasProgress(log', id, claimId, hash)
  {
    var i :| 0 <= i < |log| && IsProgress(log[i], id, claimId, hash);
    assert log'[i] == log[i];
  }

  lemma BackedLater(a: World, b: World, id: string, status: Status)
    requires Later(a, b) && Backed(a, id, status)
    ensures Backed(b, id, status)
  {
    if status.Succeeded? && a.state.jobs[id].spec.mode.Work? {
      HasIntentLater(a.log, b.log, id, Succeeded, a.state.jobs[id].claim.value.Proof());
    }
  }

  // A started claim stays, so a result it declared backs the anchor of that status.
  lemma StartedIsBacked(a: World, b: World, id: string, status: Status)
    requires Later(a, b) && id in a.state.jobs
    requires var claim := a.state.jobs[id].claim;
      && claim.Some? && claim.value.startedAt.Some?
      && HasIntent(b.log, id, status, claim.value.Proof())
    ensures Backed(b, id, status)
  {
  }

  lemma ApplyIsLater(w: World, a: Write)
    requires StateInvariant(w.state) && Enabled(w, a)
    ensures Later(w, Apply(w, a))
  {
    var w' := Apply(w, a);
    forall id | id in w.state.jobs
      ensures id in w'.state.jobs && Advances(w.state.jobs[id], w'.state.jobs[id])
    {
      AdvancesReflexive(w.state.jobs[id]);
      if a.Append? {
        StepAdvances(w.state, a.event, id);
      }
    }
  }

  lemma AppendIsFaithful(w: World, e: Event)
    requires Faithful(w) && Legal(w.state, e)
    ensures Faithful(Apply(w, Append(e)))
  {
    var s := EmptyRun(w.state.executor);
    var log := w.log + [e];
    ReplayOne(s, w.log, e);
    forall i | 0 <= i < |log| ensures Legal(Replay(s, log[..i]), log[i]) {
      if i < |w.log| {
        assert log[..i] == w.log[..i];
      } else {
        assert log[..i] == w.log;
      }
    }
  }

  lemma AppendKeepsAgreement(w: World, e: Event)
    requires Invariant(w) && MayAppend(w, e)
    ensures Agreement(Apply(w, Append(e)))
  {
  }

  lemma ReflectedLater(w: World, e: Event, i: nat)
    requires Invariant(w) && MayAppend(w, e) && i < |w.log|
    ensures ProgressReflected(Apply(w, Append(e)), i)
  {
    hide Faithful, Agreement, SuccessDeclared, FilesAnchored, OneIntent, UniqueKeys;
    var w' := Apply(w, Append(e));
    ApplyIsLater(w, Append(e));
    assert w'.log[i] == w.log[i];
    assert ProgressReflected(w, i);
  }

  lemma IndexedLater(w: World, e: Event, id: string, hash: string)
    requires Invariant(w) && MayAppend(w, e)
    requires var w' := Apply(w, Append(e));
      id in w'.state.jobs && w'.state.jobs[id].claim.Some?
      && hash in w'.state.jobs[id].claim.value.Hashes()
    ensures var w' := Apply(w, Append(e));
      HasProgress(w'.log, id, w'.state.jobs[id].claim.value.claimId, hash)
  {
    hide Faithful, FilesAnchored, Agreement, SuccessDeclared, OneIntent, UniqueKeys;
    var w' := Apply(w, Append(e));
    var claimId := w'.state.jobs[id].claim.value.claimId;
    if id in w.state.jobs && w.state.jobs[id].claim.Some?
       && hash in w.state.jobs[id].claim.value.Hashes() {
      HasProgressLater(w.log, w'.log, id, claimId, hash);
    } else {
      assert IsProgress(w'.log[|w.log|], id, claimId, hash);
    }
  }

  lemma AppendKeepsIndex(w: World, e: Event)
    requires Invariant(w) && MayAppend(w, e)
    ensures ProgressIndexed(Apply(w, Append(e)))
  {
    var w' := Apply(w, Append(e));
    forall i | 0 <= i < |w'.log| ensures ProgressReflected(w', i) {
      if i < |w.log| {
        ReflectedLater(w, e, i);
      }
    }
    forall id, hash | id in w'.state.jobs && w'.state.jobs[id].claim.Some?
      && hash in w'.state.jobs[id].claim.value.Hashes()
      ensures HasProgress(w'.log, id, w'.state.jobs[id].claim.value.claimId, hash)
    {
      IndexedLater(w, e, id, hash);
    }
  }

  lemma StepKeepsInvariant(w: World, a: Write)
    requires Invariant(w) && Enabled(w, a)
    ensures Invariant(Apply(w, a)) && Later(w, Apply(w, a))
  {
    hide Backed, OneIntent, Reduce, LegalLog, Replay;
    var w' := Apply(w, a);
    ApplyIsLater(w, a);
    StepKeepsSuccessDeclared(w, a);
    if a.Append? {
      AppendIsFaithful(w, a.event);
      ReduceKeepsInvariant(w.state, a.event);
      AppendKeepsAgreement(w, a.event);
      AppendKeepsIndex(w, a.event);
      AppendKeepsOneIntent(w, a.event);
      AppendKeepsUniqueKeys(w, a.event);
    } else {
      forall i | 0 <= i < |w'.log| ensures ProgressReflected(w', i) {
        assert ProgressReflected(w, i);
      }
    }
  }

  lemma AppendKeepsOneIntent(w: World, e: Event)
    requires OneIntent(w.log) && MayAppend(w, e)
    ensures OneIntent(w.log + [e])
  {
  }

  lemma AppendKeepsUniqueKeys(w: World, e: Event)
    requires UniqueKeys(w.state) && MayAppend(w, e)
    ensures UniqueKeys(Reduce(w.state, e))
  {
    forall id | id in w.state.jobs ensures e.JobRegistered? || Reduce(w.state, e).jobs[id].jobKey == w.state.jobs[id].jobKey {
    }
  }

  lemma IntentIsUnique(log: seq<Event>, id: string, a: Status, b: Status, proof: ClaimProof)
    requires OneIntent(log) && HasIntent(log, id, a, proof) && HasIntent(log, id, b, proof)
    ensures a == b
  {
  }

  lemma StepKeepsSuccessDeclared(w: World, a: Write)
    requires Invariant(w) && Enabled(w, a) && Later(w, Apply(w, a))
    ensures SuccessDeclared(Apply(w, a))
  {
    var w' := Apply(w, a);
    forall id | id in w'.anchors ensures Backed(w', id, w'.anchors[id].status) {
      if id in w.anchors && w'.anchors[id] == w.anchors[id] {
        BackedLater(w, w', id, w.anchors[id].status);
      } else {
        BackedLater(w, w', id, a.record.status);
      }
    }
  }

  // The dedup index equals history: a hash is in the current claim's index exactly
  // when the log holds a progress event with it for that claim.
  lemma IndexIsHistory(w: World, id: string, hash: string)
    requires Invariant(w) && id in w.state.jobs && w.state.jobs[id].claim.Some?
    ensures var claim := w.state.jobs[id].claim.value;
      && (hash in claim.Hashes() <==> HasProgress(w.log, id, claim.claimId, hash))
      && NoDuplicates(claim.Hashes())
  {
    var claim := w.state.jobs[id].claim.value;
    if HasProgress(w.log, id, claim.claimId, hash) {
      var i :| 0 <= i < |w.log| && IsProgress(w.log[i], id, claim.claimId, hash);
      assert ProgressReflected(w, i);
    }
  }

  // ------------------------------------------------------------------ whole runs

  ghost predicate IsRun(run: seq<World>) {
    run != [] && forall i :: 0 <= i < |run| - 1 ==> Step(run[i], run[i + 1])
  }

  // Every world of every run keeps the invariant: any number of processes, any
  // interleaving, any crash point.
  lemma {:induction false} RunKeepsInvariant(run: seq<World>, i: nat)
    requires IsRun(run) && Invariant(run[0]) && i < |run|
    ensures Invariant(run[i]) && Later(run[0], run[i])
  {
    if i == 0 {
      LaterReflexive(run[0]);
    } else {
      RunKeepsInvariant(run, i - 1);
      assert Step(run[i - 1], run[i - 1 + 1]);
      var a :| Enabled(run[i - 1], a) && run[i] == Apply(run[i - 1], a);
      StepKeepsInvariant(run[i - 1], a);
      LaterTransitive(run[0], run[i - 1], run[i]);
    }
  }

  // What the dedup index of a world of a run holds is in the final history, and
  // nothing else is if the log has not grown since.
  lemma IndexSurvives(run: seq<World>, k: nat, id: string, hash: string)
    requires IsRun(run) && Invariant(run[0]) && k < |run|
    requires id in run[k].state.jobs && run[k].state.jobs[id].claim.Some?
    requires run[k].log <= run[|run| - 1].log
    ensures var claim, log := run[k].state.jobs[id].claim.value, run[|run| - 1].log;
      && (hash in claim.Hashes() ==> HasProgress(log, id, claim.claimId, hash))
      && (log == run[k].log && HasProgress(log, id, claim.claimId, hash) ==> hash in claim.Hashes())
  {
    RunKeepsInvariant(run, k);
    IndexIsHistory(run[k], id, hash);
    if hash in run[k].state.jobs[id].claim.value.Hashes() {
      HasProgressLater(run[k].log, run[|run| - 1].log, id, run[k].state.jobs[id].claim.value.claimId, hash);
    }
  }

  // Any two worlds of a run, in their order.
  lemma LaterInRun(run: seq<World>, i: nat, j: nat)
    requires IsRun(run) && Invariant(run[0]) && i <= j < |run|
    ensures Invariant(run[i]) && Invariant(run[j]) && Later(run[i], run[j])
  {
    hide *;
    RunKeepsInvariant(run, i);
    RunKeepsInvariant(run, j);
    SuffixIsRun(run, i);
    var rest := run[i..];
    assert rest[0] == run[i] && rest[j - i] == run[j];
    RunKeepsInvariant(rest, j - i);
  }

  lemma SuffixIsRun(run: seq<World>, i: nat)
    requires IsRun(run) && i < |run|
    ensures IsRun(run[i..])
  {
    hide Step;
    var rest := run[i..];
    forall k | 0 <= k < |rest| - 1 ensures Step(rest[k], rest[k + 1]) {
      var j := i + k;
      assert Step(run[j], run[j + 1]) && rest[k] == run[j] && rest[k + 1] == run[j + 1];
    }
  }

  function InitialWorld(executor: Executor, files: map<string, Record>): World {
    World(EmptyRun(executor), [], map[], files)
  }

  // Two-store agreement over every run of a home that starts without a terminal
  // status file that lacks its anchor.
  lemma TwoStoreAgreement(run: seq<World>, i: nat, id: string)
    requires IsRun(run) && i < |run|
    requires run[0] == InitialWorld(run[0].state.executor, run[0].files)
    requires forall id :: id in run[0].files ==> !run[0].files[id].Terminal()
    requires id in run[i].state.jobs && run[i].state.jobs[id].status.Terminal()
    ensures id in run[i].anchors && run[i].anchors[id].status == run[i].state.jobs[id].status
  {
    RunKeepsInvariant(run, i);
    assert AnchoredAs(run[i], id, run[i].state.jobs[id].status);
  }

  // A work job whose anchor or log says `succeeded` has a started claim, and the
  // log already declares that success for exactly that claim.
  lemma SuccessIsNeverFabricated(run: seq<World>, i: nat, id: string)
    requires IsRun(run) && i < |run|
    requires run[0] == InitialWorld(run[0].state.executor, run[0].files)
    requires forall id :: id in run[0].files ==> !run[0].files[id].Terminal()
    requires id in run[i].state.jobs && run[i].state.jobs[id].spec.mode.Work?
    requires AnchoredAs(run[i], id, Succeeded) || run[i].state.jobs[id].status.Succeeded?
    ensures var claim := run[i].state.jobs[id].claim;
      && claim.Some? && claim.value.startedAt.Some?
      && HasIntent(run[i].log, id, Succeeded, claim.value.Proof())
  {
    RunKeepsInvariant(run, i);
    assert AnchoredAs(run[i], id, Succeeded);
  }

  // -------------------------------------------------------- events that took effect

  // The log, from index `from` on, holds the event, and replay right after it
  // gives the job this state.
  ghost predicate TookEffect(w: World, from: nat, e: Event, job: Job) {
    exists n :: from <= n < |w.log| && w.log[n] == e && JobAfter(w, n, e.jobId, job)
  }

  ghost predicate JobAfter(w: World, n: nat, id: string, job: Job)
    requires n < |w.log|
  {
    var s := Replay(EmptyRun(w.state.executor), w.log[..n + 1]);
    id in s.jobs && s.jobs[id] == job
  }

  lemma TookEffectNow(w: World, from: nat, e: Event, job: Job)
    requires Faithful(w) && from < |w.log| && w.log[|w.log| - 1] == e
    requires e.jobId in w.state.jobs && w.state.jobs[e.jobId] == job
    ensures TookEffect(w, from, e, job)
  {
    var n := |w.log| - 1;
    assert w.log[..n + 1] == w.log;
    assert JobAfter(w, n, e.jobId, job);
  }

  lemma EffectFrom(w: World, from: nat, earlier: nat, e: Event, job: Job)
    requires TookEffect(w, from, e, job) && earlier <= from
    ensures TookEffect(w, earlier, e, job)
  {
    var n :| from <= n < |w.log| && w.log[n] == e && JobAfter(w, n, e.jobId, job);
    assert earlier <= n;
  }

  // In a run, the event appended last took effect as the current state shows.
  lemma LastTookEffect(run: seq<World>, from: nat, e: Event)
    requires IsRun(run) && Invariant(run[0])
    requires var w := run[|run| - 1];
      from < |w.log| && w.log[|w.log| - 1] == e && e.jobId in w.state.jobs
    ensures var w := run[|run| - 1]; TookEffect(w, from, e, w.state.jobs[e.jobId])
  {
    RunKeepsInvariant(run, |run| - 1);
    var w := run[|run| - 1];
    TookEffectNow(w, from, e, w.state.jobs[e.jobId]);
  }

  lemma TookEffectLater(a: World, b: World, from: nat, e: Event, job: Job)
    requires Later(a, b) && TookEffect(a, from, e, job)
    ensures TookEffect(b, from, e, job)
  {
    var n :| from <= n < |a.log| && a.log[n] == e && JobAfter(a, n, e.jobId, job);
    assert a.log[..n + 1] == b.log[..n + 1];
    assert b.log[n] == e && JobAfter(b, n, e.jobId, job);
  }

  // What took effect is never undone: the job has only advanced since.
  lemma EffectAdvances(w: World, from: nat, e: Event, job: Job)
    requires Invariant(w) && TookEffect(w, from, e, job)
    ensures e.jobId in w.state.jobs && Advances(job, w.state.jobs[e.jobId])
  {
    hide StateInvariant, FilesAnchored, Agreement, SuccessDeclared, ProgressIndexed, OneIntent, UniqueKeys;
    var n :| from <= n < |w.log| && w.log[n] == e && JobAfter(w, n, e.jobId, job);
    LogAdvances(EmptyRun(w.state.executor), w.log, n + 1, e.jobId);
  }

  // ------------------------------------------------------------ legacy status files

  // JobStatusStore.read: the anchor, else the replaceable file.
  function PersistedStatus(w: World, id: string): Option<Record> {
    if id in w.anchors then Some(w.anchors[id])
    else if id in w.files then Some(w.files[id])
    else None
  }

  // Importing a persisted terminal status into the log keeps the stores in
  // agreement exactly when the status read comes from an anchor.
  lemma ImportAgreesExactlyWhenAnchored(w: World, id: string, evidence: Option<Message>)
    requires Agreement(w) && id in w.state.jobs && Active(w.state.jobs[id])
    requires PersistedStatus(w, id).Some? && PersistedStatus(w, id).value.Terminal()
    ensures Agreement(Apply(w, Append(JobStatus(id, PersistedStatus(w, id).value.status, evidence))))
      <==> id in w.anchors
  {
    var status := PersistedStatus(w, id).value.status;
    var w' := Apply(w, Append(JobStatus(id, status, evidence)));
    assert w'.state.jobs[id].status == status;
    assert id in w.anchors || !AnchoredAs(w', id, status);
  }

  // A terminal `.json` written before anchors existed breaks the agreement: the
  // import appends its status, and no anchor is ever read or created.
  lemma LegacyFileBreaksAgreement()
    returns (w: World, imported: Event)
    ensures Agreement(w) && Faithful(w) && w.anchors == map[]
    ensures "job" in w.state.jobs && PersistedStatus(w, "job").Some?
    ensures imported == JobStatus("job", PersistedStatus(w, "job").value.status, None)
    ensures imported.status.Ambiguous? && Legal(w.state, imported)
    ensures !Agreement(Apply(w, Append(imported)))
  {
    var job := Job("key", Spec(Work, "lane", Some("/work"), "hash"), Pending, None, None, 0);
    var record := Record(Ambiguous, None, None, None, None, true, 0, Some(0), None, None, None, None);
    var empty := InitialWorld(Caller, map["job" := record]);
    assert Replay(EmptyRun(Caller), []) == EmptyRun(Caller);
    AppendIsFaithful(empty, JobRegistered("job", job));
    w := Apply(empty, Append(JobRegistered("job", job)));
    imported := JobStatus("job", Ambiguous, None);
    ImportAgreesExactlyWhenAnchored(w, "job", None);
  }
}
