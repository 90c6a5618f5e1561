/**
 * One observation of all jobs within the evidence budget, and the paging protocol:
 * a controller that follows the emitted cursors reads every character once.
 *
 * The digest of the content hash and the order of job ids are parameters.
 */
module ControllerObservation {
  import opened Common
  import opened CanonicalJson
  import opened BoundedEvidence

  datatype Field = Output | Error

  datatype JobEvidence = JobEvidence(
    jobId: string,
    required: bool,
    succeeded: bool,
    output: Option<Text>,
    error: Option<Text>)

  // What the last accepted inspect command asked for.
  datatype Inspection = Inspection(jobIds: set<string>, offset: int, hash: Option<string>)

  datatype Window = Window(
    field: Field,
    offset: nat,
    end: nat,
    totalChars: nat,
    nextOffset: Option<nat>,
    contentHash: string)

  // The evidence of one job in an observation, and the window of its preferred field.
  datatype Served = Served(jobId: string, output: Take, error: Take, window: Option<Window>) {
    function In(field: Field): Take {
      if field.Output? then output else error
    }
  }

  datatype Preferred = Preferred(field: Field, value: Text)

  type Digest = Text -> string
  type IdOrder = (string, string) -> bool

  function FieldOf(job: JobEvidence, field: Field): Option<Text> {
    if field.Output? then job.output else job.error
  }

  function OtherField(field: Field): Field {
    if field.Output? then Error else Output
  }

  function FirstField(job: JobEvidence): Field {
    var preferred := if job.succeeded then Output else Error;
    if FieldOf(job, preferred).None? && FieldOf(job, OtherField(preferred)).Some?
    then OtherField(preferred) else preferred
  }

  // preferredControllerEvidence
  function PreferredEvidence(job: JobEvidence): (r: Option<Preferred>)
    ensures r.None? <==> job.output.None? && job.error.None?
    ensures r.Some? ==> FieldOf(job, r.value.field) == Some(r.value.value)
  {
    var field := FirstField(job);
    if FieldOf(job, field).Some? then Some(Preferred(field, FieldOf(job, field).value)) else None
  }

  // "field", "value", "output" and "error"
  const FIELD_KEY: Text := [0x66, 0x69, 0x65, 0x6C, 0x64]
  const VALUE_KEY: Text := [0x76, 0x61, 0x6C, 0x75, 0x65]
  const OUTPUT_NAME: Text := [0x6F, 0x75, 0x74, 0x70, 0x75, 0x74]
  const ERROR_NAME: Text := [0x65, 0x72, 0x72, 0x6F, 0x72]

  function EvidenceIdentity(evidence: Preferred): Json {
    Obj(Member(FIELD_KEY, Str(if evidence.field.Output? then OUTPUT_NAME else ERROR_NAME),
               Member(VALUE_KEY, Str(evidence.value), NoMembers)))
  }

  // controllerEvidenceContentHash
  function ContentHash(digest: Digest, evidence: Preferred): string {
    digest(Canonical(EvidenceIdentity(evidence)))
  }

  lemma MeaningOfPair(k: Text, v: Json, l: Text, w: Json)
    requires k != l && Proper(v) && Proper(w)
    ensures var pair := Obj(Member(k, v, Member(l, w, NoMembers)));
      && Proper(pair)
      && Meaning(pair).members == map[k := Meaning(v), l := Meaning(w)]
  {
    var last := Member(l, w, NoMembers);
    assert MeaningOfMembers(last) == map[l := Meaning(w)] + map[];
    assert !HasKey(last, k);
    assert ProperMembers(last) && ProperMembers(Member(k, v, last));
  }

  // The digest does not collide on the texts that identify these two evidences.
  predicate NoCollision(digest: Digest, a: Preferred, b: Preferred) {
    ContentHash(digest, a) == ContentHash(digest, b) ==>
      Canonical(EvidenceIdentity(a)) == Canonical(EvidenceIdentity(b))
  }

  // A digest that does not collide on them tells two evidences apart, field and all.
  lemma ContentHashIdentifies(digest: Digest, a: Preferred, b: Preferred)
    requires NoCollision(digest, a, b)
    ensures ContentHash(digest, a) == ContentHash(digest, b) <==> a == b
  {
    var fieldOfA, fieldOfB := if a.field.Output? then OUTPUT_NAME else ERROR_NAME,
                              if b.field.Output? then OUTPUT_NAME else ERROR_NAME;
    assert FIELD_KEY[0] != VALUE_KEY[0] && |OUTPUT_NAME| != |ERROR_NAME|;
    MeaningOfPair(FIELD_KEY, Str(fieldOfA), VALUE_KEY, Str(a.value));
    MeaningOfPair(FIELD_KEY, Str(fieldOfB), VALUE_KEY, Str(b.value));
    SameTextExactlyWhenSameMeaning(EvidenceIdentity(a), EvidenceIdentity(b));
    if ContentHash(digest, a) == ContentHash(digest, b) {
      var meaning := Meaning(EvidenceIdentity(a)).members;
      assert meaning[FIELD_KEY] == VStr(fieldOfA) == VStr(fieldOfB);
      assert meaning[VALUE_KEY] == VStr(a.value) == VStr(b.value);
    }
  }

  // ------------------------------------------------------------------- one observation

  function RequestedOffset(insp: Inspection): nat {
    if |insp.jobIds| == 1 && SafeInteger(insp.offset) && 0 <= insp.offset then insp.offset else 0
  }

  predicate HashMismatch(digest: Digest, job: JobEvidence, insp: Inspection) {
    && job.jobId in insp.jobIds && insp.hash.Some?
    && (PreferredEvidence(job).None? || ContentHash(digest, PreferredEvidence(job).value) != insp.hash.value)
  }

  // Where the window of the preferred evidence begins.
  function WindowOffset(digest: Digest, job: JobEvidence, insp: Inspection): (r: nat)
    ensures PreferredEvidence(job).Some? ==> r <= |PreferredEvidence(job).value.value|
  {
    var requested :=
      if job.jobId in insp.jobIds && !HashMismatch(digest, job, insp) then RequestedOffset(insp) else 0;
    var preferred := PreferredEvidence(job);
    if preferred.None? then 0
    else if requested <= |preferred.value.value| then requested else |preferred.value.value|
  }

  function FirstOffered(digest: Digest, job: JobEvidence, insp: Inspection): Option<Text> {
    var preferred := PreferredEvidence(job);
    if preferred.None? then None else Some(preferred.value.value[WindowOffset(digest, job, insp)..])
  }

  function SecondOffered(job: JobEvidence): Option<Text> {
    FieldOf(job, OtherField(FirstField(job)))
  }

  function WindowOf(evidence: Preferred, offset: nat, included: nat, hash: string): Window {
    var end, total := offset + included, |evidence.value|;
    Window(evidence.field, offset, end, total, if end < total then Some(end) else None, hash)
  }

  function ServeJob(digest: Digest, job: JobEvidence, insp: Inspection, budget: Budget): (Served, Budget) {
    var offset := WindowOffset(digest, job, insp);
    var (first, left) := TakeOf(FirstOffered(digest, job, insp), budget);
    var (second, rest) := TakeOf(SecondOffered(job), left);
    var preferred := PreferredEvidence(job);
    var window :=
      if preferred.None? then None
      else Some(WindowOf(preferred.value, offset, first.includedChars, ContentHash(digest, preferred.value)));
    (ServedAs(job.jobId, FirstField(job), first, second, window), rest)
  }

  function ServedAs(jobId: string, field: Field, first: Take, second: Take, window: Option<Window>): Served {
    if field.Output? then Served(jobId, first, second, window) else Served(jobId, second, first, window)
  }

  const FULL_BUDGET := Budget(MAX_EVIDENCE_CHARS, 0)

  // The jobs of an observation share one budget, in this order.
  function Allocate(digest: Digest, jobs: seq<JobEvidence>, insp: Inspection, budget: Budget): (r: (seq<Served>, Budget))
    ensures |r.0| == |jobs|
  {
    if jobs == [] then ([], budget)
    else
      var (served, left) := Allocate(digest, jobs[..|jobs| - 1], insp, budget);
      var (last, rest) := ServeJob(digest, jobs[|jobs| - 1], insp, left);
      (served + [last], rest)
  }

  // Inspected jobs first, then those that did not succeed, then required ones, then
  // by id.
  predicate NoLater(a: JobEvidence, b: JobEvidence, insp: Inspection, idOrder: IdOrder) {
    if (a.jobId in insp.jobIds) != (b.jobId in insp.jobIds) then a.jobId in insp.jobIds
    else if a.succeeded != b.succeeded then b.succeeded
    else if a.required != b.required then a.required
    else idOrder(a.jobId, b.jobId)
  }

  function InsertJob(job: JobEvidence, jobs: seq<JobEvidence>, insp: Inspection, idOrder: IdOrder): seq<JobEvidence> {
    if jobs == [] || NoLater(job, jobs[0], insp, idOrder) then [job] + jobs
    else [jobs[0]] + InsertJob(job, jobs[1..], insp, idOrder)
  }

  function AllocationOrder(jobs: seq<JobEvidence>, insp: Inspection, idOrder: IdOrder): seq<JobEvidence> {
    if jobs == [] then []
    else InsertJob(jobs[0], AllocationOrder(jobs[1..], insp, idOrder), insp, idOrder)
  }

  // ------------------------------------------------------------------ what it amounts to

  function SpentOn(served: Served): nat {
    Spent(served.output) + Spent(served.error)
  }

  function IncludedOf(served: Served): nat {
    served.output.includedChars + served.error.includedChars
  }

  function OfferedOf(digest: Digest, job: JobEvidence, insp: Inspection): nat {
    Offered(FirstOffered(digest, job, insp)) + Offered(SecondOffered(job))
  }

  function Sum<T>(f: T -> nat, s: seq<T>): nat {
    if s == [] then 0 else Sum(f, s[..|s| - 1]) + f(s[|s| - 1])
  }

  lemma ServeConserves(digest: Digest, job: JobEvidence, insp: Inspection, budget: Budget)
    requires 0 <= budget.value
    ensures var (served, left) := ServeJob(digest, job, insp, budget);
      && left.value == budget.value - SpentOn(served) && 0 <= left.value
      && IncludedOf(served) + left.omittedChars == OfferedOf(digest, job, insp) + budget.omittedChars
  {
    var left := TakeOf(FirstOffered(digest, job, insp), budget).1;
    TakeConserves(FirstOffered(digest, job, insp), budget);
    TakeConserves(SecondOffered(job), left);
  }

  lemma {:induction false} AllocateConserves(digest: Digest, jobs: seq<JobEvidence>, insp: Inspection, budget: Budget)
    requires 0 <= budget.value
    ensures var (served, left) := Allocate(digest, jobs, insp, budget);
      && left.value == budget.value - Sum(SpentOn, served) && 0 <= left.value
      && Sum(IncludedOf, served) + left.omittedChars
         == Sum(job => OfferedOf(digest, job, insp), jobs) + budget.omittedChars
  {
    if jobs != [] {
      var init := jobs[..|jobs| - 1];
      AllocateConserves(digest, init, insp, budget);
      var (served, left) := Allocate(digest, init, insp, budget);
      ServeConserves(digest, jobs[|jobs| - 1], insp, left);
      assert Allocate(digest, jobs, insp, budget).0[..|init|] == served;
    }
  }

  lemma {:induction false} AllocatePrefix(digest: Digest, jobs: seq<JobEvidence>, insp: Inspection, budget: Budget, k: nat)
    requires k < |jobs|
    ensures Allocate(digest, jobs, insp, budget).0[k]
      == ServeJob(digest, jobs[k], insp, Allocate(digest, jobs[..k], insp, budget).1).0
  {
    var init := jobs[..|jobs| - 1];
    if k < |init| {
      AllocatePrefix(digest, init, insp, budget, k);
      assert init[..k] == jobs[..k];
    }
  }

  lemma {:induction false} InsertIsPermutation(job: JobEvidence, jobs: seq<JobEvidence>, insp: Inspection, idOrder: IdOrder)
    ensures multiset(InsertJob(job, jobs, insp, idOrder)) == multiset(jobs) + multiset{job}
  {
    if jobs != [] && !NoLater(job, jobs[0], insp, idOrder) {
      InsertIsPermutation(job, jobs[1..], insp, idOrder);
      assert jobs == [jobs[0]] + jobs[1..];
    }
  }

  lemma {:induction false} OrderIsPermutation(jobs: seq<JobEvidence>, insp: Inspection, idOrder: IdOrder)
    ensures multiset(AllocationOrder(jobs, insp, idOrder)) == multiset(jobs)
  {
    if jobs != [] {
      OrderIsPermutation(jobs[1..], insp, idOrder);
      InsertIsPermutation(jobs[0], AllocationOrder(jobs[1..], insp, idOrder), insp, idOrder);
      assert jobs == [jobs[0]] + jobs[1..];
    }
  }

  ghost predicate TotalOrder(idOrder: IdOrder) {
    && (forall a, b :: idOrder(a, b) || idOrder(b, a))
    && (forall a, b, c :: idOrder(a, b) && idOrder(b, c) ==> idOrder(a, c))
  }

  predicate InAllocationOrder(jobs: seq<JobEvidence>, insp: Inspection, idOrder: IdOrder) {
    forall i, j :: 0 <= i < j < |jobs| ==> NoLater(jobs[i], jobs[j], insp, idOrder)
  }

  lemma {:induction false} InsertKeepsOrder(job: JobEvidence, jobs: seq<JobEvidence>, insp: Inspection, idOrder: IdOrder)
    requires TotalOrder(idOrder) && InAllocationOrder(jobs, insp, idOrder)
    ensures InAllocationOrder(InsertJob(job, jobs, insp, idOrder), insp, idOrder)
  {
    if jobs != [] && !NoLater(job, jobs[0], insp, idOrder) {
      var rest := InsertJob(job, jobs[1..], insp, idOrder);
      InsertKeepsOrder(job, jobs[1..], insp, idOrder);
      InsertIsPermutation(job, jobs[1..], insp, idOrder);
      forall other | other in rest ensures NoLater(jobs[0], other, insp, idOrder) {
        assert other in multiset(rest);
        if other != job {
          assert other in jobs[1..];
        }
      }
    }
  }

  // Inspected jobs, then those that did not succeed, then required ones, then by id.
  lemma {:induction false} AllocationIsOrdered(jobs: seq<JobEvidence>, insp: Inspection, idOrder: IdOrder)
    requires TotalOrder(idOrder)
    ensures InAllocationOrder(AllocationOrder(jobs, insp, idOrder), insp, idOrder)
    ensures multiset(AllocationOrder(jobs, insp, idOrder)) == multiset(jobs)
    ensures var order := AllocationOrder(jobs, insp, idOrder);
      forall i, j :: 0 <= i < j < |order| ==>
        && (order[j].jobId in insp.jobIds ==> order[i].jobId in insp.jobIds)
        && ((order[i].jobId in insp.jobIds <==> order[j].jobId in insp.jobIds) ==>
            && (!order[j].succeeded ==> !order[i].succeeded)
            && (order[i].succeeded == order[j].succeeded ==>
                && (order[j].required ==> order[i].required)
                && (order[i].required == order[j].required ==> idOrder(order[i].jobId, order[j].jobId))))
  {
    OrderIsPermutation(jobs, insp, idOrder);
    if jobs != [] {
      AllocationIsOrdered(jobs[1..], insp, idOrder);
      InsertKeepsOrder(jobs[0], AllocationOrder(jobs[1..], insp, idOrder), insp, idOrder);
    }
  }

  // The one inspected job comes first, before anything else can use up the budget.
  lemma {:induction false} InspectedComesFirst(jobs: seq<JobEvidence>, insp: Inspection, idOrder: IdOrder, job: JobEvidence)
    requires job in jobs && insp.jobIds == {job.jobId}
    requires forall other :: other in jobs && other.jobId == job.jobId ==> other == job
    ensures AllocationOrder(jobs, insp, idOrder) != [] && AllocationOrder(jobs, insp, idOrder)[0] == job
  {
    var rest := AllocationOrder(jobs[1..], insp, idOrder);
    OrderIsPermutation(jobs[1..], insp, idOrder);
    assert jobs == [jobs[0]] + jobs[1..];
    forall other | other in rest ensures other in jobs {
      assert other in multiset(rest);
    }
    if job in jobs[1..] {
      InspectedComesFirst(jobs[1..], insp, idOrder, job);
    }
    assert rest != [] ==> rest[0] in rest;
  }

  // boundedJobs: the served evidence by job id.
  function ById(served: seq<Served>): map<string, Served> {
    if served == [] then map[]
    else ById(served[..|served| - 1])[served[|served| - 1].jobId := served[|served| - 1]]
  }

  predicate DistinctIds(jobs: seq<JobEvidence>) {
    forall i, j :: 0 <= i < j < |jobs| ==> jobs[i].jobId != jobs[j].jobId
  }

  lemma {:induction false} EachById(served: seq<Served>, k: nat)
    requires k < |served| && forall i, j :: 0 <= i < j < |served| ==> served[i].jobId != served[j].jobId
    ensures served[k].jobId in ById(served) && ById(served)[served[k].jobId] == served[k]
  {
    if k < |served| - 1 {
      EachById(served[..|served| - 1], k);
    }
  }

  lemma AppearsTwice<T>(s: seq<T>, a: nat, b: nat)
    requires a < b < |s| && s[a] == s[b]
    ensures 2 <= multiset(s)[s[a]]
  {
    assert s == s[..b] + s[b..];
    assert s[a] in s[..b] && s[b..][0] == s[a] && s[a] in s[b..];
    assert multiset(s) == multiset(s[..b]) + multiset(s[b..]);
  }

  lemma {:induction false} DistinctAppearOnce(jobs: seq<JobEvidence>, job: JobEvidence)
    requires DistinctIds(jobs)
    ensures multiset(jobs)[job] <= 1
  {
    if jobs != [] {
      var init, last := jobs[..|jobs| - 1], jobs[|jobs| - 1];
      assert jobs == init + [last];
      DistinctAppearOnce(init, job);
      assert last !in init;
    }
  }

  // A permutation of jobs with distinct ids has distinct ids.
  lemma PermutationKeepsIdsDistinct(jobs: seq<JobEvidence>, order: seq<JobEvidence>)
    requires DistinctIds(jobs) && multiset(order) == multiset(jobs)
    ensures DistinctIds(order)
  {
    forall a, b | 0 <= a < b < |order| ensures order[a].jobId != order[b].jobId {
      assert order[a] in multiset(order) && order[b] in multiset(order);
      assert order[a] in jobs && order[b] in jobs;
      if order[a] == order[b] {
        AppearsTwice(order, a, b);
        DistinctAppearOnce(jobs, order[a]);
      }
    }
  }

  lemma AllocateKeepsIds(digest: Digest, jobs: seq<JobEvidence>, insp: Inspection, budget: Budget, k: nat)
    requires k < |jobs|
    ensures Allocate(digest, jobs, insp, budget).0[k].jobId == jobs[k].jobId
  {
    AllocatePrefix(digest, jobs, insp, budget, k);
  }

  // Every job of the observation is there under its id, with what it was allocated.
  lemma EachJobIsBounded(digest: Digest, jobs: seq<JobEvidence>, order: seq<JobEvidence>, insp: Inspection, k: nat)
    requires DistinctIds(jobs) && multiset(order) == multiset(jobs) && k < |order|
    ensures var served := Allocate(digest, order, insp, FULL_BUDGET).0;
      order[k].jobId in ById(served) && ById(served)[order[k].jobId] == served[k]
  {
    hide ServeJob;
    var served := Allocate(digest, order, insp, FULL_BUDGET).0;
    PermutationKeepsIdsDistinct(jobs, order);
    forall i | 0 <= i < |order| ensures served[i].jobId == order[i].jobId {
      AllocateKeepsIds(digest, order, insp, FULL_BUDGET, i);
    }
    EachById(served, k);
  }

  method ServeBounded(digest: Digest, job: JobEvidence, insp: Inspection, remaining: EvidenceBudget)
    returns (served: Served)
    modifies remaining
    ensures (served, remaining.Left()) == ServeJob(digest, job, insp, old(remaining.Left()))
  {
    var preferred := PreferredEvidence(job);
    var offset := WindowOffset(digest, job, insp);
    var first := remaining.TakeBoundedEvidence(FirstOffered(digest, job, insp));
    var second := remaining.TakeBoundedEvidence(SecondOffered(job));
    var window := if preferred.None? then None
      else Some(WindowOf(preferred.value, offset, first.includedChars, ContentHash(digest, preferred.value)));
    served := ServedAs(job.jobId, FirstField(job), first, second, window);
  }

  // observationFor: the total encoded evidence stays within the budget, every character
  // on offer is included or counted as omitted, and a job asked for by its cursor is
  // served the page behind that cursor.
  method ObservationFor(digest: Digest, idOrder: IdOrder, jobs: seq<JobEvidence>, insp: Inspection)
    returns (boundedJobs: map<string, Served>, omittedChars: nat)
    ensures var order := AllocationOrder(jobs, insp, idOrder);
      var served := Allocate(digest, order, insp, FULL_BUDGET).0;
      && boundedJobs == ById(served)
      && Sum(SpentOn, served) <= MAX_EVIDENCE_CHARS
      && Sum(IncludedOf, served) + omittedChars == Sum(job => OfferedOf(digest, job, insp), order)
      && multiset(order) == multiset(jobs)
    ensures DistinctIds(jobs) ==>
      forall job, offset: nat ::
        (job in jobs && PreferredEvidence(job).Some? && insp == CursorInspection(digest, job, offset)) ==>
        job.jobId in boundedJobs && boundedJobs[job.jobId] == PageAt(digest, job, offset)
    ensures DistinctIds(jobs) ==> forall job :: job in jobs ==>
      job.jobId in boundedJobs && Serves(digest, job, insp, boundedJobs[job.jobId])
    ensures DistinctIds(jobs) && jobs != [] ==>
      var job := AllocationOrder(jobs, insp, idOrder)[0];
      && job.jobId in boundedJobs && ServesWhole(job, insp, boundedJobs[job.jobId])
  {
    hide Serves, ServesWhole;
    hide AllocationOrder, PageAt, CursorInspection, PreferredEvidence, DistinctIds;
    var order := AllocationOrder(jobs, insp, idOrder);
    OrderIsPermutation(jobs, insp, idOrder);
    var remaining := new EvidenceBudget(MAX_EVIDENCE_CHARS);
    boundedJobs := map[];
    ghost var done: seq<Served> := [];
    for i := 0 to |order|
      invariant (done, remaining.Left()) == Allocate(digest, order[..i], insp, FULL_BUDGET)
      invariant boundedJobs == ById(done)
    {
      assert order[..i + 1][..i] == order[..i];
      var served := ServeBounded(digest, order[i], insp, remaining);
      boundedJobs := boundedJobs[served.jobId := served];
      assert (done + [served])[..|done|] == done;
      done := done + [served];
    }
    assert order[..|order|] == order;
    AllocateConserves(digest, order, insp, FULL_BUDGET);
    omittedChars := remaining.omittedChars;
    if DistinctIds(jobs) {
      EveryCursorIsServed(digest, idOrder, jobs, insp);
      EveryJobIsServed(digest, order, jobs, insp);
    }
  }

  // The excerpt of a field from an offset on: raw characters, and the marker for those
  // that follow; or nothing.
  predicate IsExcerpt(value: Option<Text>, offset: nat, take: Take) {
    match value
    case None => take == Take(None, 0)
    case Some(v) =>
      var end := offset + take.includedChars;
      && end <= |v|
      && (take.text.None? ==> take.includedChars == 0)
      && (take.text.Some? ==>
          take.text.value == v[offset..end] + if end < |v| then TruncationMarker(|v| - end) else [])
  }

  // What an observation says of a job.  Its window is on the output of a job that
  // succeeded and on the error of any other, if there is one, and else on the other
  // field; it begins where the inspection asks, unless its hash is of other evidence.
  predicate Serves(digest: Digest, job: JobEvidence, insp: Inspection, s: Served) {
    && (s.window.None? <==> job.output.None? && job.error.None?)
    && (s.window.None? ==> s.output == Take(None, 0) && s.error == Take(None, 0))
    && (s.window.Some? ==>
        var w := s.window.value;
        && (w.field.Output? <==> job.output.Some? && (job.succeeded || job.error.None?))
        && IsExcerpt(job.output, if w.field.Output? then w.offset else 0, s.output)
        && IsExcerpt(job.error, if w.field.Output? then 0 else w.offset, s.error)
        && var value := if w.field.Output? then job.output.value else job.error.value;
        && w.end == w.offset + (if w.field.Output? then s.output else s.error).includedChars
        && w.totalChars == |value| && w.nextOffset == (if w.end < |value| then Some(w.end) else None)
        && w.contentHash == ContentHash(digest, Preferred(w.field, value))
        && w.offset == if insp.jobIds == {job.jobId} && 0 <= insp.offset <= MAX_SAFE_INTEGER
                          && (insp.hash.Some? ==> insp.hash.value == w.contentHash)
                       then if insp.offset <= |value| then insp.offset else |value|
                       else 0)
  }

  // The first job of an observation that is not inspected gets the whole of its own
  // kind of evidence, if that fits.
  predicate ServesWhole(job: JobEvidence, insp: Inspection, s: Served) {
    job.jobId !in insp.jobIds ==>
      && (job.succeeded && job.output.Some? && EncodedLength(job.output.value) <= MAX_EVIDENCE_CHARS ==>
          && s.output == Take(job.output, |job.output.value|)
          && s.window.Some? && s.window.value.field == Output && s.window.value.nextOffset.None?)
      && (!job.succeeded && job.error.Some? && EncodedLength(job.error.value) <= MAX_EVIDENCE_CHARS ==>
          && s.error == Take(job.error, |job.error.value|)
          && s.window.Some? && s.window.value.field == Error && s.window.value.nextOffset.None?)
  }

  lemma TakeIsExcerpt(v: Text, offset: nat, budget: Budget)
    requires offset <= |v|
    ensures IsExcerpt(Some(v), offset, TakeOf(Some(v[offset..]), budget).0)
  {
    hide TakeOf, Cost, EncodedLength, TruncationMarker;
    var rest := v[offset..];
    var take := TakeOf(Some(rest), budget).0;
    TakeServesAnEdge(rest, budget);
    assert rest[..take.includedChars] == v[offset..offset + take.includedChars];
    if take.text.Some? && take.includedChars == |rest| {
      assert take.text.value == v[offset..|v|] + [];
    }
  }

  lemma OneInspected(insp: Inspection, id: string)
    ensures id in insp.jobIds && |insp.jobIds| == 1 <==> insp.jobIds == {id}
  {
    if id in insp.jobIds && |insp.jobIds| == 1 {
      assert |insp.jobIds - {id}| == 0;
    }
  }

  lemma ServeJobServes(digest: Digest, job: JobEvidence, insp: Inspection, budget: Budget)
    ensures Serves(digest, job, insp, ServeJob(digest, job, insp, budget).0)
  {
    hide IsExcerpt, Search, Costs, ContentHash;
    OneInspected(insp, job.jobId);
    var preferred, second := PreferredEvidence(job), SecondOffered(job);
    if preferred.Some? {
      TakeIsExcerpt(preferred.value.value, WindowOffset(digest, job, insp), budget);
    }
    if second.Some? {
      assert second.value[0..] == second.value;
      TakeIsExcerpt(second.value, 0, TakeOf(FirstOffered(digest, job, insp), budget).1);
    }
    NoneIsExcerpt();
  }

  lemma NoneIsExcerpt()
    ensures forall offset :: IsExcerpt(None, offset, Take(None, 0))
  {
  }

  lemma FirstServesWhole(digest: Digest, job: JobEvidence, insp: Inspection)
    ensures ServesWhole(job, insp, ServeJob(digest, job, insp, FULL_BUDGET).0)
  {
    var field := FieldOf(job, FirstField(job));
    assert field.Some? ==> field.value[0..] == field.value;
  }

  lemma EveryJobIsServed(digest: Digest, order: seq<JobEvidence>, jobs: seq<JobEvidence>, insp: Inspection)
    requires DistinctIds(jobs) && multiset(order) == multiset(jobs)
    ensures var bounded := ById(Allocate(digest, order, insp, FULL_BUDGET).0);
      && (forall job :: job in jobs ==> job.jobId in bounded && Serves(digest, job, insp, bounded[job.jobId]))
      && (jobs != [] ==>
          && order != [] && order[0].jobId in bounded && ServesWhole(order[0], insp, bounded[order[0].jobId]))
  {
    hide Serves, ServesWhole, ServeJob, ById, Allocate;
    var served := Allocate(digest, order, insp, FULL_BUDGET).0;
    forall job | job in jobs ensures job.jobId in ById(served) && Serves(digest, job, insp, ById(served)[job.jobId]) {
      assert job in multiset(order);
      var k :| 0 <= k < |order| && order[k] == job;
      EachJobIsBounded(digest, jobs, order, insp, k);
      AllocatePrefix(digest, order, insp, FULL_BUDGET, k);
      ServeJobServes(digest, job, insp, Allocate(digest, order[..k], insp, FULL_BUDGET).1);
    }
    if jobs != [] {
      assert jobs[0] in multiset(order);
      EachJobIsBounded(digest, jobs, order, insp, 0);
      AllocatePrefix(digest, order, insp, FULL_BUDGET, 0);
      NoneAllocated(digest, order, insp);
      FirstServesWhole(digest, order[0], insp);
    }
  }

  lemma NoneAllocated(digest: Digest, order: seq<JobEvidence>, insp: Inspection)
    ensures Allocate(digest, order[..0], insp, FULL_BUDGET) == ([], FULL_BUDGET)
  {
  }

  lemma EveryCursorIsServed(digest: Digest, idOrder: IdOrder, jobs: seq<JobEvidence>, insp: Inspection)
    requires DistinctIds(jobs)
    ensures var served := Allocate(digest, AllocationOrder(jobs, insp, idOrder), insp, FULL_BUDGET).0;
      forall job, offset: nat ::
        (job in jobs && PreferredEvidence(job).Some? && insp == CursorInspection(digest, job, offset)) ==>
        job.jobId in ById(served) && ById(served)[job.jobId] == PageAt(digest, job, offset)
  {
    hide Allocate, AllocationOrder, ById, PageAt, CursorInspection;
    forall job, offset: nat | job in jobs && PreferredEvidence(job).Some?
      && insp == CursorInspection(digest, job, offset)
      ensures var served := Allocate(digest, AllocationOrder(jobs, insp, idOrder), insp, FULL_BUDGET).0;
        job.jobId in ById(served) && ById(served)[job.jobId] == PageAt(digest, job, offset)
    {
      ObservationServesThePage(digest, idOrder, jobs, job, offset);
    }
  }

  // ------------------------------------------------------------------------- paging

  datatype InspectCommand = InspectCommand(
    jobIds: Option<seq<string>>,
    evidenceOffset: Option<int>,
    evidenceHash: Option<string>)

  // What the parser requires of an inspect command.
  predicate WellFormed(command: InspectCommand) {
    && (command.evidenceOffset.Some? <==> command.evidenceHash.Some?)
    && (command.evidenceOffset.Some? ==>
        && 0 <= command.evidenceOffset.value <= MAX_EVIDENCE_OFFSET
        && command.jobIds.Some? && |command.jobIds.value| == 1
        && IsSha256(command.evidenceHash.value))
  }

  function FindJob(jobs: seq<JobEvidence>, jobId: string): Option<JobEvidence> {
    if jobs == [] then None
    else if jobs[0].jobId == jobId then Some(jobs[0])
    else FindJob(jobs[1..], jobId)
  }

  // validateCommandBeforeAcceptance, for an inspect command.
  predicate Accepted(digest: Digest, jobs: seq<JobEvidence>, command: InspectCommand)
    requires WellFormed(command)
  {
    && (command.jobIds.Some? ==> forall id :: id in command.jobIds.value ==> FindJob(jobs, id).Some?)
    && (command.evidenceOffset.Some? ==>
        var evidence := PreferredEvidence(FindJob(jobs, command.jobIds.value[0]).value);
        evidence.Some? && command.evidenceHash.value == ContentHash(digest, evidence.value))
  }

  // The inspection that the reducer keeps of an accepted command.
  function InspectionOf(command: InspectCommand, known: set<string>): Inspection {
    Inspection(
      if command.jobIds.Some? then set id | id in command.jobIds.value else known,
      if command.evidenceOffset.Some? && SafeInteger(command.evidenceOffset.value) && 0 <= command.evidenceOffset.value
      then command.evidenceOffset.value else 0,
      if command.evidenceHash.Some? && IsSha256(command.evidenceHash.value) then command.evidenceHash else None)
  }

  // The command that follows the cursor of a window.
  function FollowCursor(jobId: string, window: Window): InspectCommand
    requires window.nextOffset.Some?
  {
    InspectCommand(Some([jobId]), Some(window.nextOffset.value), Some(window.contentHash))
  }

  function CursorInspection(digest: Digest, job: JobEvidence, offset: nat): Inspection
    requires PreferredEvidence(job).Some?
  {
    Inspection({job.jobId}, offset, Some(ContentHash(digest, PreferredEvidence(job).value)))
  }

  // The page that an observation serves for this inspection: the inspected job is
  // served first, out of the full budget.
  function PageAt(digest: Digest, job: JobEvidence, offset: nat): Served
    requires PreferredEvidence(job).Some?
  {
    ServeJob(digest, job, CursorInspection(digest, job, offset), FULL_BUDGET).0
  }

  lemma ObservationServesThePage(digest: Digest, idOrder: IdOrder, jobs: seq<JobEvidence>, job: JobEvidence, offset: nat)
    requires DistinctIds(jobs) && job in jobs && PreferredEvidence(job).Some?
    ensures var insp := CursorInspection(digest, job, offset);
      var bounded := ById(Allocate(digest, AllocationOrder(jobs, insp, idOrder), insp, FULL_BUDGET).0);
      job.jobId in bounded && bounded[job.jobId] == PageAt(digest, job, offset)
  {
    hide ServeJob;
    var insp := CursorInspection(digest, job, offset);
    var order := AllocationOrder(jobs, insp, idOrder);
    InspectedComesFirst(jobs, insp, idOrder, job);
    OrderIsPermutation(jobs, insp, idOrder);
    AllocatePrefix(digest, order, insp, FULL_BUDGET, 0);
    assert order[..0] == [];
    EachJobIsBounded(digest, jobs, order, insp, 0);
  }

  lemma {:induction false} FindsTheJob(jobs: seq<JobEvidence>, job: JobEvidence)
    requires job in jobs
    requires forall other :: other in jobs && other.jobId == job.jobId ==> other == job
    ensures FindJob(jobs, job.jobId) == Some(job)
  {
    if jobs[0].jobId != job.jobId {
      assert job in jobs[1..];
      FindsTheJob(jobs[1..], job);
    }
  }

  // A cursor that is followed is accepted, and asks for exactly the page behind the
  // window it came from.
  lemma CursorIsAccepted(digest: Digest, jobs: seq<JobEvidence>, job: JobEvidence, window: Window, known: set<string>)
    requires IsSha256(window.contentHash)
    requires job in jobs && PreferredEvidence(job).Some?
    requires forall other :: other in jobs && other.jobId == job.jobId ==> other == job
    requires window.nextOffset.Some? && window.nextOffset.value <= MAX_EVIDENCE_OFFSET
    requires window.contentHash == ContentHash(digest, PreferredEvidence(job).value)
    ensures var command := FollowCursor(job.jobId, window);
      && WellFormed(command) && Accepted(digest, jobs, command)
      && InspectionOf(command, known) == CursorInspection(digest, job, window.nextOffset.value)
  {
    FindsTheJob(jobs, job);
    assert (set id | id in [job.jobId]) == {job.jobId};
  }

  // A cursor of evidence that has been replaced meanwhile is refused, and only then.
  lemma CursorIsFencedByItsEvidence(digest: Digest, jobs: seq<JobEvidence>, job: JobEvidence, seen: Preferred, window: Window)
    requires PreferredEvidence(job).Some? ==> NoCollision(digest, seen, PreferredEvidence(job).value)
    requires IsSha256(window.contentHash)
    requires job in jobs && forall other :: other in jobs && other.jobId == job.jobId ==> other == job
    requires window.nextOffset.Some? && window.nextOffset.value <= MAX_EVIDENCE_OFFSET
    requires window.contentHash == ContentHash(digest, seen)
    ensures WellFormed(FollowCursor(job.jobId, window))
    ensures Accepted(digest, jobs, FollowCursor(job.jobId, window)) <==> PreferredEvidence(job) == Some(seen)
  {
    FindsTheJob(jobs, job);
    if PreferredEvidence(job).Some? {
      ContentHashIdentifies(digest, seen, PreferredEvidence(job).value);
    }
  }

  // With the full budget some of a text is always served: at worst one character
  // and the marker.
  lemma FullBudgetMakesProgress(v: Text)
    requires v != [] && |v| <= MAX_SAFE_INTEGER
    ensures 0 < TakeOf(Some(v), FULL_BUDGET).0.includedChars
  {
    var budget := FULL_BUDGET;
    TakeServesAnEdge(v, budget);
    CostOfCandidate(v, 0);
    CostOfCandidate(v, 1);
    EncodedBounds(v[..0]);
    EncodedBounds(v[..1]);
    EncodedBounds(TRUNCATED);
    EncodedBounds(CHARS);
    SafeDigits(|v|);
    SafeDigits(|v| - 1);
  }

  // What a page is of: its window of the evidence, and as its text the raw characters
  // of that window, followed by the marker where the evidence goes on.
  predicate IsPage(page: Served, evidence: Preferred, hash: string, offset: nat) {
    && page.window.Some?
    && var w := page.window.value;
    && w.offset == offset <= w.end <= |evidence.value|
    && w == WindowOf(evidence, offset, w.end - offset, hash)
    && (offset < |evidence.value| ==> offset < w.end)
    && page.In(evidence.field).text == Some(evidence.value[offset..w.end] +
         if w.end < |evidence.value| then TruncationMarker(|evidence.value| - w.end) else [])
  }

  lemma TakeIsRawAndMarker(v: Text, offset: nat)
    requires offset <= |v| <= MAX_SAFE_INTEGER
    ensures var take := TakeOf(Some(v[offset..]), FULL_BUDGET).0;
      var end := offset + take.includedChars;
      && end <= |v| && (offset < |v| ==> offset < end)
      && take.text == Some(v[offset..end] + if end < |v| then TruncationMarker(|v| - end) else [])
  {
    hide TakeOf, EncodedLength;
    var rest := v[offset..];
    var take := TakeOf(Some(rest), FULL_BUDGET).0;
    TakeServesAnEdge(rest, FULL_BUDGET);
    var end := offset + take.includedChars;
    if rest == [] {
      NothingIsServedWhole(rest);
    } else {
      FullBudgetMakesProgress(rest);
      assert take.text.Some?;
    }
    assert rest[..take.includedChars] == v[offset..end];
    if end == |v| {
      assert v[offset..end] + [] == rest;
    } else {
      assert |rest| - take.includedChars == |v| - end;
    }
  }

  lemma NothingIsServedWhole(rest: Text)
    requires rest == []
    ensures TakeOf(Some(rest), FULL_BUDGET).0 == Take(Some(rest), 0)
  {
    EncodedBounds(rest);
  }

  lemma PageIsItsWindow(digest: Digest, job: JobEvidence, offset: nat)
    requires PreferredEvidence(job).Some?
    requires offset <= |PreferredEvidence(job).value.value| <= MAX_SAFE_INTEGER
    ensures var evidence := PreferredEvidence(job).value;
      IsPage(PageAt(digest, job, offset), evidence, ContentHash(digest, evidence), offset)
  {
    hide TakeOf, ContentHash, TruncationMarker;
    var insp := CursorInspection(digest, job, offset);
    assert |{job.jobId}| == 1;
    assert WindowOffset(digest, job, insp) == offset;
    TakeIsRawAndMarker(PreferredEvidence(job).value.value, offset);
  }

  // The pages that a controller gets by following cursors from this offset.
  function Pages(digest: Digest, job: JobEvidence, offset: nat): (r: seq<Served>)
    requires PreferredEvidence(job).Some?
    requires offset <= |PreferredEvidence(job).value.value| <= MAX_SAFE_INTEGER
    ensures r != []
    decreases |PreferredEvidence(job).value.value| - offset
  {
    PageIsItsWindow(digest, job, offset);
    var page := PageAt(digest, job, offset);
    if page.window.value.nextOffset.None? then [page]
    else [page] + Pages(digest, job, page.window.value.nextOffset.value)
  }

  // The pages tile the evidence from an offset on: the first begins there, every other
  // begins where the one before ends and its cursor points, every one but the last makes
  // progress, and the last ends the evidence and has no cursor.
  predicate Tile(pages: seq<Served>, evidence: Preferred, hash: string, offset: nat) {
    && pages != [] && IsPage(pages[0], evidence, hash, offset)
    && var w := pages[0].window.value;
    if w.nextOffset.None? then |pages| == 1 && w.end == |evidence.value|
    else w.nextOffset == Some(w.end) && offset < w.end && Tile(pages[1..], evidence, hash, w.end)
  }

  // What a controller reads: of each page's text as many characters as its window says.
  function ReadOff(page: Served): Text {
    if page.window.None? || page.In(page.window.value.field).text.None? then []
    else
      var w, text := page.window.value, page.In(page.window.value.field).text.value;
      if w.offset <= w.end && w.end - w.offset <= |text| then text[..w.end - w.offset] else text
  }

  function ReadThrough(pages: seq<Served>): Text {
    if pages == [] then [] else ReadOff(pages[0]) + ReadThrough(pages[1..])
  }

  lemma PageReadsItsWindow(page: Served, evidence: Preferred, hash: string, offset: nat)
    requires IsPage(page, evidence, hash, offset)
    ensures ReadOff(page) == evidence.value[offset..page.window.value.end]
  {
  }

  lemma PageBounds(page: Served, evidence: Preferred, hash: string, offset: nat)
    requires IsPage(page, evidence, hash, offset)
    ensures var w := page.window.value;
      && w.offset == offset <= w.end <= |evidence.value|
      && (w.nextOffset.Some? ==> w.nextOffset == Some(w.end) && offset < w.end)
      && (w.nextOffset.None? ==> w.end == |evidence.value|)
  {
  }

  lemma SplitText(v: Text, i: nat, j: nat)
    requires i <= j <= |v|
    ensures v[i..] == v[i..j] + v[j..]
  {
  }

  lemma TileBehind(page: Served, pages: seq<Served>, evidence: Preferred, hash: string, offset: nat)
    requires IsPage(page, evidence, hash, offset) && page.window.value.nextOffset.Some?
    requires Tile(pages, evidence, hash, page.window.value.end)
    requires ReadThrough(pages) == evidence.value[page.window.value.end..]
    ensures Tile([page] + pages, evidence, hash, offset)
    ensures ReadThrough([page] + pages) == evidence.value[offset..]
  {
    PageReadsItsWindow(page, evidence, hash, offset);
    PageBounds(page, evidence, hash, offset);
    hide IsPage, ReadOff;
    ReadFirst(page, pages);
    SplitText(evidence.value, offset, page.window.value.end);
    assert ([page] + pages)[1..] == pages;
  }

  lemma ReadFirst(page: Served, pages: seq<Served>)
    ensures ReadThrough([page] + pages) == ReadOff(page) + ReadThrough(pages)
  {
    assert ([page] + pages)[1..] == pages;
  }

  lemma LastPage(page: Served, evidence: Preferred, hash: string, offset: nat)
    requires IsPage(page, evidence, hash, offset) && page.window.value.nextOffset.None?
    ensures Tile([page], evidence, hash, offset)
    ensures ReadThrough([page]) == evidence.value[offset..]
  {
    hide TruncationMarker;
    PageReadsItsWindow(page, evidence, hash, offset);
    assert [page][1..] == [];
    assert ReadThrough([page]) == ReadOff(page) + [];
  }

  // Paging is complete and terminates: the pages tile the rest of the evidence, and
  // what the controller reads off their texts is exactly that rest.
  lemma {:induction false} PagingIsComplete(digest: Digest, job: JobEvidence, offset: nat)
    requires PreferredEvidence(job).Some?
    requires offset <= |PreferredEvidence(job).value.value| <= MAX_SAFE_INTEGER
    ensures var evidence, pages := PreferredEvidence(job).value, Pages(digest, job, offset);
      && Tile(pages, evidence, ContentHash(digest, evidence), offset)
      && ReadThrough(pages) == evidence.value[offset..]
    decreases |PreferredEvidence(job).value.value| - offset
  {
    hide PageAt, ContentHash;
    var evidence := PreferredEvidence(job).value;
    var hash := ContentHash(digest, evidence);
    var page := PageAt(digest, job, offset);
    PageIsItsWindow(digest, job, offset);
    if page.window.value.nextOffset.Some? {
      var next := page.window.value.end;
      PagingIsComplete(digest, job, next);
      TileBehind(page, Pages(digest, job, next), evidence, hash, offset);
    } else {
      LastPage(page, evidence, hash, offset);
    }
  }

  // Whatever an observation served of a job, pages behind its cursor tile the rest.
  lemma AnyCursorLeadsToTheEnd(digest: Digest, job: JobEvidence, insp: Inspection, budget: Budget)
    requires PreferredEvidence(job).Some? && 0 <= budget.value
    requires |PreferredEvidence(job).value.value| <= MAX_SAFE_INTEGER
    ensures var evidence, window := PreferredEvidence(job).value, ServeJob(digest, job, insp, budget).0.window;
      && window.Some? && window.value.offset <= window.value.end <= |evidence.value|
      && window.value.contentHash == ContentHash(digest, evidence)
      && (window.value.nextOffset.None? <==> window.value.end == |evidence.value|)
      && (window.value.nextOffset.Some? ==>
          && window.value.nextOffset.value == window.value.end
          && Tile(Pages(digest, job, window.value.end), evidence, window.value.contentHash, window.value.end)
          && ReadThrough(Pages(digest, job, window.value.end)) == evidence.value[window.value.end..])
  {
    hide TakeOf, ContentHash, Tile, ReadThrough;
    TakeConserves(FirstOffered(digest, job, insp), budget);
    var window := ServeJob(digest, job, insp, budget).0.window.value;
    if window.nextOffset.Some? {
      PagingIsComplete(digest, job, window.end);
    }
  }
}
