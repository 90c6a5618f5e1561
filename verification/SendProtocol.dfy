/**
 * The write-ahead protocol of the controller turn: request, checkpoint, click,
 * response, with a crash possible anywhere and any number of restarts.
 *
 * `history` is the permanent event log with the send clicks woven in where they
 * happened.  A process only appends to it, so a crash leaves one of its prefixes.
 * The browser adapter keeps the write_ahead_v1 contract: in one call it clicks at
 * most once, and only after a submission checkpoint of that call is durable.  What
 * it observes, answers and fails with is left open, and so is what a response says.
 */
module SendProtocol {
  import opened Common

  datatype Submission = Requested | Submitting | PossiblySent | Submitted

  datatype Turn = Turn(requestId: string, round: int, repairAttempt: nat, submission: Submission, writeAhead: bool)

  // What a failure says about the submission.
  datatype Reported = NotReported | DefinitelyNotSent | Sent(submission: Submission)

  datatype Event =
    | RunResumed
    | TurnRequested(requestId: string, round: int, repairAttempt: nat, writeAhead: bool)
    | PromptStaged(requestId: string)
    | SubmissionCheckpoint(requestId: string, submission: Submission)
    | EvidenceRejected(requestId: string)
    | ResponseReceived(requestId: string)
    | ResponseRejected
    | ResponseReconciled(requestId: string)
    | RetryConflict(requestId: string)
    | CommandAccepted(requestId: string)
    | TurnAbandoned(requestId: string, roundNotConsumed: bool)
    | RunFailed(failedRequest: Option<string>, reported: Reported)
    | RunEnded

  datatype Item = Log(event: Event) | Click(requestId: string)

  datatype State = State(pending: seq<Turn>, round: int, ended: bool, notSentFailure: Option<string>)

  const INITIAL := State([], 0, false, None)

  // ---------------------------------------------------------------------- reducer

  function Others(turns: seq<Turn>, requestId: string): (r: seq<Turn>)
    ensures |r| <= |turns| && forall t :: t in r <==> t in turns && t.requestId != requestId
    ensures (forall t :: t in turns ==> t.requestId == requestId) ==> r == []
  {
    if turns == [] then []
    else (if turns[0].requestId == requestId then [] else [turns[0]]) + Others(turns[1..], requestId)
  }

  function WithSubmission(turns: seq<Turn>, requestId: string, submission: Submission, sticky: bool): (r: seq<Turn>)
    ensures |r| == |turns|
    ensures forall i :: 0 <= i < |turns| ==> r[i].requestId == turns[i].requestId && r[i].writeAhead == turns[i].writeAhead
    ensures forall i :: 0 <= i < |turns| && turns[i].requestId != requestId ==> r[i] == turns[i]
    ensures forall i :: 0 <= i < |turns| && turns[i].requestId == requestId ==>
      r[i].submission == if sticky && turns[i].submission.Submitted? then Submitted else submission
  {
    if turns == [] then []
    else
      [if turns[0].requestId != requestId || (sticky && turns[0].submission.Submitted?) then turns[0]
       else turns[0].(submission := submission)] + WithSubmission(turns[1..], requestId, submission, sticky)
  }

  function Reduce(s: State, e: Event): State {
    match e
    case TurnRequested(requestId, round, attempt, writeAhead) =>
      s.(round := round, pending := Others(s.pending, requestId) + [Turn(requestId, round, attempt, Requested, writeAhead)])
    case SubmissionCheckpoint(requestId, submission) =>
      // anything but "submitted" and "possibly_sent" is recorded as submitting
      s.(pending := WithSubmission(s.pending, requestId, if submission.Requested? then Submitting else submission, false))
    case ResponseReceived(_) => s.(notSentFailure := None)
    case CommandAccepted(requestId) => s.(pending := Others(s.pending, requestId))
    case TurnAbandoned(requestId, roundNotConsumed) =>
      s.(pending := Others(s.pending, requestId),
         round := if roundNotConsumed && (exists t :: t in s.pending && t.requestId == requestId && t.round == s.round)
                  then if s.round < 1 then 0 else s.round - 1 else s.round)
    case RunFailed(request, reported) =>
      s.(pending := if request.Some? && reported.Sent? && !reported.submission.Requested?
                    then WithSubmission(s.pending, request.value, reported.submission, true) else s.pending,
         notSentFailure := if reported.DefinitelyNotSent? then request else None)
    case RunEnded => s.(pending := [], ended := true)
    case _ => s
  }

  function Replay(history: seq<Item>): State {
    if history == [] then INITIAL
    else
      var last := history[|history| - 1];
      var before := Replay(history[..|history| - 1]);
      if last.Log? then Reduce(before, last.event) else before
  }

  // isControllerTurnProvenUnsent
  predicate ProvenUnsent(s: State, t: Turn) {
    t.submission.Requested? && (t.writeAhead || s.notSentFailure == Some(t.requestId))
  }

  // ------------------------------------------------------------------------ clicks

  // The click at index i has a response that was recorded before index k.
  predicate AnsweredBefore(history: seq<Item>, i: nat, k: nat)
    requires i < k <= |history| && history[i].Click?
  {
    exists j :: i < j < k && history[j] == Log(ResponseReceived(history[i].requestId))
  }

  predicate AllAnswered(history: seq<Item>) {
    forall i :: 0 <= i < |history| && history[i].Click? ==> AnsweredBefore(history, i, |history|)
  }

  // Only clicks for this request may still wait for a response.
  predicate OpenOnlyFor(history: seq<Item>, requestId: string) {
    forall i :: 0 <= i < |history| && history[i].Click? && history[i].requestId != requestId ==>
      AnsweredBefore(history, i, |history|)
  }

  lemma AllAnsweredIsOpen(history: seq<Item>, requestId: string)
    requires AllAnswered(history)
    ensures OpenOnlyFor(history, requestId)
  {
  }

  // No send click has happened since the last request event of this turn.
  predicate NoClickSinceRequest(history: seq<Item>, requestId: string) {
    exists j :: 0 <= j < |history| && LastRequest(history, requestId, j)
      && forall k :: j < k < |history| ==> !history[k].Click?
  }

  predicate IsRequestOf(item: Item, requestId: string) {
    item.Log? && item.event.TurnRequested? && item.event.requestId == requestId
  }

  predicate LastRequest(history: seq<Item>, requestId: string, j: nat)
    requires j < |history|
  {
    && IsRequestOf(history[j], requestId)
    && forall k :: j < k < |history| ==> !IsRequestOf(history[k], requestId)
  }

  // A send click happens only when every earlier click has a recorded response.
  predicate NoResend(history: seq<Item>) {
    forall k, i :: 0 <= i < k < |history| && history[i].Click? && history[k].Click? ==> AnsweredBefore(history, i, k)
  }

  // ------------------------------------------------------------------------ rounds

  // The round of the turn that this request stands for.
  function RoundOf(s: State, requestId: string): int {
    if s.pending != [] && s.pending[0].requestId == requestId then s.pending[0].round else 0
  }

  // The rounds whose commands were accepted, in order.
  function AcceptedRounds(history: seq<Item>): seq<int> {
    if history == [] then []
    else
      var init, last := history[..|history| - 1], history[|history| - 1];
      AcceptedRounds(init) +
        if last.Log? && last.event.CommandAccepted? then [RoundOf(Replay(init), last.event.requestId)] else []
  }

  // They are 1, 2, 3, ..., and the round of the state is the next one while a turn is
  // pending, else the last of them.
  predicate RoundsCountUp(history: seq<Item>) {
    var s, accepted := Replay(history), AcceptedRounds(history);
    && (forall i :: 0 <= i < |accepted| ==> accepted[i] == i + 1)
    && (!s.ended ==>
        && s.round == |accepted| + |s.pending|
        && (s.pending != [] ==> s.pending[0].round == s.round))
  }

  // What holds after every item of the history.
  predicate Invariant(history: seq<Item>) {
    var s := Replay(history);
    && NoResend(history)
    && RoundsCountUp(history)
    && (!s.ended ==>
        && |s.pending| <= 1
        && (forall t :: t in s.pending ==> t.writeAhead)
        && (s.pending == [] ==> AllAnswered(history))
        && (s.pending != [] ==> OpenOnlyFor(history, s.pending[0].requestId))
        && (s.pending != [] && s.pending[0].submission.Requested? ==>
              AllAnswered(history) && NoClickSinceRequest(history, s.pending[0].requestId)))
  }

  lemma AnsweredLater(history: seq<Item>, item: Item, i: nat, k: nat)
    requires i < k <= |history| && history[i].Click? && AnsweredBefore(history, i, k)
    ensures AnsweredBefore(history + [item], i, k) && AnsweredBefore(history + [item], i, |history| + 1)
  {
    var j :| i < j < k && history[j] == Log(ResponseReceived(history[i].requestId));
    assert (history + [item])[j] == history[j];
  }

  // An appended event opens no click; a response answers all clicks for its request.
  lemma AppendKeepsAnswers(history: seq<Item>, e: Event)
    ensures AllAnswered(history) ==> AllAnswered(history + [Log(e)])
    ensures forall r :: OpenOnlyFor(history, r) ==> OpenOnlyFor(history + [Log(e)], r)
    ensures e.ResponseReceived? && OpenOnlyFor(history, e.requestId) ==> AllAnswered(history + [Log(e)])
    ensures NoResend(history) ==> NoResend(history + [Log(e)])
  {
    var longer := history + [Log(e)];
    forall i, k | 0 <= i < k <= |history| && history[i].Click? && AnsweredBefore(history, i, k)
      ensures AnsweredBefore(longer, i, k) && AnsweredBefore(longer, i, |longer|)
    {
      AnsweredLater(history, Log(e), i, k);
    }
    if e.ResponseReceived? && OpenOnlyFor(history, e.requestId) {
      forall i | 0 <= i < |longer| && longer[i].Click? ensures AnsweredBefore(longer, i, |longer|) {
        assert longer[|history|] == Log(e);
      }
    }
  }

  lemma AppendKeepsNoClick(history: seq<Item>, e: Event, requestId: string)
    requires NoClickSinceRequest(history, requestId) && !IsRequestOf(Log(e), requestId)
    ensures NoClickSinceRequest(history + [Log(e)], requestId)
  {
    var j :| 0 <= j < |history| && LastRequest(history, requestId, j)
      && forall k :: j < k < |history| ==> !history[k].Click?;
    assert LastRequest(history + [Log(e)], requestId, j);
  }

  lemma RequestStartsAfresh(history: seq<Item>, e: Event)
    requires e.TurnRequested?
    ensures NoClickSinceRequest(history + [Log(e)], e.requestId)
  {
    assert LastRequest(history + [Log(e)], e.requestId, |history|);
  }

  lemma ReplayAppend(history: seq<Item>, item: Item)
    ensures Replay(history + [item]) == if item.Log? then Reduce(Replay(history), item.event) else Replay(history)
  {
    assert (history + [item])[..|history|] == history;
  }

  // The events a process may append, given what is pending.
  predicate MayAppend(history: seq<Item>, e: Event) {
    var s := Replay(history);
    && (e.TurnRequested? || e.CommandAccepted? || e.TurnAbandoned? ==> !s.ended)
    && (e.TurnRequested? ==>
        && e.writeAhead && AllAnswered(history) && Others(s.pending, e.requestId) == []
        && RoundFits(s, e.round))
    && (e.CommandAccepted? || e.TurnAbandoned? ==>
        AllAnswered(history) && s.pending != [] && s.pending[0].requestId == e.requestId)
    && (e.TurnAbandoned? ==> e.roundNotConsumed)
  }

  // The pending turn's round, or else the next one.
  predicate RoundFits(s: State, round: int) {
    round == if s.pending == [] then s.round + 1 else s.round
  }

  lemma AppendKeepsRounds(history: seq<Item>, e: Event)
    requires Invariant(history) && MayAppend(history, e)
    ensures RoundsCountUp(history + [Log(e)])
  {
    assert (history + [Log(e)])[..|history|] == history;
  }

  lemma AppendKeepsInvariant(history: seq<Item>, e: Event)
    requires Invariant(history) && MayAppend(history, e)
    ensures Invariant(history + [Log(e)])
  {
    var s := Replay(history);
    var longer := history + [Log(e)];
    ReplayAppend(history, Log(e));
    AppendKeepsAnswers(history, e);
    AppendKeepsRounds(history, e);
    if !s.ended {
      if e.TurnRequested? {
        RequestStartsAfresh(history, e);
      } else if s.pending != [] && s.pending[0].submission.Requested? {
        AppendKeepsNoClick(history, e, s.pending[0].requestId);
      }
    }
  }

  lemma QuietStep(history: seq<Item>, item: Item)
    requires Replay(history).pending == [] && RoundsCountUp(history + [item]) && !(item.Log? && item.event.TurnRequested?)
    ensures Replay(history + [item]).pending == [] && AcceptedRounds(history + [item]) == AcceptedRounds(history)
  {
    assert (history + [item])[..|history|] == history;
    var accepted := AcceptedRounds(history + [item]);
    assert |accepted| > 0 ==> accepted[|accepted| - 1] == |accepted|;
  }

  // While no turn is requested none becomes pending, and no round is accepted.
  lemma NothingPendsBetween(history: seq<Item>, i: nat, k: nat)
    requires i <= k <= |history| && forall m :: i <= m <= k ==> RoundsCountUp(history[..m])
    requires Replay(history[..i]).pending == []
    requires forall m :: i <= m < k ==> !(history[m].Log? && history[m].event.TurnRequested?)
    ensures Replay(history[..k]).pending == [] && AcceptedRounds(history[..k]) == AcceptedRounds(history[..i])
  {
    hide RoundsCountUp, Replay, AcceptedRounds;
    if i < k {
      NothingPendsBetween(history, i, k - 1);
      assert history[..k - 1] + [history[k - 1]] == history[..k];
      QuietStep(history[..k - 1], history[k - 1]);
    }
  }

  lemma AbandonStep(history: seq<Item>, e: Event)
    requires Invariant(history) && !Replay(history).ended && e.TurnAbandoned? && e.roundNotConsumed
    requires RoundOf(Replay(history), e.requestId) != 0
    ensures Replay(history + [Log(e)]).pending == []
    ensures AcceptedRounds(history + [Log(e)]) == AcceptedRounds(history)
    ensures RoundOf(Replay(history), e.requestId) == |AcceptedRounds(history)| + 1
  {
    hide NoResend, AllAnswered, OpenOnlyFor, NoClickSinceRequest;
    assert (history + [Log(e)])[..|history|] == history;
  }

  lemma RequestStep(history: seq<Item>, e: Event)
    requires Replay(history).pending == [] && !Replay(history).ended && e.TurnRequested?
    requires RoundsCountUp(history + [Log(e)])
    ensures e.round == |AcceptedRounds(history)| + 1
  {
    assert (history + [Log(e)])[..|history|] == history;
  }

  // After a turn of the current round was abandoned as unsent, the next request is for
  // that same round: a crash before a send costs no round.
  lemma AbandonedRoundIsTakenAgain(history: seq<Item>, i: nat, j: nat)
    requires i < j < |history| && forall m :: 0 <= m <= |history| ==> Invariant(history[..m])
    requires history[i].Log? && history[i].event.TurnAbandoned? && !Replay(history[..i]).ended
    requires history[i].event.roundNotConsumed
    requires RoundOf(Replay(history[..i]), history[i].event.requestId) != 0
    requires history[j].Log? && history[j].event.TurnRequested? && !Replay(history[..j]).ended
    requires forall m :: i < m < j ==> !(history[m].Log? && history[m].event.TurnRequested?)
    ensures history[j].event.round == RoundOf(Replay(history[..i]), history[i].event.requestId)
  {
    hide RoundsCountUp, Replay, AcceptedRounds;
    assert history[..i] + [history[i]] == history[..i + 1] && history[..j] + [history[j]] == history[..j + 1];
    AbandonStep(history[..i], history[i].event);
    NothingPendsBetween(history, i + 1, j);
    RequestStep(history[..j], history[j].event);
  }

  // The moment at which the adapter may click.
  predicate MayClick(history: seq<Item>, requestId: string) {
    var s := Replay(history);
    && !s.ended && AllAnswered(history)
    && |s.pending| == 1 && s.pending[0].requestId == requestId && !s.pending[0].submission.Requested?
  }

  lemma ClickKeepsInvariant(history: seq<Item>, requestId: string)
    requires Invariant(history) && MayClick(history, requestId)
    ensures Invariant(history + [Click(requestId)])
    ensures Replay(history + [Click(requestId)]) == Replay(history)
    ensures OpenOnlyFor(history + [Click(requestId)], requestId)
  {
    var longer := history + [Click(requestId)];
    ReplayAppend(history, Click(requestId));
    assert longer[..|history|] == history;
    forall i, k | 0 <= i < k <= |history| && history[i].Click? && AnsweredBefore(history, i, k)
      ensures AnsweredBefore(longer, i, k) && AnsweredBefore(longer, i, |longer|)
    {
      AnsweredLater(history, Click(requestId), i, k);
    }
  }

  // A turn that is judged proven unsent has had no click since its last request, and
  // nothing else waits for a response either: asking again cannot send twice.
  lemma ProvenUnsentMeansNoClick(history: seq<Item>, t: Turn)
    requires Invariant(history) && !Replay(history).ended
    requires t in Replay(history).pending && ProvenUnsent(Replay(history), t)
    ensures NoClickSinceRequest(history, t.requestId) && AllAnswered(history)
  {
    assert t == Replay(history).pending[0];
  }

  // ------------------------------------------------------------------- one process

  // What the adapter does in one call, in order.
  datatype AdapterStep = Staged | Checkpoint(submission: Submission) | ClickSend

  // What the environment decides for one attempt at a controller command.
  datatype Attempt = Attempt(
    steps: seq<AdapterStep>,       // of the adapter, if it sends
    responds: bool,                // the adapter's call returns
    evidenceAccepted: bool,
    commandValid: bool)

  // What it decides for one round.
  datatype RoundPlan = RoundPlan(requestId: string, attempts: seq<Attempt>, notSentRetry: bool, endsRun: bool)

  datatype Outcome = Command | Waiting | Threw

  // A stretch of history and how it ended.
  datatype Played = Played(items: seq<Item>, outcome: Outcome)

  datatype Policy = Policy(maxRepairAttempts: nat, returnAfterSubmission: bool)

  // ----------------------------------------------------- what a process leaves behind

  // What one call of the adapter adds: its checkpoints, and a click only after a
  // submission checkpoint and only once.
  function SendItems(requestId: string, steps: seq<AdapterStep>, started: bool, clicked: bool): seq<Item> {
    if steps == [] then []
    else
      match steps[0]
      case Staged => [Log(PromptStaged(requestId))] + SendItems(requestId, steps[1..], started, clicked)
      case Checkpoint(submission) =>
        [Log(SubmissionCheckpoint(requestId, submission))] + SendItems(requestId, steps[1..], true, clicked)
      case ClickSend =>
        if started && !clicked then [Click(requestId)] + SendItems(requestId, steps[1..], true, true)
        else SendItems(requestId, steps[1..], started, clicked)
  }

  // What a response adds, and whether it is a command.
  function ResponseItems(requestId: string, attempt: Attempt, recovered: bool): Played {
    if !attempt.evidenceAccepted then Played([Log(EvidenceRejected(requestId))], Threw)
    else if !attempt.commandValid then Played([Log(ResponseReceived(requestId)), Log(ResponseRejected)], Waiting)
    else if recovered then
      Played([Log(ResponseReceived(requestId)), Log(ResponseReconciled(requestId))], Command)
    else Played([Log(ResponseReceived(requestId))], Command)
  }

  // One attempt: a request with its send, unless the response was observed, and then
  // the response.
  function AttemptItems(requestId: string, round: int, number: nat, observed: bool, attempt: Attempt, policy: Policy)
    : Played
  {
    var sent := if observed then []
      else [Log(TurnRequested(requestId, round, number, true))] + SendItems(requestId, attempt.steps, false, false);
    if !observed && !attempt.responds then Played(sent, Threw)
    else if !observed && policy.returnAfterSubmission then Played(sent, Waiting)
    else
      var response := ResponseItems(requestId, attempt, observed);
      Played(sent + response.items, response.outcome)
  }

  // Attempt after attempt, until one is a command, one fails, or no repair is left.
  function CommandItems(requestId: string, round: int, number: nat, observed: bool, notSentRetry: bool,
                        attempts: seq<Attempt>, policy: Policy): Played
    decreases |attempts|
  {
    if policy.maxRepairAttempts < number then Played([], Threw)
    else if attempts == [] then Played([], Waiting)
    else
      var now := AttemptItems(requestId, round, number, observed, attempts[0], policy);
      if !now.outcome.Waiting? || (!observed && policy.returnAfterSubmission) then now
      else if notSentRetry then Played(now.items + [Log(RetryConflict(requestId))], Threw)
      else
        var rest := CommandItems(requestId, round, number + 1, false, false, attempts[1..], policy);
        Played(now.items + rest.items, rest.outcome)
  }

  function AcceptItems(requestId: string, endsRun: bool): seq<Item> {
    [Log(CommandAccepted(requestId))] + if endsRun then [Log(RunEnded)] else []
  }

  // Round after round, each one further than the round of the state.
  function DriveItems(history: seq<Item>, plans: seq<RoundPlan>, policy: Policy): Played
    decreases |plans|
  {
    if plans == [] then Played([], Waiting)
    else
      var plan := plans[0];
      var command := CommandItems(plan.requestId, Replay(history).round + 1, 0, false, plan.notSentRetry,
                                  plan.attempts, policy);
      if !command.outcome.Command? then command
      else
        var items := command.items + AcceptItems(plan.requestId, plan.endsRun);
        if plan.endsRun then Played(items, Command)
        else
          var rest := DriveItems(history + items, plans[1..], policy);
          Played(items + rest.items, rest.outcome)
  }

  // The pending turn: abandoned if proven unsent, else observed.
  function ReconcileItems(history: seq<Item>, observed: Option<seq<Attempt>>, endsRun: bool, policy: Policy): Played
    requires Replay(history).pending != []
  {
    var s := Replay(history);
    var t := s.pending[0];
    if ProvenUnsent(s, t) then Played([Log(TurnAbandoned(t.requestId, true))], Command)
    else if observed.None? then Played([], Waiting)
    else
      var command := CommandItems(t.requestId, t.round, t.repairAttempt, true, false, observed.value, policy);
      if command.outcome.Command? then Played(command.items + AcceptItems(t.requestId, endsRun), Command) else command
  }

  lemma Joined(a: seq<Item>, b: seq<Item>, c: seq<Item>)
    ensures a + (b + c) == a + b + c
  {
  }

  // Everything one life of a process adds to a run that has not ended.
  function ContinueItems(history: seq<Item>, observed: Option<seq<Attempt>>, endsRun: bool, plans: seq<RoundPlan>,
                         policy: Policy): Played
  {
    var resumed := history + [Log(RunResumed)];
    var reconciled :=
      if Replay(resumed).pending == [] then Played([], Command) else ReconcileItems(resumed, observed, endsRun, policy);
    if !reconciled.outcome.Command? || Replay(resumed + reconciled.items).ended
    then Played([Log(RunResumed)] + reconciled.items, reconciled.outcome)
    else
      var driven := DriveItems(resumed + reconciled.items, plans, policy);
      Played([Log(RunResumed)] + reconciled.items + driven.items, driven.outcome)
  }

  class Process {
    const policy: Policy
    var history: seq<Item>

    ghost predicate Valid()
      reads this
    {
      forall k :: 0 <= k <= |history| ==> Invariant(history[..k])
    }

    lemma Now()
      requires Valid()
      ensures Invariant(history)
    {
      assert history[..|history|] == history;
    }

    // A process that continues from whatever an earlier one has left.
    constructor (history: seq<Item>, policy: Policy)
      requires forall k :: 0 <= k <= |history| ==> Invariant(history[..k])
      ensures Valid() && this.history == history && this.policy == policy
    {
      this.history, this.policy := history, policy;
    }

    method Append(e: Event)
      requires Valid() && MayAppend(history, e)
      modifies this
      ensures Valid() && history == old(history) + [Log(e)]
      ensures Replay(history) == Reduce(Replay(old(history)), e)
    {
      Now();
      AppendKeepsInvariant(history, e);
      ReplayAppend(history, Log(e));
      Extend(Log(e));
    }

    method Extend(item: Item)
      requires Valid() && Invariant(history + [item])
      modifies this
      ensures Valid() && history == old(history) + [item]
    {
      history := history + [item];
      forall k | 0 <= k <= |history| ensures Invariant(history[..k]) {
        if k < |history| {
          assert history[..k] == old(history)[..k];
        } else {
          assert history[..k] == history;
        }
      }
    }

    method ClickNow(requestId: string)
      requires Valid() && MayClick(history, requestId)
      modifies this
      ensures Valid() && history == old(history) + [Click(requestId)] && Replay(history) == Replay(old(history))
      ensures OpenOnlyFor(history, requestId)
    {
      Now();
      ClickKeepsInvariant(history, requestId);
      Extend(Click(requestId));
    }

    // The one pending turn is this request's.
    predicate Pends(requestId: string)
      reads this
    {
      var s := Replay(history);
      !s.ended && |s.pending| == 1 && s.pending[0].requestId == requestId
    }

    // An event that leaves the one pending turn pending.
    method Record(requestId: string, e: Event)
      requires Valid() && Pends(requestId) && OpenOnlyFor(history, requestId)
      requires e.PromptStaged? || e.SubmissionCheckpoint? || e.EvidenceRejected? || e.ResponseReceived?
        || e.ResponseRejected? || e.ResponseReconciled? || e.RetryConflict?
      requires e.SubmissionCheckpoint? || e.ResponseReceived? ==> e.requestId == requestId
      modifies this
      ensures Valid() && history == old(history) + [Log(e)] && Pends(requestId) && OpenOnlyFor(history, requestId)
      ensures Replay(history).round == Replay(old(history)).round
      ensures e.ResponseReceived? || AllAnswered(old(history)) ==> AllAnswered(history)
      ensures e.SubmissionCheckpoint? || !Replay(old(history)).pending[0].submission.Requested? ==>
        !Replay(history).pending[0].submission.Requested?
    {
      AppendKeepsAnswers(history, e);
      Append(e);
    }

    // browser.sendTurn or submitTurn, for an adapter that keeps its contract.
    method SendTurn(requestId: string, steps: seq<AdapterStep>)
      requires Valid() && Pends(requestId) && AllAnswered(history)
      modifies this
      ensures Valid() && Pends(requestId) && OpenOnlyFor(history, requestId)
      ensures Replay(history).round == Replay(old(history)).round
      ensures history == old(history) + SendItems(requestId, steps, false, false)
    {
      hide AllAnswered, OpenOnlyFor, Invariant, NoResend, Reduce;
      AllAnsweredIsOpen(history, requestId);
      var started, clicked := false, false;
      for i := 0 to |steps|
        invariant Valid() && Pends(requestId) && OpenOnlyFor(history, requestId)
        invariant Replay(history).round == Replay(old(history)).round
        invariant !clicked ==> AllAnswered(history)
        invariant clicked ==> started
        invariant started ==> !Replay(history).pending[0].submission.Requested?
        invariant history + SendItems(requestId, steps[i..], started, clicked)
          == old(history) + SendItems(requestId, steps, false, false)
      {
        var step := steps[i];
        assert steps[i..][0] == step && steps[i..][1..] == steps[i + 1..];
        match step {
          case Staged => Record(requestId, PromptStaged(requestId));
          case Checkpoint(submission) =>
            Record(requestId, SubmissionCheckpoint(requestId, submission));
            started := true;
          case ClickSend =>
            if started && !clicked {
              ClickNow(requestId);
              clicked := true;
            }
        }
      }
      assert steps[|steps|..] == [];
    }

    // The request event of one attempt, and the call of the adapter behind it.
    method RequestAndSend(requestId: string, round: int, number: nat, steps: seq<AdapterStep>)
      requires Valid() && !Replay(history).ended && AllAnswered(history)
      requires Others(Replay(history).pending, requestId) == [] && RoundFits(Replay(history), round)
      modifies this
      ensures Valid() && Pends(requestId) && OpenOnlyFor(history, requestId) && Replay(history).round == round
      ensures history == old(history) + ([Log(TurnRequested(requestId, round, number, true))]
                                         + SendItems(requestId, steps, false, false))
    {
      hide AllAnswered, OpenOnlyFor, Invariant, SendItems, NoResend;
      var e := TurnRequested(requestId, round, number, true);
      AppendKeepsAnswers(history, e);
      Append(e);
      SendTurn(requestId, steps);
      Joined(old(history), [Log(e)], SendItems(requestId, steps, false, false));
    }

    // The response of one attempt: recorded, and perhaps accepted as a command.
    method TakeResponse(requestId: string, attempt: Attempt, recovered: bool) returns (outcome: Outcome)
      requires Valid() && Pends(requestId) && OpenOnlyFor(history, requestId)
      modifies this
      ensures Valid() && Pends(requestId) && Replay(history).round == Replay(old(history)).round
      ensures !outcome.Threw? ==> AllAnswered(history)
      ensures Played(history, outcome) == var r := ResponseItems(requestId, attempt, recovered);
        Played(old(history) + r.items, r.outcome)
    {
      if !attempt.evidenceAccepted {
        Record(requestId, EvidenceRejected(requestId));
        return Threw;
      }
      Record(requestId, ResponseReceived(requestId));
      if !attempt.commandValid {
        Record(requestId, ResponseRejected);
        return Waiting;
      }
      if recovered { Record(requestId, ResponseReconciled(requestId)); }
      outcome := Command;
    }

    // One attempt at a command.
    method TryOnce(requestId: string, round: int, number: nat, observed: bool, attempt: Attempt)
      returns (outcome: Outcome)
      requires Valid() && !Replay(history).ended && RoundFits(Replay(history), round)
      requires observed ==> Pends(requestId) && OpenOnlyFor(history, requestId)
      requires !observed ==> AllAnswered(history) && Others(Replay(history).pending, requestId) == []
      modifies this
      ensures Valid() && Pends(requestId) && Replay(history).round == round
      ensures outcome.Command? || (outcome.Waiting? && (observed || !policy.returnAfterSubmission)) ==>
        AllAnswered(history)
      ensures Played(history, outcome) == var r := AttemptItems(requestId, round, number, observed, attempt, policy);
        Played(old(history) + r.items, r.outcome)
    {
      hide AllAnswered, OpenOnlyFor, Invariant, SendItems, WithSubmission;
      if !observed {
        RequestAndSend(requestId, round, number, attempt.steps);
        if !attempt.responds { return Threw; }
        if policy.returnAfterSubmission { return Waiting; }
      }
      outcome := TakeResponse(requestId, attempt, observed);
    }

    // requestControllerCommand: ask, and ask again for a repair, until a response is a
    // valid command.  It sends only while nothing waits for a response.
    method RequestControllerCommand(requestId: string, round: int, first: nat, recovered: bool,
                                    notSentRetry: bool, attempts: seq<Attempt>)
      returns (outcome: Outcome)
      requires Valid() && !Replay(history).ended && RoundFits(Replay(history), round)
      requires recovered ==> Pends(requestId) && OpenOnlyFor(history, requestId)
      requires !recovered ==> AllAnswered(history) && Others(Replay(history).pending, requestId) == []
      modifies this
      ensures Valid() && !Replay(history).ended
      ensures outcome.Command? ==> Pends(requestId) && AllAnswered(history)
      ensures Played(history, outcome) ==
        var r := CommandItems(requestId, round, first, recovered, notSentRetry, attempts, policy);
        Played(old(history) + r.items, r.outcome)
    {
      hide AllAnswered, OpenOnlyFor, Invariant, NoResend, AttemptItems, WithSubmission;
      ghost var all := CommandItems(requestId, round, first, recovered, notSentRetry, attempts, policy);
      var number, rest := first, attempts;
      while number <= policy.maxRepairAttempts && rest != []
        invariant first <= number && Valid() && !Replay(history).ended && RoundFits(Replay(history), round)
        invariant var observed := recovered && number == first;
          if observed then Pends(requestId) && OpenOnlyFor(history, requestId)
          else AllAnswered(history) && Others(Replay(history).pending, requestId) == []
        invariant var r := CommandItems(requestId, round, number, recovered && number == first,
                                        notSentRetry && number == first, rest, policy);
          Played(history + r.items, r.outcome) == Played(old(history) + all.items, all.outcome)
        decreases |rest|
      {
        var observed := recovered && number == first;
        ghost var before, now := history, AttemptItems(requestId, round, number, observed, rest[0], policy);
        outcome := TryOnce(requestId, round, number, observed, rest[0]);
        if !outcome.Waiting? || (!observed && policy.returnAfterSubmission) { return; }
        if notSentRetry && number == first {
          AllAnsweredIsOpen(history, requestId);
          Record(requestId, RetryConflict(requestId));
          Joined(before, now.items, [Log(RetryConflict(requestId))]);
          return Threw;
        }
        Joined(before, now.items, CommandItems(requestId, round, number + 1, false, false, rest[1..], policy).items);
        number, rest := number + 1, rest[1..];
      }
      outcome := if policy.maxRepairAttempts < number then Threw else Waiting;
    }

    // Accept the command, and end the run if that is what it asks for.
    method AcceptCommand(requestId: string, endsRun: bool)
      requires Valid() && Pends(requestId) && AllAnswered(history)
      modifies this
      ensures Valid() && history == old(history) + AcceptItems(requestId, endsRun)
      ensures Replay(history).ended || (Replay(history).pending == [] && AllAnswered(history))
      ensures Replay(history).ended <==> endsRun
    {
      AppendKeepsAnswers(history, CommandAccepted(requestId));
      Append(CommandAccepted(requestId));
      if endsRun { Append(RunEnded); }
    }

    // reconcilePendingControllerTurn: a turn proven unsent is abandoned and its round
    // given back; any other turn is only observed.
    method Reconcile(observed: Option<seq<Attempt>>, endsRun: bool) returns (outcome: Outcome)
      requires Valid() && !Replay(history).ended && Replay(history).pending != []
      modifies this
      ensures Valid()
      ensures outcome.Command? ==> Replay(history).ended || (Replay(history).pending == [] && AllAnswered(history))
      ensures Played(history, outcome) == var r := ReconcileItems(old(history), observed, endsRun, policy);
        Played(old(history) + r.items, r.outcome)
    {
      Now();
      var s := Replay(history);
      var pending := s.pending[0];
      if ProvenUnsent(s, pending) {
        ProvenUnsentMeansNoClick(history, pending);
        AppendKeepsAnswers(history, TurnAbandoned(pending.requestId, true));
        Append(TurnAbandoned(pending.requestId, true));
        return Command;
      }
      if observed.None? { return Waiting; }
      outcome := RequestControllerCommand(pending.requestId, pending.round, pending.repairAttempt, true, false,
                                          observed.value);
      if outcome.Command? { AcceptCommand(pending.requestId, endsRun); }
    }

    // One round, up to its accepted command.
    method DriveRound(plan: RoundPlan) returns (outcome: Outcome)
      requires Valid() && !Replay(history).ended && Replay(history).pending == [] && AllAnswered(history)
      modifies this
      ensures Valid()
      ensures outcome.Command? && !plan.endsRun ==>
        !Replay(history).ended && Replay(history).pending == [] && AllAnswered(history)
      ensures var r := CommandItems(plan.requestId, Replay(old(history)).round + 1, 0, false, plan.notSentRetry,
                                    plan.attempts, policy);
        && outcome == r.outcome
        && history == old(history) +
           if outcome.Command? then r.items + AcceptItems(plan.requestId, plan.endsRun) else r.items
    {
      hide AllAnswered, OpenOnlyFor, Invariant, NoResend, CommandItems;
      outcome := RequestControllerCommand(plan.requestId, Replay(history).round + 1, 0, false, plan.notSentRetry,
                                          plan.attempts);
      if outcome.Command? { AcceptCommand(plan.requestId, plan.endsRun); }
    }

    // driveControllerLoop, as far as this process lives.
    method Drive(plans: seq<RoundPlan>) returns (outcome: Outcome)
      requires Valid() && !Replay(history).ended && Replay(history).pending == [] && AllAnswered(history)
      modifies this
      ensures Valid()
      ensures Played(history, outcome) == var r := DriveItems(old(history), plans, policy);
        Played(old(history) + r.items, r.outcome)
    {
      hide AllAnswered, Invariant, NoResend, CommandItems;
      ghost var all := DriveItems(history, plans, policy);
      var rest := plans;
      while rest != []
        invariant Valid()
        invariant !Replay(history).ended && Replay(history).pending == [] && AllAnswered(history)
        invariant var r := DriveItems(history, rest, policy);
          Played(history + r.items, r.outcome) == Played(old(history) + all.items, all.outcome)
        decreases |rest|
      {
        ghost var before := history;
        outcome := DriveRound(rest[0]);
        if !outcome.Command? || rest[0].endsRun { return; }
        ghost var items := CommandItems(rest[0].requestId, Replay(before).round + 1, 0, false, rest[0].notSentRetry,
                                        rest[0].attempts, policy).items + AcceptItems(rest[0].requestId, false);
        Joined(before, items, DriveItems(history, rest[1..], policy).items);
        rest := rest[1..];
      }
      outcome := Waiting;
    }

    // continueControllerLoop: one life of a controller process.  Over any number of
    // lives, each from any prefix an earlier one left, no click is ever repeated
    // before the one before it was answered.
    method Continue(observed: Option<seq<Attempt>>, endsRun: bool, plans: seq<RoundPlan>,
                    failedRequest: Option<string>, reported: Reported)
      requires Valid()
      modifies this
      ensures Valid() && NoResend(history) && RoundsCountUp(history)
      ensures Replay(old(history)).ended ==> history == old(history)
      ensures !Replay(old(history)).ended ==>
        var r := ContinueItems(old(history), observed, endsRun, plans, policy);
        history == old(history) + r.items + if r.outcome.Threw? then [Log(RunFailed(failedRequest, reported))] else []
    {
      Now();
      if Replay(history).ended { return; }
      var outcome := Live(observed, endsRun, plans);
      if outcome.Threw? { Append(RunFailed(failedRequest, reported)); }
      Now();
    }

    // The pending turn first, then rounds of its own.
    method Live(observed: Option<seq<Attempt>>, endsRun: bool, plans: seq<RoundPlan>) returns (outcome: Outcome)
      requires Valid() && !Replay(history).ended
      modifies this
      ensures Valid()
      ensures Played(history, outcome) == var r := ContinueItems(old(history), observed, endsRun, plans, policy);
        Played(old(history) + r.items, r.outcome)
    {
      hide OpenOnlyFor, NoResend, DriveItems, ReconcileItems;
      Now();
      AppendKeepsAnswers(history, RunResumed);
      Append(RunResumed);
      Now();
      outcome := Command;
      ghost var resumed := [Log(RunResumed)];
      ghost var reconciled := if Replay(history).pending == [] then Played([], Command)
        else ReconcileItems(history, observed, endsRun, policy);
      if Replay(history).pending != [] {
        outcome := Reconcile(observed, endsRun);
      }
      assert history == old(history) + resumed + reconciled.items;
      Joined(old(history), resumed, reconciled.items);
      if outcome.Command? && !Replay(history).ended {
        ghost var driven := DriveItems(history, plans, policy);
        outcome := Drive(plans);
        Joined(old(history), resumed + reconciled.items, driven.items);
      }
    }
  }
}
