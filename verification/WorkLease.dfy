/**
 * The executor-side lease of one started caller-work claim: a chain of durable
 * mutations, three timers, a failure latch and an abort signal.
 *
 * Every method below is one callback of the event loop and runs to completion.
 * `Run` lets them happen in any order: caller requests, timers, an external abort,
 * and the beginning and end of each task of the chain.
 */
module WorkLease {
  import opened Common

  datatype State = Active | Stopped | Failed

  datatype Cause = MutationFailed | ExternallyAborted | ProgressStalled | MaxExecutionElapsed {
    predicate NeedsReview() { ProgressStalled? || MaxExecutionElapsed? }
  }

  datatype Task = Heartbeat | Progress | Review(cause: Cause) {
    predicate IsMutation() { !Review? }
  }

  // One thing that may happen to a lease; an input that is not possible in the
  // current state is ignored.
  datatype Input =
    | HeartbeatTimer
    | HeartbeatNow
    | RecordProgress(now: int)
    | ProgressTimer(now: int)
    | MaxExecutionTimer(now: int)
    | ExternalAbort
    | Stop
    | BeginTask
    | EndTask(ok: bool, recorded: bool)
    | ProgressCallback(now: int)
    | TailDrained

  function Mutations(tasks: seq<Task>): nat {
    if tasks == [] then 0 else Mutations(tasks[1..]) + if tasks[0].IsMutation() then 1 else 0
  }

  lemma {:induction false} MutationsAppend(tasks: seq<Task>, t: Task)
    ensures Mutations(tasks + [t]) == Mutations(tasks) + if t.IsMutation() then 1 else 0
  {
    if tasks != [] {
      assert (tasks + [t])[1..] == tasks[1..] + [t];
      MutationsAppend(tasks[1..], t);
    }
  }

  class Lease {
    const progressTimeoutMs: int
    const maxExecutionDueAt: int       // when the max-execution timer fires
    var state: State
    var failure: Option<Cause>
    var heartbeatTimer: bool
    var progressTimer: bool
    var maxExecutionTimer: bool
    var listening: bool                // to the external abort signal
    var progressDeadlineAt: int
    var queuedMutations: nat
    var tasks: seq<Task>               // everything ever chained to the mutation tail
    var settled: nat                   // how many of the tasks have settled
    var running: bool                  // tasks[settled] has begun
    var callbacks: seq<bool>           // settled progress calls still to be looked at
    var abortAfter: Option<nat>        // abort once that many tasks have settled
    var aborted: Option<Cause>

    ghost predicate Valid()
      reads this
    {
      && settled <= |tasks|
      && (running ==> settled < |tasks|)
      && queuedMutations == Mutations(tasks[settled..])
      && (state.Failed? ==> failure.Some?)
      && (failure.Some? ==> !state.Active?)
      && (!state.Active? ==> !heartbeatTimer && !progressTimer && !maxExecutionTimer && !listening)
      // an active lease renews its claim and notices an abort, an overrun and a stall
      && (state.Active? ==> heartbeatTimer && maxExecutionTimer && listening && StallIsWatched())
      // a stall or an overrun has its review as the last task of the chain
      && (failure.Some? && failure.value.NeedsReview() ==>
          tasks != [] && tasks[|tasks| - 1] == Review(failure.value))
      // an abort waits for the whole chain, to which nothing is ever added again
      && abortAfter == (if failure.Some? then Some(|tasks|) else None)
      && (aborted.Some? ==> aborted == failure && settled == |tasks|)
    }

    // The progress timer is armed, or a progress call is on its way that will arm it.
    ghost predicate StallIsWatched()
      reads this
    {
      progressTimer || callbacks != [] || exists i :: settled <= i < |tasks| && tasks[i] == Progress
    }

    // What no callback may undo: the first failure stays, the lease never becomes
    // active again, and after the abort nothing of the chain is in flight or begins.
    twostate predicate Latched()
      reads this
    {
      && (old(failure).Some? ==> failure == old(failure))
      && (!old(state).Active? ==> state == old(state) && tasks == old(tasks))
      && old(settled) <= settled && old(tasks) <= tasks
      && (old(aborted).Some? ==>
          && aborted == old(aborted) && tasks == old(tasks)
          && settled == |tasks| && !running)
    }

    constructor (progressTimeoutMs: int, now: int, progressRemainingMs: int, maxExecutionRemainingMs: int)
      ensures Valid() && state == Active && failure.None? && aborted.None? && tasks == []
      ensures progressDeadlineAt == now + progressRemainingMs
      ensures maxExecutionDueAt == now + maxExecutionRemainingMs
      ensures this.progressTimeoutMs == progressTimeoutMs
    {
      this.progressTimeoutMs := progressTimeoutMs;
      maxExecutionDueAt := now + maxExecutionRemainingMs;
      state, failure := Active, None;
      heartbeatTimer, progressTimer, maxExecutionTimer, listening := true, true, true, true;
      progressDeadlineAt := now + progressRemainingMs;
      queuedMutations, tasks, settled, running := 0, [], 0, false;
      callbacks, abortAfter, aborted := [], None, None;
    }

    method ClearTimers()
      modifies this`heartbeatTimer, this`progressTimer, this`maxExecutionTimer, this`listening
      ensures !heartbeatTimer && !progressTimer && !maxExecutionTimer && !listening
    {
      heartbeatTimer, progressTimer, maxExecutionTimer, listening := false, false, false, false;
    }

    // #queueMutation: refused unless the lease is active.
    method QueueMutation(t: Task) returns (queued: bool)
      requires Valid() && t.IsMutation()
      modifies this`tasks, this`queuedMutations
      ensures Valid() && Latched()
      ensures queued <==> state.Active?
      ensures tasks == if queued then old(tasks) + [t] else old(tasks)
    {
      queued := state.Active?;
      if queued {
        MutationsAppend(tasks[settled..], t);
        assert (tasks + [t])[settled..] == tasks[settled..] + [t];
        tasks := tasks + [t];
        queuedMutations := queuedMutations + 1;
        assert forall i :: 0 <= i < |old(tasks)| ==> tasks[i] == old(tasks)[i];
      }
    }

    // #fail: latch the first failure; the abort follows the whole chain.
    method Fail(cause: Cause)
      requires Valid() && !cause.NeedsReview()
      modifies this
      ensures Valid() && Latched()
      ensures !state.Active? && failure == (if old(failure).Some? then old(failure) else Some(cause))
      ensures unchanged(`tasks, `settled, `running, `queuedMutations, `callbacks, `aborted)
      ensures abortAfter == Some(|tasks|)
    {
      if failure.None? { failure := Some(cause); }
      if state.Active? { state := Failed; }
      ClearTimers();
      abortAfter := Some(|tasks|);
    }

    // #requireControllerReview: chain the durable review, and the abort behind it.
    method RequireReview(cause: Cause)
      requires Valid() && cause.NeedsReview() && state.Active?
      modifies this
      ensures Valid() && Latched()
      ensures state == Failed && failure == Some(cause) && tasks == old(tasks) + [Review(cause)]
      ensures aborted.None? && unchanged(`progressDeadlineAt, `settled, `running, `callbacks)
    {
      MutationsAppend(tasks[settled..], Review(cause));
      assert (tasks + [Review(cause)])[settled..] == tasks[settled..] + [Review(cause)];
      failure, state := Some(cause), Failed;
      ClearTimers();
      tasks := tasks + [Review(cause)];
      abortAfter := Some(|tasks|);
    }

    // recordProgress: a stalled lease asks for review instead of recording.
    method OnRecordProgress(now: int) returns (queued: bool)
      requires Valid()
      modifies this
      ensures Valid() && Latched()
      ensures queued <==> old(state).Active? && now < old(progressDeadlineAt)
      ensures queued ==> tasks == old(tasks) + [Progress] && state == Active && !progressTimer
      ensures old(state).Active? && !queued ==> failure == Some(ProgressStalled)
    {
      if !state.Active? { return false; }
      if progressDeadlineAt <= now {
        RequireReview(ProgressStalled);
        return false;
      }
      queued := QueueMutation(Progress);
      assert tasks[|tasks| - 1] == Progress;
      progressTimer := false;
    }

    // The progress timer: early firings re-arm it, a due one asks for review.
    method OnProgressTimer(now: int)
      requires Valid() && progressTimer
      modifies this
      ensures Valid() && Latched()
      ensures failure == if now < progressDeadlineAt then None else Some(ProgressStalled)
    {
      if progressDeadlineAt <= now {
        RequireReview(ProgressStalled);
      }
    }

    // The next task of the chain begins.  A mutation that finds the lease failed is
    // refused and never starts; a review always runs.
    method OnBeginTask()
      requires Valid() && !running && settled < |tasks|
      modifies this
      ensures Valid() && Latched() && tasks == old(tasks)
      ensures running <==> !(old(state).Failed? && tasks[old(settled)].IsMutation())
      ensures running ==> settled == old(settled) && failure == old(failure)
      ensures !running ==> settled == old(settled) + 1
    {
      if tasks[settled].IsMutation() && state.Failed? {
        Fail(MutationFailed);
        Settle();
      } else {
        running := true;
      }
    }

    method Settle()
      requires Valid() && settled < |tasks|
      requires tasks[settled] == Progress && state.Active? ==> callbacks != []
      modifies this`settled, this`running, this`queuedMutations
      ensures Valid() && Latched() && settled == old(settled) + 1 && !running
    {
      if tasks[settled].IsMutation() { queuedMutations := queuedMutations - 1; }
      settled, running := settled + 1, false;
    }

    // The running task ends; a failed mutation fails the lease before it settles,
    // the outcome of a review is not looked at.
    method OnEndTask(ok: bool, recorded: bool)
      requires Valid() && running
      modifies this
      ensures Valid() && Latched() && settled == old(settled) + 1 && !running
      ensures old(tasks[settled]).IsMutation() && !ok ==> failure.Some?
      ensures ok || !old(tasks[settled]).IsMutation() ==> failure == old(failure) && state == old(state)
      ensures callbacks == old(callbacks) + if old(tasks[settled]) == Progress && ok then [recorded] else []
    {
      var t := tasks[settled];
      if t.IsMutation() && !ok {
        Fail(MutationFailed);
      }
      if t == Progress && ok {
        callbacks := callbacks + [recorded];
      }
      Settle();
    }

    // After a progress call has settled: only new progress moves the deadline.
    method OnProgressCallback(now: int)
      requires Valid() && callbacks != []
      modifies this
      ensures Valid() && Latched() && callbacks == old(callbacks)[1..]
      ensures progressDeadlineAt ==
        if old(state).Active? && old(callbacks)[0] then now + progressTimeoutMs else old(progressDeadlineAt)
      ensures old(state).Active? ==>
        if progressDeadlineAt <= now then failure == Some(ProgressStalled) else progressTimer && state.Active?
    {
      var recorded := callbacks[0];
      if state.Active? {
        if recorded { progressDeadlineAt := now + progressTimeoutMs; }
        if progressDeadlineAt <= now {
          RequireReview(ProgressStalled);
        } else {
          progressTimer := true;
        }
      }
      callbacks := callbacks[1..];
    }

    // stop(): no new mutation is accepted; what is chained still runs.
    method OnStop()
      requires Valid()
      modifies this
      ensures Valid() && Latched() && !state.Active?
      ensures tasks == old(tasks) && failure == old(failure) && aborted == old(aborted)
    {
      if state.Active? { state := Stopped; }
      ClearTimers();
      if failure.Some? { abortAfter := Some(|tasks|); }
    }

    // #abortFailure, once the chain has settled.
    method OnTailDrained()
      requires Valid() && abortAfter.Some? && abortAfter.value <= settled
      modifies this`aborted
      ensures Valid() && Latched() && aborted == failure && aborted.Some?
    {
      if aborted.None? { aborted := failure; }
    }

    method Handle(input: Input)
      requires Valid()
      modifies this
      ensures Valid() && Latched()
      ensures input.HeartbeatNow? && old(state).Active? ==> tasks == old(tasks) + [Heartbeat]
      ensures input.HeartbeatTimer? && old(heartbeatTimer) ==>
        tasks == if old(queuedMutations) == 0 && old(state).Active? then old(tasks) + [Heartbeat] else old(tasks)
      ensures input.RecordProgress? && old(state).Active? ==>
        if input.now < old(progressDeadlineAt) then tasks == old(tasks) + [Progress]
        else failure == Some(ProgressStalled)
      ensures input.ProgressTimer? && old(progressTimer) ==>
        failure == if input.now < progressDeadlineAt then None else Some(ProgressStalled)
      ensures input.MaxExecutionTimer? && old(maxExecutionTimer) ==>
        failure == if input.now < maxExecutionDueAt then None else Some(MaxExecutionElapsed)
      ensures input.ExternalAbort? && old(listening) ==>
        failure == if old(failure).Some? then old(failure) else Some(ExternallyAborted)
      ensures input.Stop? ==> !state.Active? && failure == old(failure)
      ensures input.EndTask? && old(running) && !input.ok && old(tasks[settled]).IsMutation() ==> failure.Some?
      ensures input.ProgressCallback? && old(callbacks) != [] ==>
        && callbacks == old(callbacks)[1..]
        && progressDeadlineAt == (if old(state).Active? && old(callbacks)[0] then input.now + progressTimeoutMs
                                  else old(progressDeadlineAt))
        && (old(state).Active? ==>
            if progressDeadlineAt <= input.now then failure == Some(ProgressStalled) else progressTimer && state.Active?)
      ensures input.TailDrained? ==> unchanged(`settled, `tasks, `failure)
      ensures input.TailDrained? && old(abortAfter).Some? && old(abortAfter).value <= old(settled) ==>
        aborted == failure && aborted.Some?
    {
      match input {
        case HeartbeatTimer =>
          if heartbeatTimer && queuedMutations == 0 { var _ := QueueMutation(Heartbeat); }
        case HeartbeatNow => var _ := QueueMutation(Heartbeat);
        case RecordProgress(now) => var _ := OnRecordProgress(now);
        case ProgressTimer(now) => if progressTimer { OnProgressTimer(now); }
        case MaxExecutionTimer(now) =>
          if maxExecutionTimer && maxExecutionDueAt <= now { RequireReview(MaxExecutionElapsed); }
        case ExternalAbort => if listening { Fail(ExternallyAborted); }
        case Stop => OnStop();
        case BeginTask => if !running && settled < |tasks| { OnBeginTask(); }
        case EndTask(ok, recorded) => if running { OnEndTask(ok, recorded); }
        case ProgressCallback(now) => if callbacks != [] { OnProgressCallback(now); }
        case TailDrained => if abortAfter.Some? && abortAfter.value <= settled { OnTailDrained(); }
      }
    }

    // Whatever the lease is at, none is active behind this input.
    predicate Ends(input: Input) {
      input.Stop? || input.ExternalAbort? || (input.MaxExecutionTimer? && maxExecutionDueAt <= input.now)
    }

    // Any interleaving at all.  Whatever has latched stays; and a signal that has
    // aborted did so with the first failure, behind every task of the chain, the
    // durable review of a stall or overrun included.
    method Run(inputs: seq<Input>)
      requires Valid()
      modifies this
      ensures Valid() && Latched()
      ensures aborted.Some? ==>
        && aborted == failure && !state.Active? && settled == |tasks| && !running
        && (failure.value.NeedsReview() ==>
            exists i :: 0 <= i < settled && tasks[i] == Review(failure.value))
      ensures (exists i :: 0 <= i < |inputs| && Ends(inputs[i])) ==> !state.Active?
      ensures inputs != [] && inputs[|inputs| - 1].TailDrained? && failure.Some? && settled == |tasks| ==>
        aborted == failure
    {
      for i := 0 to |inputs|
        invariant Valid() && Latched()
        invariant (exists j :: 0 <= j < i && Ends(inputs[j])) ==> !state.Active?
        invariant 0 < i && inputs[i - 1].TailDrained? && failure.Some? && settled == |tasks| ==> aborted == failure
      {
        Handle(inputs[i]);
      }
      if aborted.Some? && failure.value.NeedsReview() {
        assert tasks[|tasks| - 1] == Review(failure.value);
      }
    }
  }
}
