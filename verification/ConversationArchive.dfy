/**
 * Archiving the controller conversation of a completed run: at most one click on
 * Archive, over any number of restarts and takeovers and whatever crashes.
 *
 * A `Settler` is one process; before each of its accesses others may take the run
 * lease away, append events, and click if their own checkpoint allows it.  A URL
 * carries whether it is an exact conversation URL, and its normal form.
 */
module ConversationArchive {
  import opened Common

  datatype Url = Url(text: string, exact: bool, normal: string, onChatGpt: bool)

  // sameChatGptConversationUrl
  predicate SameConversation(a: Url, b: Url) {
    a.exact && b.exact && a.normal == b.normal
  }

  datatype Status = Disabled | WaitingForCompletion | Pending | Started | Archived | Ambiguous | Failed {
    predicate BeforeStart() { Disabled? || WaitingForCompletion? || Pending? || Failed? }
  }

  datatype State = State(complete: bool, url: Option<Url>, enabled: bool, archive: Status)

  datatype Event =
    | RunCompleted
    | ConversationSeen(seen: Url)
    | PreflightFailed
    | ArchiveStarted(url: Url)
    | ArchiveDone(url: Url, proof: bool, postActionUrl: Url)
    | ArchiveAmbiguous
    | ArchiveFailed

  // The archive branches of the reducer, and what pins the conversation.
  function Reduce(s: State, e: Event): State {
    match e
    case RunCompleted =>
      s.(complete := true,
         archive := if s.enabled && s.archive.WaitingForCompletion? then Pending else s.archive)
    case ConversationSeen(seen) =>
      if seen.exact && s.url.None? then s.(url := Some(seen)) else s
    case PreflightFailed => s
    case ArchiveStarted(url) =>
      if s.complete && s.archive.Pending? && s.url.Some? && SameConversation(url, s.url.value)
      then s.(archive := Started) else s
    case ArchiveDone(url, proof, post) =>
      if s.archive.Started? && s.url.Some? && SameConversation(url, s.url.value)
         && proof && post.onChatGpt && !SameConversation(post, s.url.value)
      then s.(archive := Archived) else s
    case ArchiveAmbiguous => if s.archive.Started? then s.(archive := Ambiguous) else s
    case ArchiveFailed => if s.archive.Pending? then s.(archive := Failed) else s
  }

  // The state, how many checkpoints have been accepted, and how many clicks made.
  datatype World = World(state: State, checkpoints: nat, clicks: nat)

  datatype Write = Append(event: Event) | ClickArchive

  // A click needs a checkpoint of its own.
  predicate Enabled(w: World, a: Write) {
    a.ClickArchive? ==> w.clicks < w.checkpoints
  }

  function Apply(w: World, a: Write): World {
    match a
    case Append(e) =>
      var s := Reduce(w.state, e);
      World(s, if e.ArchiveStarted? && s != w.state then w.checkpoints + 1 else w.checkpoints, w.clicks)
    case ClickArchive => w.(clicks := w.clicks + 1)
  }

  ghost predicate Step(w: World, w': World) {
    exists a :: Enabled(w, a) && w' == Apply(w, a)
  }

  predicate Invariant(w: World) {
    && w.clicks <= w.checkpoints
    && w.checkpoints == (if w.state.archive.BeforeStart() then 0 else 1)
  }

  // How far settlement has come; it never goes back.
  function Progress(archive: Status): nat {
    match archive
    case Disabled => 0
    case WaitingForCompletion => 0
    case Pending => 1
    case Started => 2
    case Failed => 3
    case Archived => 3
    case Ambiguous => 3
  }

  // Completion opens the settlement of a run that archives, and is never taken back; the
  // conversation is pinned by the first exact URL, and for good; and the archive is
  // recorded as done only on proof that the conversation has left the list.
  lemma StepIsSound(w: World, a: Write)
    ensures var s, s' := w.state, Apply(w, a).state;
      && s'.enabled == s.enabled && (s.complete ==> s'.complete)
      && (s'.complete && !s.complete ==> a == Append(RunCompleted))
      && (a == Append(RunCompleted) ==>
          s'.complete && (s.enabled && s.archive.WaitingForCompletion? ==> s'.archive.Pending?))
      && (s.url.Some? ==> s'.url == s.url)
      && (s.url.None? ==>
          s'.url == if a.Append? && a.event.ConversationSeen? && a.event.seen.exact then Some(a.event.seen) else None)
      && (s'.archive.Archived? && !s.archive.Archived? ==>
          && a.Append? && a.event.ArchiveDone? && a.event.proof && s.archive.Started? && s.url.Some?
          && a.event.url.exact && a.event.url.normal == s.url.value.normal
          && a.event.postActionUrl.onChatGpt
          && !(a.event.postActionUrl.exact && a.event.postActionUrl.normal == s.url.value.normal))
  {
  }

  lemma StepKeepsInvariant(w: World, a: Write)
    requires Invariant(w) && Enabled(w, a)
    ensures Invariant(Apply(w, a))
    ensures Progress(w.state.archive) <= Progress(Apply(w, a).state.archive)
  {
  }

  ghost predicate IsRun(run: seq<World>) {
    run != [] && forall i :: 0 <= i < |run| - 1 ==> Step(run[i], run[i + 1])
  }

  lemma {:induction false} RunKeepsInvariant(run: seq<World>, i: nat, j: nat)
    requires IsRun(run) && Invariant(run[0]) && i <= j < |run|
    ensures Invariant(run[j]) && Progress(run[i].state.archive) <= Progress(run[j].state.archive)
    decreases j
  {
    if i < j {
      RunKeepsInvariant(run, i, j - 1);
      assert Step(run[j - 1], run[j - 1 + 1]);
      var a :| Enabled(run[j - 1], a) && run[j] == Apply(run[j - 1], a);
      StepKeepsInvariant(run[j - 1], a);
    } else if 0 < j {
      RunKeepsInvariant(run, j - 1, j - 1);
      assert Step(run[j - 1], run[j - 1 + 1]);
      var a :| Enabled(run[j - 1], a) && run[j] == Apply(run[j - 1], a);
      StepKeepsInvariant(run[j - 1], a);
    }
  }

  // At most one Archive click in a run, and none before a durable start.
  lemma AtMostOneClick(run: seq<World>, i: nat)
    requires IsRun(run) && i < |run|
    requires run[0].clicks == 0 && run[0].checkpoints == 0 && run[0].state.archive.BeforeStart()
    ensures run[i].clicks <= 1
    ensures run[i].state.archive.BeforeStart() ==> run[i].clicks == 0
  {
    RunKeepsInvariant(run, i, i);
  }

  // ---------------------------------------------------------------- one process

  datatype Interference = Takeover | OtherAppend(event: Event) | OtherClick

  datatype Evidence = Evidence(url: Url, proof: bool, postActionUrl: Url)

  // What the browser adapter does in one call: it may run the checkpoint hook and may
  // click, the click only after its hook has returned and only once.
  datatype AdapterStep = RunHook | Click

  datatype AdapterOutcome = Returned(evidence: Evidence) | Threw

  predicate NeedsRecovery(s: State) {
    s.complete && s.enabled && (s.archive.Pending? || s.archive.Started?)
  }

  // The evidence that proves the conversation has left the list.
  predicate Proves(evidence: Evidence, url: Url) {
    && SameConversation(evidence.url, url) && evidence.proof
    && evidence.postActionUrl.onChatGpt && !SameConversation(evidence.postActionUrl, url)
  }

  // What one adapter call does with the checkpoint: whether its hook returned, whether
  // it clicked, and whether a second run of the hook made the call throw.
  datatype Call = Call(hooked: bool, clicked: bool, refused: bool)

  function CallOf(steps: seq<AdapterStep>, hooked: bool, clicked: bool): Call {
    if steps == [] then Call(hooked, clicked, false)
    else if steps[0].RunHook? then
      if hooked then Call(hooked, clicked, true) else CallOf(steps[1..], true, clicked)
    else CallOf(steps[1..], hooked, hooked)
  }

  // How a pending archive is settled by one adapter call, while the lease is held.
  function SettledBy(call: Call, outcome: AdapterOutcome, url: Url): Status {
    if call.refused || outcome.Threw? then if call.hooked then Ambiguous else Pending
    else if !call.hooked then Ambiguous
    else if Proves(outcome.evidence, url) then Archived
    else Ambiguous
  }

  // The archive once it is settled, while the lease is held.
  function Settled(s: State, adapter: Option<(seq<AdapterStep>, AdapterOutcome)>): Status {
    if !NeedsRecovery(s) then s.archive
    else if s.archive.Started? then Ambiguous
    else if s.url.None? || !s.url.value.exact || adapter.None? then Failed
    else SettledBy(CallOf(adapter.value.0, false, false), adapter.value.1, s.url.value)
  }

  class Settler {
    var world: World
    var state: State                 // this process's replay of the log
    var owned: bool
    var permits: nat                 // own checkpoints that no own click has used
    var ownClicks: nat
    var schedule: seq<seq<Interference>>
    ghost var trace: seq<World>

    ghost predicate Valid()
      reads this
    {
      && IsRun(trace) && trace[|trace| - 1] == world && Invariant(trace[0])
      && world.clicks + permits <= world.checkpoints
      && (owned ==> state == world.state)
    }

    // A process that has claimed the run lease and loaded the log.
    constructor (world: World, schedule: seq<seq<Interference>>)
      requires Invariant(world)
      ensures Valid() && owned && this.world == world && permits == 0 && ownClicks == 0
    {
      this.world, this.schedule := world, schedule;
      state, owned, permits, ownClicks := world.state, true, 0, 0;
      trace := [world];
    }

    method Perform(a: Write)
      requires IsRun(trace) && trace[|trace| - 1] == world && Enabled(world, a)
      modifies this`world, this`trace
      ensures world == Apply(old(world), a) && trace == old(trace) + [world] && IsRun(trace)
    {
      world := Apply(world, a);
      trace := trace + [world];
      forall i | 0 <= i < |trace| - 1 ensures Step(trace[i], trace[i + 1]) {
        if i < |trace| - 2 {
          assert Step(old(trace)[i], old(trace)[i + 1]);
        }
      }
    }

    method Interfere()
      requires Valid()
      modifies this`world, this`owned, this`schedule, this`trace
      ensures Valid() && old(trace) <= trace
      ensures owned ==> old(owned) && world.state == old(world).state && world.checkpoints == old(world).checkpoints
      ensures old(schedule) != [] ==>
        schedule == old(schedule)[1..] && (Takeover in old(schedule)[0] ==> !owned)
    {
      if schedule == [] { return; }
      var todo := schedule[0];
      schedule := schedule[1..];
      while todo != []
        invariant Valid() && old(trace) <= trace
        invariant owned ==> old(owned) && world.state == old(world).state && world.checkpoints == old(world).checkpoints
        invariant schedule == old(schedule)[1..]
        invariant Takeover in old(schedule)[0] ==> !owned || Takeover in todo
        decreases |todo|
      {
        match todo[0] {
          case Takeover => owned := false;
          case OtherAppend(e) => if !owned { Perform(Append(e)); }
          case OtherClick => if world.clicks + permits < world.checkpoints { Perform(ClickArchive); }
        }
        todo := todo[1..];
      }
    }

    // RunStore.append
    method AppendEvent(e: Event) returns (ok: bool)
      requires Valid()
      modifies this`world, this`state, this`owned, this`schedule, this`trace
      ensures Valid() && old(trace) <= trace && ok == owned && (ok ==> old(owned))
      ensures ok ==> state == Reduce(old(state), e)
      ensures ok && e.ArchiveStarted? && state != old(state) ==> world.clicks + permits < world.checkpoints
      ensures !ok ==> state == old(state)
      ensures old(schedule) != [] && Takeover in old(schedule)[0] ==> !ok
    {
      Interfere();
      if !owned { return false; }
      Perform(Append(e));
      state := world.state;
      ok := true;
    }

    // onBeforeArchiveClick: it returns only with a checkpoint of this call's own.
    method Checkpoint(url: Url) returns (ok: bool)
      requires Valid() && url.exact
      requires state.complete && state.url == Some(url)
      modifies this
      ensures Valid() && old(trace) <= trace && ownClicks == old(ownClicks)
      ensures ok ==> old(state).archive.Pending? && owned && permits == old(permits) + 1 && state == old(state).(archive := Started)
      ensures !ok ==> permits == old(permits) && state == old(state) && (owned ==> !state.archive.Pending?)
    {
      if !state.archive.Pending? { return false; }
      ok := AppendEvent(ArchiveStarted(url));
      if ok { permits := permits + 1; }
    }

    method ClickOnce()
      requires Valid() && 0 < permits
      modifies this
      ensures Valid() && old(trace) <= trace && permits == old(permits) - 1 && ownClicks == old(ownClicks) + 1
      ensures owned == old(owned) && state == old(state) && world == old(world).(clicks := old(world).clicks + 1)
    {
      permits := permits - 1;
      ownClicks := ownClicks + 1;
      Perform(ClickArchive);
    }

    // browser.archiveConversation, for an adapter that keeps its contract.
    method ArchiveConversation(url: Url, steps: seq<AdapterStep>, outcome: AdapterOutcome)
      returns (r: AdapterOutcome)
      requires Valid() && owned && url.exact && permits == 0
      requires state.complete && state.url == Some(url) && state.archive.Pending?
      modifies this
      ensures Valid() && old(trace) <= trace && ownClicks <= old(ownClicks) + 1 && permits <= 1
      ensures state.complete && state.url == Some(url) && state.enabled == old(state).enabled
      ensures state.archive.Pending? || state.archive.Started?
      ensures owned ==> var call := CallOf(steps, false, false);
        && (state.archive.Started? <==> call.hooked)
        && ownClicks == old(ownClicks) + (if call.clicked then 1 else 0)
        && r == (if call.refused then Threw else outcome)
    {
      var hooked, clicked := false, false;
      for i := 0 to |steps|
        invariant Valid() && old(trace) <= trace
        invariant clicked ==> hooked
        invariant permits == (if hooked && !clicked then 1 else 0)
        invariant ownClicks == old(ownClicks) + if clicked then 1 else 0
        invariant state.complete && state.url == Some(url) && state.enabled == old(state).enabled
        invariant if hooked then state.archive.Started? else state.archive.Pending?
        invariant CallOf(steps[i..], hooked, clicked) == CallOf(steps, false, false)
      {
        assert steps[i..][0] == steps[i] && steps[i..][1..] == steps[i + 1..];
        if steps[i].RunHook? {
          var ok := Checkpoint(url);
          if !ok { return Threw; }
          hooked := true;
        } else if hooked && !clicked {
          ClickOnce();
          clicked := true;
        }
      }
      assert steps[|steps|..] == [];
      r := outcome;
    }

    // recordAmbiguousFailure and its siblings: append, or lose the lease.
    method Record(e: Event) returns (ok: bool)
      requires Valid()
      modifies this`world, this`state, this`owned, this`schedule, this`trace
      ensures Valid() && old(trace) <= trace && ok == owned
      ensures ok ==> old(owned) && state == Reduce(old(state), e)
    {
      ok := AppendEvent(e);
    }

    // The end of a call that returned evidence.
    method RecordEvidence(url: Url, evidence: Evidence) returns (ok: bool)
      requires Valid() && url.exact
      requires state.complete && state.url == Some(url) && (state.archive.Pending? || state.archive.Started?)
      modifies this`world, this`state, this`owned, this`schedule, this`trace
      ensures Valid() && old(trace) <= trace && (owned ==> old(owned))
      ensures ok == owned
      ensures ok && old(state).archive.Pending? ==> state.archive.Ambiguous?
      ensures ok && old(state).archive.Started? ==>
        if Proves(evidence, url) then state.archive.Archived? else state.archive.Ambiguous?
    {
      if !state.archive.Started? {
        ok := Record(ArchiveStarted(url));
        if ok { ok := Record(ArchiveAmbiguous); }
      } else if !Proves(evidence, url) {
        ok := Record(ArchiveAmbiguous);
      } else {
        ok := Record(ArchiveDone(url, evidence.proof, evidence.postActionUrl));
      }
    }

    // settleControllerConversationArchive.  A process that finds the archive started
    // never clicks; one that keeps its lease settles the archive exactly as its one
    // adapter call went.
    method Settle(adapter: Option<(seq<AdapterStep>, AdapterOutcome)>) returns (ok: bool)
      requires Valid() && owned && permits == 0
      modifies this
      ensures Valid() && old(trace) <= trace && ownClicks <= old(ownClicks) + 1
      ensures !old(state).archive.Pending? ==> ownClicks == old(ownClicks)
      ensures ok == owned
      ensures ok ==> state.archive == Settled(old(state), adapter)
      ensures ok && !(old(state).complete && old(state).enabled) ==> state == old(state)
      ensures ok && old(state).complete && old(state).enabled ==>
        && (old(state).archive.Started? ==> state.archive.Ambiguous?)
        && (old(state).archive.Pending? && adapter.None? ==> state.archive.Failed?)
        && (state.archive.Archived? && old(state).archive.Pending? ==>
            && ownClicks <= old(ownClicks) + 1 && adapter.value.1.Returned?
            && var evidence := adapter.value.1.evidence;
            && evidence.proof && evidence.url.normal == old(state).url.value.normal
            && evidence.postActionUrl.onChatGpt && !SameConversation(evidence.postActionUrl, old(state).url.value))
      ensures ok ==> !(NeedsRecovery(state) && state.archive.Started?)
    {
      if !NeedsRecovery(state) { return true; }
      if state.archive.Started? {
        ok := Record(ArchiveAmbiguous);
        return;
      }
      if state.url.None? || !state.url.value.exact || adapter.None? {
        ok := Record(ArchiveFailed);
        return;
      }
      var url := state.url.value;
      var r := ArchiveConversation(url, adapter.value.0, adapter.value.1);
      if r.Returned? {
        ok := RecordEvidence(url, r.evidence);
      } else if state.archive.Started? {
        ok := Record(ArchiveAmbiguous);
      } else {
        ok := Record(PreflightFailed);
      }
    }
  }
}
