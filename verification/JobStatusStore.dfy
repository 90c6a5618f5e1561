/**
 * JobStatusStore: a lock-free register for the first terminal status of one job,
 * held in two files, the immutable `.terminal` anchor and the replaceable `.json`.
 *
 * Any number of writers take their atomic accesses (read, exclusive create,
 * overwrite) in any order, and any of them may crash before any access.
 */
module JobStatusStore {
  import opened Common
  import opened CanonicalJson

  // ---------------------------------------------------------------------- records

  // "status", "pending" and "running".
  const STATUS_KEY: Text := [0x73, 0x74, 0x61, 0x74, 0x75, 0x73]
  const PENDING: Text := [0x70, 0x65, 0x6E, 0x64, 0x69, 0x6E, 0x67]
  const RUNNING: Text := [0x72, 0x75, 0x6E, 0x6E, 0x69, 0x6E, 0x67]

  // A structurally valid job status: an object whose status is a string.
  predicate IsRecord(v: Json) {
    && Proper(v)
    && Meaning(v).VObj?
    && STATUS_KEY in Meaning(v).members
    && Meaning(v).members[STATUS_KEY].VStr?
  }

  type Record = v: Json | IsRecord(v) witness Obj(Member(STATUS_KEY, Str(PENDING), NoMembers))

  predicate Terminal(record: Record) {
    var status := Meaning(record).members[STATUS_KEY].s;
    status != PENDING && status != RUNNING
  }

  // The conflict check of the store.
  predicate SameEvidence(a: Record, b: Record) {
    Canonical(a) == Canonical(b)
  }

  // -------------------------------------------------------------------- the writers

  datatype Outcome = Ok | Conflict | AlreadyTerminal | WriteFailed

  // The access a writer takes next.
  datatype Pc =
    | ReadAnchor
    | ReadFile
    | CreateLegacy(current: Record)
    | RereadAnchor
    | CreateAnchor
    | ReadCommitted
    | Publish(committed: Record)
    | WriteOwn
    | Recheck
    | Repair(existing: Record)
    | Done(outcome: Outcome)
    | Crashed

  datatype Writer = Writer(record: Record, pc: Pc)

  datatype Store = Store(anchor: Option<Record>, json: Option<Record>, writers: seq<Writer>)

  // A writer that knows the committed terminal record.
  function WithCommitted(w: Writer, committed: Record): Pc {
    if !Terminal(w.record) then Repair(committed)
    else if SameEvidence(committed, w.record) then Publish(committed)
    else Done(Conflict)
  }

  // A writer that found no terminal record.
  function WithoutCommitted(w: Writer): Pc {
    if Terminal(w.record) then CreateAnchor else WriteOwn
  }

  function Goto(s: Store, i: nat, pc: Pc): Store
    requires i < |s.writers|
  {
    s.(writers := s.writers[i := s.writers[i].(pc := pc)])
  }

  // The next access of one writer.
  function Access(s: Store, i: nat): (r: Store)
    requires i < |s.writers|
    ensures |r.writers| == |s.writers|
  {
    var w := s.writers[i];
    match w.pc
    case ReadAnchor =>
      Goto(s, i, if s.anchor.Some? then WithCommitted(w, s.anchor.value) else ReadFile)
    case ReadFile =>
      Goto(s, i, if s.json.Some? && Terminal(s.json.value) then CreateLegacy(s.json.value)
                 else WithoutCommitted(w))
    case CreateLegacy(current) =>
      if s.anchor.Some? then Goto(s, i, RereadAnchor)
      else Goto(s.(anchor := Some(current)), i, WithCommitted(w, current))
    case RereadAnchor =>
      Goto(s, i, if s.anchor.Some? then WithCommitted(w, s.anchor.value) else WithoutCommitted(w))
    case CreateAnchor =>
      if s.anchor.Some? then Goto(s, i, ReadCommitted)
      else Goto(s.(anchor := Some(w.record)), i, WithCommitted(w, w.record))
    case ReadCommitted =>
      Goto(s, i, if s.anchor.Some? then WithCommitted(w, s.anchor.value) else Done(WriteFailed))
    case Publish(committed) => Goto(s.(json := Some(committed)), i, Done(Ok))
    case WriteOwn => Goto(s.(json := Some(w.record)), i, Recheck)
    case Recheck => Goto(s, i, if s.anchor.Some? then Repair(s.anchor.value) else Done(Ok))
    case Repair(existing) => Goto(s.(json := Some(existing)), i, Done(AlreadyTerminal))
    case Done(_) => s
    case Crashed => s
  }

  datatype Action = Run(writer: nat) | Crash(writer: nat)

  function Act(s: Store, a: Action): Store {
    if a.writer >= |s.writers| then s
    else if a.Run? then Access(s, a.writer)
    else if s.writers[a.writer].pc.Done? then s
    else Goto(s, a.writer, Crashed)
  }

  function Exec(s: Store, actions: seq<Action>): Store {
    if actions == [] then s
    else Act(Exec(s, actions[..|actions| - 1]), actions[|actions| - 1])
  }

  // No writer has begun; no anchor, but perhaps a status file of any age.
  predicate Initial(s: Store) {
    s.anchor.None? && forall i :: 0 <= i < |s.writers| ==> s.writers[i].pc.ReadAnchor?
  }

  // read(): the anchor, else the status file.
  function Read(s: Store): Option<Record> {
    if s.anchor.Some? then s.anchor else s.json
  }

  // --------------------------------------------------------------------- invariants

  // A terminal status file that no anchor backs: one of an earlier version.
  predicate Unanchored(s: Store) {
    s.anchor.None? && s.json.Some? && Terminal(s.json.value)
  }

  predicate WriterInvariant(s: Store, w: Writer) {
    match w.pc
    case ReadAnchor => true
    case ReadFile => true
    case CreateLegacy(current) =>
      s.anchor == Some(current) || (Unanchored(s) && s.json == Some(current))
    case RereadAnchor => s.anchor.Some?
    case CreateAnchor => Terminal(w.record) && !Unanchored(s)
    case ReadCommitted => Terminal(w.record) && s.anchor.Some?
    case Publish(committed) =>
      Terminal(w.record) && s.anchor == Some(committed) && SameEvidence(committed, w.record)
    case WriteOwn => !Terminal(w.record) && !Unanchored(s)
    case Recheck => !Terminal(w.record) && !Unanchored(s)
    case Repair(existing) => !Terminal(w.record) && s.anchor == Some(existing)
    case Done(outcome) =>
      (match outcome
       case Ok => Terminal(w.record) ==> s.anchor.Some? && SameEvidence(s.anchor.value, w.record)
       case Conflict => Terminal(w.record) && s.anchor.Some? && !SameEvidence(s.anchor.value, w.record)
       case AlreadyTerminal => !Terminal(w.record) && s.anchor.Some?
       case WriteFailed => false)
    case Crashed => true
  }

  predicate Invariant(s: Store) {
    && (s.anchor.Some? ==> Terminal(s.anchor.value))
    && (s.anchor.Some? && s.json.Some? && Terminal(s.json.value) ==> s.json == s.anchor)
    && forall i :: 0 <= i < |s.writers| ==> WriterInvariant(s, s.writers[i])
  }

  // What a step of another process leaves of a writer's knowledge.
  lemma OthersKeepKnowledge(s: Store, s': Store, w: Writer)
    requires WriterInvariant(s, w)
    requires s.anchor.Some? ==> s'.anchor == s.anchor
    requires Unanchored(s) ==> s'.json == s.json && (s'.anchor.None? || s'.anchor == s.json)
    requires Unanchored(s') ==> Unanchored(s)
    ensures WriterInvariant(s', w)
  {
  }

  lemma ActKeepsInvariant(s: Store, a: Action)
    requires Invariant(s)
    ensures Invariant(Act(s, a))
    ensures s.anchor.Some? ==> Act(s, a).anchor == s.anchor
    ensures |Act(s, a).writers| == |s.writers|
    ensures Read(s).Some? && Terminal(Read(s).value) ==> Read(Act(s, a)) == Read(s)
  {
    var s' := Act(s, a);
    assert a.writer < |s.writers| ==> WriterInvariant(s, s.writers[a.writer]);
    forall i | 0 <= i < |s'.writers| ensures WriterInvariant(s', s'.writers[i]) {
      assert WriterInvariant(s, s.writers[i]);
      if i != a.writer {
        OthersKeepKnowledge(s, s', s.writers[i]);
      }
    }
  }

  lemma {:induction false} ReachableInvariant(s: Store, actions: seq<Action>)
    requires Initial(s)
    ensures Invariant(Exec(s, actions)) && |Exec(s, actions).writers| == |s.writers|
  {
    if actions != [] {
      ReachableInvariant(s, actions[..|actions| - 1]);
      ActKeepsInvariant(Exec(s, actions[..|actions| - 1]), actions[|actions| - 1]);
    }
  }

  // ------------------------------------------------------------------- main results

  // The anchor never changes once it exists, and a terminal status that was read
  // once is what every later read returns.
  lemma {:induction false} FirstTerminalWins(s: Store, actions: seq<Action>, k: nat)
    requires Initial(s) && k <= |actions|
    ensures var then', now := Exec(s, actions[..k]), Exec(s, actions);
      && (then'.anchor.Some? ==> now.anchor == then'.anchor)
      && (Read(then').Some? && Terminal(Read(then').value) ==> Read(now) == Read(then'))
      && (now.anchor.Some? ==> Terminal(now.anchor.value))
    decreases |actions|
  {
    ReachableInvariant(s, actions);
    if k == |actions| {
      assert actions[..k] == actions;
    } else {
      var init := actions[..|actions| - 1];
      assert init[..k] == actions[..k];
      FirstTerminalWins(s, init, k);
      ReachableInvariant(s, init);
      ActKeepsInvariant(Exec(s, init), actions[|actions| - 1]);
    }
  }

  // A terminal write that ended succeeded exactly when the anchor means the same;
  // it never ends without an anchor.
  lemma TerminalWriteSucceedsExactlyWhenAnchored(s: Store, actions: seq<Action>, i: nat)
    requires Initial(s) && i < |s.writers|
    requires i < |Exec(s, actions).writers|
    requires Terminal(Exec(s, actions).writers[i].record) && Exec(s, actions).writers[i].pc.Done?
    ensures var now := Exec(s, actions);
      && now.anchor.Some?
      && (now.writers[i].pc.outcome.Ok? <==> Meaning(now.anchor.value) == Meaning(now.writers[i].record))
      && (now.writers[i].pc.outcome.Conflict? <==> Meaning(now.anchor.value) != Meaning(now.writers[i].record))
  {
    ReachableInvariant(s, actions);
    var now := Exec(s, actions);
    assert WriterInvariant(now, now.writers[i]);
    SameTextExactlyWhenSameMeaning(now.anchor.value, now.writers[i].record);
  }

  // Two terminal writes of different evidence never both succeed.
  lemma DifferentTerminalWritesNeverBothSucceed(s: Store, actions: seq<Action>, i: nat, j: nat)
    requires Initial(s) && i < |s.writers| && j < |s.writers|
    requires i < |Exec(s, actions).writers| && j < |Exec(s, actions).writers|
    requires var now := Exec(s, actions);
      && Terminal(now.writers[i].record) && Terminal(now.writers[j].record)
      && now.writers[i].pc == Done(Ok) && now.writers[j].pc == Done(Ok)
    ensures Meaning(Exec(s, actions).writers[i].record) == Meaning(Exec(s, actions).writers[j].record)
  {
    TerminalWriteSucceedsExactlyWhenAnchored(s, actions, i);
    TerminalWriteSucceedsExactlyWhenAnchored(s, actions, j);
  }

  predicate Succeeded(s: Store, i: nat) {
    i < |s.writers| && s.writers[i].pc == Done(Ok)
  }

  predicate NonTerminalWriter(s: Store, i: nat) {
    i < |s.writers| && !Terminal(s.writers[i].record)
  }

  // The writer has overwritten the status file and finds no anchor.
  predicate RechecksWithoutAnchor(s: Store, i: nat) {
    i < |s.writers| && s.writers[i].pc == Recheck && s.anchor.None?
  }

  // A non-terminal write returns normally only from its recheck, without an anchor.
  lemma SuccessFollowsRecheck(s: Store, a: Action, i: nat)
    requires Invariant(s) && NonTerminalWriter(Act(s, a), i) && Succeeded(Act(s, a), i)
    ensures NonTerminalWriter(s, i) && (Succeeded(s, i) || RechecksWithoutAnchor(s, i))
  {
    assert WriterInvariant(s, s.writers[i]);
  }

  // A non-terminal write that returns normally had a moment, after its overwrite and
  // before it returned, at which no anchor existed.
  lemma {:induction false} NonTerminalWriteSawNoAnchor(s: Store, actions: seq<Action>, i: nat) returns (m: nat)
    requires Initial(s) && NonTerminalWriter(Exec(s, actions), i) && Succeeded(Exec(s, actions), i)
    ensures m < |actions| && RechecksWithoutAnchor(Exec(s, actions[..m]), i)
    decreases |actions|
  {
    assert actions != [];
    m := |actions| - 1;
    var init := actions[..m];
    ReachableInvariant(s, init);
    SuccessFollowsRecheck(Exec(s, init), actions[m], i);
    if Succeeded(Exec(s, init), i) {
      m := NonTerminalWriteSawNoAnchor(s, init, i);
      assert init[..m] == actions[..m];
    }
  }

  // ------------------------------------------------------- what the status file holds

  // The record of the writer that overwrote the status file last with its own.
  function LastOwn(s: Store, actions: seq<Action>): Option<Record> {
    if actions == [] then None
    else
      var init, a := actions[..|actions| - 1], actions[|actions| - 1];
      var before := Exec(s, init);
      if a.Run? && a.writer < |before.writers| && before.writers[a.writer].pc.WriteOwn?
      then Some(before.writers[a.writer].record)
      else LastOwn(s, init)
  }

  predicate SameRecords(a: Store, b: Store) {
    |a.writers| == |b.writers| && forall i :: 0 <= i < |a.writers| ==> a.writers[i].record == b.writers[i].record
  }

  lemma {:induction false} RecordsStay(s: Store, actions: seq<Action>)
    ensures SameRecords(s, Exec(s, actions))
  {
    if actions != [] {
      RecordsStay(s, actions[..|actions| - 1]);
    }
  }

  // Without an anchor the status file is the initial one, or the record of whoever
  // overwrote it last.
  lemma {:induction false} FileIsLastWritten(s: Store, actions: seq<Action>)
    requires Initial(s)
    ensures var now, last := Exec(s, actions), LastOwn(s, actions);
      && (last.Some? ==> !Terminal(last.value) && exists j :: 0 <= j < |s.writers| && s.writers[j].record == last.value)
      && (now.anchor.None? ==> now.json == if last.Some? then last else s.json)
      && (s.json.Some? || last.Some? ==> now.json.Some?)
  {
    if actions != [] {
      var init := actions[..|actions| - 1];
      FileIsLastWritten(s, init);
      ReachableInvariant(s, init);
      RecordsStay(s, init);
      var before, a := Exec(s, init), actions[|actions| - 1];
      assert a.writer < |before.writers| ==> WriterInvariant(before, before.writers[a.writer]);
    }
  }

  // Has this writer overwritten the status file with its own record?
  predicate PastOwn(w: Writer) {
    !Terminal(w.record) && (w.pc.Recheck? || w.pc == Done(Ok))
  }

  lemma {:induction false} PastOwnHasWritten(s: Store, actions: seq<Action>, i: nat)
    requires Initial(s) && i < |Exec(s, actions).writers| && PastOwn(Exec(s, actions).writers[i])
    ensures LastOwn(s, actions).Some?
  {
    hide Terminal, SameEvidence;
    assert actions != [];
    var init := actions[..|actions| - 1];
    ReachableInvariant(s, init);
    var before := Exec(s, init);
    assert WriterInvariant(before, before.writers[i]);
    if PastOwn(before.writers[i]) {
      PastOwnHasWritten(s, init, i);
    }
  }

  // A non-terminal write that returned normally has written the status file: it exists
  // from then on, and while nothing is anchored it is what the last such write left.
  lemma NonTerminalWriteIsReadable(s: Store, actions: seq<Action>, i: nat)
    requires Initial(s) && NonTerminalWriter(Exec(s, actions), i) && Succeeded(Exec(s, actions), i)
    ensures var now, last := Exec(s, actions), LastOwn(s, actions);
      && now.json.Some? && Read(now).Some?
      && (now.anchor.None? ==> last.Some? && Read(now) == last)
  {
    PastOwnHasWritten(s, actions, i);
    FileIsLastWritten(s, actions);
  }

  // A write that runs alone takes four accesses.  Where no terminal status is on file it
  // succeeds and is what a read returns; where one is, that is what a read returns, and
  // the write succeeds only as its repetition.
  lemma WriteAloneIsRead(s: Store, i: nat)
    requires Initial(s) && i < |s.writers|
    ensures var now, w := Exec(s, [Run(i), Run(i), Run(i), Run(i)]), s.writers[i];
      && i < |now.writers| && now.writers[i].pc.Done?
      && (if s.json.None? || !Terminal(s.json.value)
          then
            && now.writers[i].pc.outcome == Ok && Read(now) == Some(w.record) && now.json == Some(w.record)
            && (now.anchor.None? <==> Meaning(w.record).members[STATUS_KEY] in {VStr(PENDING), VStr(RUNNING)})
          else
            && Read(now) == s.json && now.anchor == s.json
            && now.writers[i].pc.outcome ==
               if !Terminal(w.record) then AlreadyTerminal
               else if SameEvidence(s.json.value, w.record) then Ok else Conflict)
  {
    TerminalByName(s.writers[i].record);
    hide Terminal, SameEvidence, Access;
    FourAccesses(s, i);
    LooksAlone(s, i);
    ActsAlone(Access(Access(s, i), i), i);
  }

  // Whoever reads the anchor where it exists obeys it: a non-terminal write restores it,
  // a repetition publishes it, anything else is a conflict.
  lemma AnchorIsObeyed(s: Store, i: nat)
    requires i < |s.writers| && s.anchor.Some?
    requires s.writers[i].pc.ReadAnchor? || s.writers[i].pc.RereadAnchor? || s.writers[i].pc.ReadCommitted?
    ensures var record, after := s.writers[i].record, Access(s, i);
      && after.anchor == s.anchor && after.json == s.json && after.writers[i].record == record
      && after.writers[i].pc ==
         if !Terminal(record) then Repair(s.anchor.value)
         else if SameEvidence(s.anchor.value, record) then Publish(s.anchor.value)
         else Done(Conflict)
  {
    hide Terminal, SameEvidence;
  }

  lemma TerminalByName(record: Record)
    ensures Terminal(record) <==> Meaning(record).members[STATUS_KEY] !in {VStr(PENDING), VStr(RUNNING)}
  {
  }

  lemma FourAccesses(s: Store, i: nat)
    requires i < |s.writers|
    ensures Exec(s, [Run(i), Run(i), Run(i), Run(i)]) == Access(Access(Access(Access(s, i), i), i), i)
  {
    hide Access;
    var a1, a2, a3, a4 := [Run(i)], [Run(i), Run(i)], [Run(i), Run(i), Run(i)], [Run(i), Run(i), Run(i), Run(i)];
    assert a1[..0] == [] && a2[..1] == a1 && a3[..2] == a2 && a4[..3] == a3;
    assert Exec(s, a1) == Access(s, i);
    assert Exec(s, a2) == Access(Access(s, i), i);
    assert Exec(s, a3) == Access(Access(Access(s, i), i), i);
  }

  lemma GotoTwice(s: Store, i: nat)
    requires i < |s.writers|
    ensures forall pc, pc' :: Goto(Goto(s, i, pc), i, pc') == Goto(s, i, pc')
  {
  }

  lemma LooksAlone(s: Store, i: nat)
    requires Initial(s) && i < |s.writers|
    ensures Access(Access(s, i), i) == Goto(s, i,
      if s.json.Some? && Terminal(s.json.value) then CreateLegacy(s.json.value) else WithoutCommitted(s.writers[i]))
  {
    hide Terminal, WithCommitted;
    GotoTwice(s, i);
  }

  lemma ActsAlone(s: Store, i: nat)
    requires i < |s.writers| && s.anchor.None?
    ensures s.writers[i].pc == WithoutCommitted(s.writers[i]) ==>
      Access(Access(s, i), i) == Goto(
        s.(json := Some(s.writers[i].record), anchor := if Terminal(s.writers[i].record) then Some(s.writers[i].record) else None),
        i, Done(Ok))
    ensures s.writers[i].pc.CreateLegacy? && s.json == Some(s.writers[i].pc.current) ==>
      Access(Access(s, i), i) == Goto(s.(anchor := s.json), i,
        Done(if !Terminal(s.writers[i].record) then AlreadyTerminal
             else if SameEvidence(s.json.value, s.writers[i].record) then Ok else Conflict))
  {
    hide Terminal, Canonical;
    GotoTwice(s.(anchor := s.json), i);
    GotoTwice(s.(anchor := Some(s.writers[i].record)), i);
    GotoTwice(s.(json := Some(s.writers[i].record)), i);
  }

  // A writer that is about to make the status file equal to the anchor.
  predicate Mends(s: Store, i: nat) {
    i < |s.writers| && (s.writers[i].pc.Publish? || s.writers[i].pc.Repair? || s.writers[i].pc.Recheck?)
  }

  ghost predicate MirrorsOrMends(s: Store) {
    s.anchor.Some? && s.json != s.anchor ==> (exists i :: Mends(s, i))
  }

  lemma RunKeepsMending(s: Store, a: Action)
    requires Invariant(s) && MirrorsOrMends(s) && a.Run?
    ensures MirrorsOrMends(Act(s, a))
  {
    var s' := Act(s, a);
    if a.writer < |s.writers| && s'.anchor.Some? && s'.json != s'.anchor {
      assert WriterInvariant(s, s.writers[a.writer]);
      if Mends(s', a.writer) {
      } else {
        var i :| Mends(s, i);
        assert i != a.writer ==> Mends(s', i);
      }
    }
  }

  lemma {:induction false} NoCrashKeepsMending(s: Store, actions: seq<Action>)
    requires Initial(s) && forall k :: 0 <= k < |actions| ==> actions[k].Run?
    ensures MirrorsOrMends(Exec(s, actions))
  {
    if actions != [] {
      var init := actions[..|actions| - 1];
      NoCrashKeepsMending(s, init);
      ReachableInvariant(s, init);
      RunKeepsMending(Exec(s, init), actions[|actions| - 1]);
    }
  }

  // Once all writers have ended without a crash, an anchor is mirrored in the
  // status file.
  lemma QuiescentFilesAgree(s: Store, actions: seq<Action>)
    requires Initial(s) && forall k :: 0 <= k < |actions| ==> actions[k].Run?
    requires forall i :: 0 <= i < |Exec(s, actions).writers| ==> Exec(s, actions).writers[i].pc.Done?
    requires Exec(s, actions).anchor.Some?
    ensures Exec(s, actions).json == Exec(s, actions).anchor
  {
    NoCrashKeepsMending(s, actions);
  }

  // A crash can leave the two files apart; the status that is read stays right.
  lemma CrashLeavesFilesApart(terminal: Record, pending: Record) returns (s: Store, actions: seq<Action>)
    requires Terminal(terminal) && !Terminal(pending)
    ensures Initial(s) && s.json == Some(pending)
    ensures var now := Exec(s, actions);
      && now.anchor == Some(terminal) && now.json == Some(pending) && Read(now) == Some(terminal)
      && forall i :: 0 <= i < |now.writers| ==> now.writers[i].pc.Crashed?
  {
    s := Store(None, Some(pending), [Writer(terminal, ReadAnchor)]);
    var a0, a1, a2, a3 := [Run(0)], [Run(0), Run(0)], [Run(0), Run(0), Run(0)], [Run(0), Run(0), Run(0), Crash(0)];
    assert a0[..0] == [] && a1[..1] == a0 && a2[..2] == a1 && a3[..3] == a2;
    assert Exec(s, a0) == Store(None, Some(pending), [Writer(terminal, ReadFile)]);
    assert Exec(s, a1) == Store(None, Some(pending), [Writer(terminal, CreateAnchor)]);
    assert Exec(s, a2) == Store(Some(terminal), Some(pending), [Writer(terminal, Publish(terminal))]);
    assert Exec(s, a3) == Store(Some(terminal), Some(pending), [Writer(terminal, Crashed)]);
    actions := a3;
  }
}
