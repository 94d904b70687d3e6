/** Two runs of a service with one worker and one operation: one that loses the operation, and one
    whose success a power loss takes back. */
module ProtocolWitness {
  import opened Common
  import opened Records
  import opened Retention
  import opened StoreSteps
  import opened Governing
  import opened Protocol
  import opened ProtocolInvariant
  import opened ProtocolSafety
  import opened ProtocolTheorems
  import opened ProtocolStranded

  const ID := "op"
  const QUEUED: Operation := Operation(ID, "r", "k", Queued, "c", "n", "t", "u", "", "", "", 0, 0, 0, 0)
  const RUNNING: Operation := StartedAt(QUEUED, 1)
  const SUCCEEDED: Operation := Outcome(RUNNING, NoError, false, 2)
  const SUBMITTED: AuditEvent := OperationEvent(QUEUED, "a", "k", "submitted", "", 0)
  const REPORTED: AuditEvent := OperationEvent(SUCCEEDED, "b", "k", "succeeded", "", 2)

  const GOVERNOR: Config := Config(false, 1, 0.5, 0.9)
  const ANY: Sample := Sample(None, None)

  function Opening(): State { Start(GOVERNOR, 1, (_, _, _) => 0, 1) }

  function Stored(ops: seq<Operation>, events: seq<AuditEvent>): Data { EMPTY.(operations := ops, auditEvents := events) }

  /** The one operation is at `j`, and nothing else is going on. */
  predicate Alone(s: State, op: Operation, j: Job, ops: seq<Operation>, events: seq<AuditEvent>) {
    && s.governor == GOVERNOR && s.queueCap == 1 && StripeOf(s.striping, op) == 0 && op.id != ""
    && JobOf(s, op.id) == j && s.data == Stored(ops, events) && s.data in s.restorable && !s.stopped
    && s.queue == (if j.InQueue? then [op.id] else [])
    && s.workers == [if WorkerOf(j).Some? then Some(op.id) else None]
    && s.stripes == (if HoldsStripe(j) then map[0 := ByJob(op.id)] else map[])
    && s.active == (if HoldsSlot(j) then 1 else 0)
  }

  lemma RunAppend(s: State, run: seq<Action>, a: Action)
    requires IsRun(s, run) && Enabled(After(s, run), a)
    ensures IsRun(s, run + [a]) && After(s, run + [a]) == Do(After(s, run), a)
    decreases |run|
  {
    if run == [] {
      assert run + [a] == [a] && [a][1..] == [];
    } else {
      assert (run + [a])[0] == run[0] && (run + [a])[1..] == run[1..] + [a];
      RunAppend(Do(s, run[0]), run[1..], a);
    }
  }

  // ---- steps ----

  lemma Submits(s: State, op: Operation)
    requires Alone(s, op, Gone, [], []) && op.id !in s.origin && op.state == Queued
    ensures var a := Act(op.id, Submit(op)); Enabled(s, a) && Alone(Do(s, a), op, Registered(op), [], [])
  {
  }

  lemma Creates(s: State, op: Operation)
    requires Alone(s, op, Registered(op), [], [])
    ensures var a := Act(op.id, Create(Works)); Enabled(s, a) && Alone(Do(s, a), op, Created(op), [op], [])
  {
    assert [] + [op] == [op];
  }

  lemma AuditLands(d: Data, e: AuditEvent, events: seq<AuditEvent>)
    requires |d.auditEvents| < 2 && (forall i :: 0 <= i < |d.auditEvents| ==> d.auditEvents[i].id != e.id)
    requires events == d.auditEvents + [e]
    ensures AuditNext(d, e) == Ok(d.(auditEvents := events))
  {
  }

  lemma AuditEffect(s: State, op: Operation, auditId: string, ops: seq<Operation>, event: AuditEvent)
    requires Alone(s, op, Created(op), ops, []) && event == OperationEvent(op, auditId, op.kind, "submitted", op.summary, 0)
    ensures Alone(Apply(s, AuditSubmissionStep(s.data, op.id, Created(op), Works, auditId, 0)), op, Audited(op), ops, [event])
  {
    AuditLands(s.data, event, [event]);
  }

  lemma Audits(s: State, op: Operation, auditId: string, ops: seq<Operation>, event: AuditEvent)
    requires Alone(s, op, Created(op), ops, []) && event == OperationEvent(op, auditId, op.kind, "submitted", op.summary, 0)
    ensures var a := Act(op.id, AuditSubmission(Works, auditId, 0)); Enabled(s, a) && Alone(Do(s, a), op, Audited(op), ops, [event])
  {
    AuditEffect(s, op, auditId, ops, event);
    assert Do(s, Act(op.id, AuditSubmission(Works, auditId, 0)))
           == Apply(s, AuditSubmissionStep(s.data, op.id, Created(op), Works, auditId, 0));
  }

  lemma Enqueues(s: State, op: Operation, ops: seq<Operation>, events: seq<AuditEvent>)
    requires Alone(s, op, Audited(op), ops, events)
    ensures var a := Act(op.id, Enqueue); Enabled(s, a) && Alone(Do(s, a), op, InQueue, ops, events)
  {
  }

  lemma Dequeues(s: State, op: Operation, ops: seq<Operation>, events: seq<AuditEvent>)
    requires Alone(s, op, InQueue, ops, events)
    ensures var a := Act(op.id, Dequeue(0)); Enabled(s, a) && Alone(Do(s, a), op, Dequeued(0), ops, events)
  {
  }

  lemma Loads(s: State, op: Operation, events: seq<AuditEvent>)
    requires Alone(s, op, Dequeued(0), [op], events) && op.state == Queued
    ensures var a := Act(op.id, Load); Enabled(s, a) && Alone(Do(s, a), op, Waiting(0, op), [op], events)
  {
  }

  lemma StripeEffect(s: State, op: Operation, ops: seq<Operation>, events: seq<AuditEvent>)
    requires Alone(s, op, Waiting(0, op), ops, events)
    ensures Alone(Apply(s, TakeStripeStep(op.id, Waiting(0, op), 0)), op, Holding(0, op), ops, events)
  {
  }

  lemma TakesStripe(s: State, op: Operation, ops: seq<Operation>, events: seq<AuditEvent>)
    requires Alone(s, op, Waiting(0, op), ops, events)
    ensures var a := Act(op.id, TakeStripe); Enabled(s, a) && Alone(Do(s, a), op, Holding(0, op), ops, events)
  {
    StripeEffect(s, op, ops, events);
    assert Do(s, Act(op.id, TakeStripe)) == Apply(s, TakeStripeStep(op.id, Waiting(0, op), 0));
  }

  lemma SlotEffect(s: State, op: Operation, ops: seq<Operation>, events: seq<AuditEvent>)
    requires Alone(s, op, Holding(0, op), ops, events)
    ensures Alone(Apply(s, TakeSlotStep(op.id, Holding(0, op))), op, Admitted(0, op), ops, events)
  {
  }

  lemma TakesSlot(s: State, op: Operation, ops: seq<Operation>, events: seq<AuditEvent>)
    requires Alone(s, op, Holding(0, op), ops, events)
    ensures var a := Act(op.id, TakeSlot(ANY)); Enabled(s, a) && Alone(Do(s, a), op, Admitted(0, op), ops, events)
  {
    SlotEffect(s, op, ops, events);
    assert Do(s, Act(op.id, TakeSlot(ANY))) == Apply(s, TakeSlotStep(op.id, Holding(0, op)));
  }

  lemma BrokenClaimEffect(s: State, op: Operation, ops: seq<Operation>, events: seq<AuditEvent>)
    requires Alone(s, op, Admitted(0, op), ops, events)
    ensures Alone(Apply(s, ClaimStep(s.data, op.id, Admitted(0, op), Broken, 1)), op, FreeingSlot(0, op), ops, events)
  {
  }

  lemma ClaimBreaks(s: State, op: Operation, ops: seq<Operation>, events: seq<AuditEvent>)
    requires Alone(s, op, Admitted(0, op), ops, events)
    ensures var a := Act(op.id, Claim(Broken, 1)); Enabled(s, a) && Alone(Do(s, a), op, FreeingSlot(0, op), ops, events)
  {
    BrokenClaimEffect(s, op, ops, events);
    assert Do(s, Act(op.id, Claim(Broken, 1))) == Apply(s, ClaimStep(s.data, op.id, Admitted(0, op), Broken, 1));
  }

  lemma FreeSlotEffect(s: State, op: Operation, ops: seq<Operation>, events: seq<AuditEvent>)
    requires Alone(s, op, FreeingSlot(0, op), ops, events)
    ensures Alone(Apply(s, FreeSlotStep(op.id, FreeingSlot(0, op))), op, FreeingStripe(0, op), ops, events)
  {
  }

  lemma FreesSlot(s: State, op: Operation, ops: seq<Operation>, events: seq<AuditEvent>)
    requires Alone(s, op, FreeingSlot(0, op), ops, events)
    ensures var a := Act(op.id, FreeSlot); Enabled(s, a) && Alone(Do(s, a), op, FreeingStripe(0, op), ops, events)
  {
    FreeSlotEffect(s, op, ops, events);
    assert Do(s, Act(op.id, FreeSlot)) == Apply(s, FreeSlotStep(op.id, FreeingSlot(0, op)));
  }

  lemma FreesStripe(s: State, op: Operation, ops: seq<Operation>, events: seq<AuditEvent>)
    requires Alone(s, op, FreeingStripe(0, op), ops, events)
    ensures var a := Act(op.id, FreeStripe); Enabled(s, a) && Alone(Do(s, a), op, Finishing(0), ops, events)
  {
    assert map[0 := ByJob(op.id)] - {0} == map[];
  }

  lemma FinishEffect(s: State, op: Operation, ops: seq<Operation>, events: seq<AuditEvent>)
    requires Alone(s, op, Finishing(0), ops, events)
    ensures Alone(Apply(s, FinishStep(op.id, Finishing(0))), op, Gone, ops, events)
  {
  }

  lemma Finishes(s: State, op: Operation, ops: seq<Operation>, events: seq<AuditEvent>)
    requires Alone(s, op, Finishing(0), ops, events)
    ensures var a := Act(op.id, Finish); Enabled(s, a) && Alone(Do(s, a), op, Gone, ops, events)
  {
    FinishEffect(s, op, ops, events);
    assert Do(s, Act(op.id, Finish)) == Apply(s, FinishStep(op.id, Finishing(0)));
  }

  lemma ClaimEffect(s: State, op: Operation, events: seq<AuditEvent>, running: Operation)
    requires Alone(s, op, Admitted(0, op), [op], events) && op.state == Queued && running == StartedAt(op, 1)
    ensures Alone(Apply(s, ClaimStep(s.data, op.id, Admitted(0, op), Works, 1)), op, Executing(0, running), [running], events)
  {
    assert [op][0 := running] == [running];
  }

  lemma Claims(s: State, op: Operation, events: seq<AuditEvent>, running: Operation)
    requires Alone(s, op, Admitted(0, op), [op], events) && op.state == Queued && running == StartedAt(op, 1)
    ensures var a := Act(op.id, Claim(Works, 1)); Enabled(s, a) && Alone(Do(s, a), op, Executing(0, running), [running], events)
  {
    ClaimEffect(s, op, events, running);
    assert Do(s, Act(op.id, Claim(Works, 1))) == Apply(s, ClaimStep(s.data, op.id, Admitted(0, op), Works, 1));
  }

  lemma ReturnEffect(s: State, op: Operation, running: Operation, ops: seq<Operation>, events: seq<AuditEvent>, done: Operation)
    requires Alone(s, op, Executing(0, running), ops, events) && done == Outcome(running, NoError, false, 2)
    ensures Alone(Apply(s, ReturnStep(op.id, Executing(0, running), NoError, false, 2)), op, Reporting(0, done, "succeeded"), ops, events)
  {
  }

  lemma Returns(s: State, op: Operation, running: Operation, ops: seq<Operation>, events: seq<AuditEvent>, done: Operation)
    requires Alone(s, op, Executing(0, running), ops, events) && done == Outcome(running, NoError, false, 2)
    ensures var a := Act(op.id, Return(NoError, 2)); Enabled(s, a) && Alone(Do(s, a), op, Reporting(0, done, "succeeded"), ops, events)
  {
    ReturnEffect(s, op, running, ops, events, done);
    assert Do(s, Act(op.id, Return(NoError, 2))) == Apply(s, ReturnStep(op.id, Executing(0, running), NoError, false, 2));
  }

  lemma Reports(s: State, op: Operation, done: Operation, ops: seq<Operation>, first: AuditEvent, second: AuditEvent, auditId: string)
    requires Alone(s, op, Reporting(0, done, "succeeded"), ops, [first]) && first.id != auditId
    requires second == OperationEvent(done, auditId, done.kind, "succeeded", done.errorCode, 2)
    ensures var a := Act(op.id, Report(Works, auditId, 2)); Enabled(s, a) && Alone(Do(s, a), op, Writing(0, done), ops, [first, second])
  {
    AuditLands(s.data, second, [first, second]);
  }

  lemma WriteEffect(s: State, op: Operation, running: Operation, done: Operation, events: seq<AuditEvent>)
    requires Alone(s, op, Writing(0, done), [running], events) && running.id == done.id == op.id
    ensures var t := Apply(s, WriteStep(s.data, op.id, Writing(0, done), Broken));
            Alone(t, op, FreeingSlot(0, done), [running], events) && Stored([done], events) in t.restorable
  {
    assert [running][0 := done] == [done];
  }

  lemma WriteBreaks(s: State, op: Operation, running: Operation, done: Operation, events: seq<AuditEvent>)
    requires Alone(s, op, Writing(0, done), [running], events) && running.id == done.id == op.id
    ensures var a := Act(op.id, Write(Broken)); Enabled(s, a) && Alone(Do(s, a), op, FreeingSlot(0, done), [running], events)
    ensures Stored([done], events) in Do(s, Act(op.id, Write(Broken))).restorable
  {
    WriteEffect(s, op, running, done, events);
    assert Do(s, Act(op.id, Write(Broken))) == Apply(s, WriteStep(s.data, op.id, Writing(0, done), Broken));
  }

  // ---- runs ----

  lemma OpeningIsAlone()
    ensures Initial(Opening()) && Alone(Opening(), QUEUED, Gone, [], []) && ID !in Opening().origin
  {
    assert ValidConfig(GOVERNOR);
    assert Opening().workers == [None];
  }

  lemma Submission() returns (run: seq<Action>)
    ensures IsRun(Opening(), run) && Alone(After(Opening(), run), QUEUED, InQueue, [QUEUED], [SUBMITTED])
  {
    OpeningIsAlone();
    run := [];
    Submits(After(Opening(), run), QUEUED);
    RunAppend(Opening(), run, Act(ID, Submit(QUEUED)));
    run := run + [Act(ID, Submit(QUEUED))];
    Creates(After(Opening(), run), QUEUED);
    RunAppend(Opening(), run, Act(ID, Create(Works)));
    run := run + [Act(ID, Create(Works))];
    Audits(After(Opening(), run), QUEUED, "a", [QUEUED], SUBMITTED);
    RunAppend(Opening(), run, Act(ID, AuditSubmission(Works, "a", 0)));
    run := run + [Act(ID, AuditSubmission(Works, "a", 0))];
    Enqueues(After(Opening(), run), QUEUED, [QUEUED], [SUBMITTED]);
    RunAppend(Opening(), run, Act(ID, Enqueue));
    run := run + [Act(ID, Enqueue)];
  }

  lemma Admission() returns (run: seq<Action>)
    ensures IsRun(Opening(), run) && Alone(After(Opening(), run), QUEUED, Admitted(0, QUEUED), [QUEUED], [SUBMITTED])
  {
    run := Submission();
    Dequeues(After(Opening(), run), QUEUED, [QUEUED], [SUBMITTED]);
    RunAppend(Opening(), run, Act(ID, Dequeue(0)));
    run := run + [Act(ID, Dequeue(0))];
    Loads(After(Opening(), run), QUEUED, [SUBMITTED]);
    RunAppend(Opening(), run, Act(ID, Load));
    run := run + [Act(ID, Load)];
    TakesStripe(After(Opening(), run), QUEUED, [QUEUED], [SUBMITTED]);
    RunAppend(Opening(), run, Act(ID, TakeStripe));
    run := run + [Act(ID, TakeStripe)];
    TakesSlot(After(Opening(), run), QUEUED, [QUEUED], [SUBMITTED]);
    RunAppend(Opening(), run, Act(ID, TakeSlot(ANY)));
    run := run + [Act(ID, TakeSlot(ANY))];
  }

  /** The commit of the claim fails: the job is gone, and its operation stays queued. */
  lemma BrokenClaimLosesWork() returns (run: seq<Action>)
    ensures Initial(Opening()) && IsRun(Opening(), run)
    ensures JobOf(After(Opening(), run), ID).Gone? && IsState(Rec(After(Opening(), run).data, ID), Queued)
    ensures GivenUp(Opening(), run, ID)
  {
    OpeningIsAlone();
    run := Admission();
    ClaimBreaks(After(Opening(), run), QUEUED, [QUEUED], [SUBMITTED]);
    RunAppend(Opening(), run, Act(ID, Claim(Broken, 1)));
    run := run + [Act(ID, Claim(Broken, 1))];
    FreesSlot(After(Opening(), run), QUEUED, [QUEUED], [SUBMITTED]);
    RunAppend(Opening(), run, Act(ID, FreeSlot));
    run := run + [Act(ID, FreeSlot)];
    FreesStripe(After(Opening(), run), QUEUED, [QUEUED], [SUBMITTED]);
    RunAppend(Opening(), run, Act(ID, FreeStripe));
    run := run + [Act(ID, FreeStripe)];
    Finishes(After(Opening(), run), QUEUED, [QUEUED], [SUBMITTED]);
    RunAppend(Opening(), run, Act(ID, Finish));
    run := run + [Act(ID, Finish)];
    UnfinishedIffGivenUp(Opening(), run, ID);
  }

  lemma Success() returns (run: seq<Action>)
    ensures IsRun(Opening(), run)
    ensures Alone(After(Opening(), run), QUEUED, FreeingSlot(0, SUCCEEDED), [RUNNING], [SUBMITTED, REPORTED])
    ensures Stored([SUCCEEDED], [SUBMITTED, REPORTED]) in After(Opening(), run).restorable
  {
    run := Admission();
    Claims(After(Opening(), run), QUEUED, [SUBMITTED], RUNNING);
    RunAppend(Opening(), run, Act(ID, Claim(Works, 1)));
    run := run + [Act(ID, Claim(Works, 1))];
    Returns(After(Opening(), run), QUEUED, RUNNING, [RUNNING], [SUBMITTED], SUCCEEDED);
    RunAppend(Opening(), run, Act(ID, Return(NoError, 2)));
    run := run + [Act(ID, Return(NoError, 2))];
    Reports(After(Opening(), run), QUEUED, SUCCEEDED, [RUNNING], SUBMITTED, REPORTED, "b");
    RunAppend(Opening(), run, Act(ID, Report(Works, "b", 2)));
    run := run + [Act(ID, Report(Works, "b", 2))];
    WriteBreaks(After(Opening(), run), QUEUED, RUNNING, SUCCEEDED, [SUBMITTED, REPORTED]);
    RunAppend(Opening(), run, Act(ID, Write(Broken)));
    run := run + [Act(ID, Write(Broken))];
  }

  lemma ReopensSame(now: int)
    ensures var d := Stored([SUCCEEDED], [SUBMITTED, REPORTED]); Reopened(d, now) == d && Rec(d, ID) == Some(SUCCEEDED)
  {
    var d := Stored([SUCCEEDED], [SUBMITTED, REPORTED]);
    assert InterruptAll([SUCCEEDED], now) == [SUCCEEDED];
  }

  lemma ReopensUnknown(now: int)
    ensures var d := Stored([RUNNING], [SUBMITTED, REPORTED]); IsState(Rec(Reopened(d, now), ID), Unknown)
  {
    ReopenedIsInterrupted(Stored([RUNNING], [SUBMITTED, REPORTED]), now, ID);
  }

  lemma TakenBack(s: State, older: Data, newer: Data)
    requires older in s.restorable && newer in s.restorable && Reopened(newer, 3) == newer
    ensures var first, second := Restart([], newer, {older, newer}, 3), Restart([], older, {older}, 4);
            && Enabled(s, first) && Do(s, first).data == newer
            && IsRun(Do(s, first), [second]) && After(Do(s, first), [second]).data == Reopened(older, 4)
  {
    var t := Do(s, Restart([], newer, {older, newer}, 3));
    assert t.restorable == {older, newer};
    assert After(Do(t, Restart([], older, {older}, 4)), []) == Do(t, Restart([], older, {older}, 4));
    assert [Restart([], older, {older}, 4)][1..] == [];
  }

  /** The process dies between the rename and the sync of the last write. The next one finds the
      success, writes nothing, and shows it; a power loss brings the older file back, and the operation
      turns unknown. */
  lemma SuccessIsTakenBack() returns (run: seq<Action>, later: seq<Action>)
    ensures Initial(Opening()) && IsRun(Opening(), run) && IsState(Rec(After(Opening(), run).data, ID), Succeeded)
    ensures IsRun(After(Opening(), run), later) && IsState(Rec(After(After(Opening(), run), later).data, ID), Unknown)
  {
    OpeningIsAlone();
    run := Success();
    var older, newer := Stored([RUNNING], [SUBMITTED, REPORTED]), Stored([SUCCEEDED], [SUBMITTED, REPORTED]);
    ReopensSame(3);
    ReopensUnknown(4);
    TakenBack(After(Opening(), run), older, newer);
    RunAppend(Opening(), run, Restart([], newer, {older, newer}, 3));
    run := run + [Restart([], newer, {older, newer}, 3)];
    later := [Restart([], older, {older}, 4)];
  }
}
