/** What the stored record and the audit events of an operation say, in terms of what happened to it. */
module ProtocolRecords {
  import opened Common
  import opened Records
  import opened StoreSteps
  import opened Protocol
  import opened ProtocolInvariant
  import opened ProtocolSteps
  import opened ProtocolSafety
  import opened ProtocolTheorems

  // ---- what a record must say ----

  /** What operations.go:334-347 promises of the record `rec` of an operation that ran as `was`. */
  predicate Answers(was: Operation, error: JobError, stopped: bool, now: int, rec: Operation) {
    && SameIdentity(rec, was) && rec.startedAt == was.startedAt && rec.finishedAt == now && rec.updatedAt == now
    && (rec.state == Succeeded <==> error.NoError?)
    && (rec.state == Unknown <==> error.ContextCanceled? && stopped)
    && (rec.state == Failed <==> error.OtherError? || (error.ContextCanceled? && !stopped))
    && (error.NoError? ==> rec.errorCode == was.errorCode)
    && (error.OtherError? ==> rec.errorCode == error.code)
    && (error.ContextCanceled? && stopped ==> rec.errorCode == "operation_interrupted")
    && (error.ContextCanceled? && !stopped ==>
          rec.errorCode == if was.kind == "workload.scale" || was.kind == "workload.restart" || was.kind == "workload.image_update"
                           then "workload_operation_failed" else "helm_operation_failed")
  }

  /** The name of a result in the audit log. */
  predicate Names(result: string, state: OperationState) {
    && (result == "succeeded" <==> state == Succeeded)
    && (result == "unknown" <==> state == Unknown)
    && (result == "failed" <==> state == Failed)
  }

  /** The outcome could not be audited: the record fails, whatever it was. */
  predicate Unaudited(op: Operation, rec: Operation) {
    && SameIdentity(rec, op) && rec.state == Failed && rec.errorCode == "audit_failed"
    && rec.startedAt == op.startedAt && rec.finishedAt == op.finishedAt && rec.updatedAt == op.updatedAt
  }

  /** An audit event of the operation. */
  predicate Tells(e: AuditEvent, op: Operation, auditId: string, action: string, result: string, summary: string, now: int) {
    && e.id == auditId && e.operationId == op.id && e.requestId == op.requestId && e.actor == op.submittedBy
    && e.action == action && e.result == result && e.summary == summary && e.createdAt == now
    && e.clusterId == op.clusterId && e.namespace == op.namespace && e.target == op.target
  }

  /** The audit event that would have this ID can be stored. */
  predicate Recordable(d: Data, io: Io, auditId: string) {
    io.Works? && forall i :: 0 <= i < |d.auditEvents| ==> d.auditEvents[i].id != auditId
  }

  predicate TellsLast(d: Data, op: Operation, auditId: string, action: string, result: string, summary: string, now: int) {
    d.auditEvents != [] && Tells(d.auditEvents[|d.auditEvents| - 1], op, auditId, action, result, summary, now)
  }

  // ---- Return, Report and Write, with anything going on between them ----

  /** Anything but a restart and the steps of the job itself. */
  predicate Spares(a: Action, id: string) { !a.Restart? && (a.Act? && a.id == id ==> a.step.Cancel?) }

  predicate AllSpare(run: seq<Action>, id: string) { forall i :: 0 <= i < |run| ==> Spares(run[i], id) }

  /** `a` and then `run`. */
  predicate Follow(s: State, a: Action, run: seq<Action>) { Enabled(s, a) && IsRun(Do(s, a), run) }

  function Afterwards(s: State, a: Action, run: seq<Action>): State
    requires Follow(s, a, run)
  {
    After(Do(s, a), run)
  }

  lemma SparedJob(s: State, a: Action, id: string)
    requires Inv(s) && Enabled(s, a) && Spares(a, id)
    ensures JobOf(Do(s, a), id) == JobOf(s, id)
  {
    if a.Act? {
      var e := StepEffect(s, a.id, a.step);
      ActShape(s, a.id, a.step, e);
      FieldsAfter(s, e, Do(s, a));
    }
  }

  lemma {:induction false} SparedJobs(s: State, run: seq<Action>, id: string)
    requires Inv(s) && IsRun(s, run) && AllSpare(run, id)
    ensures Inv(After(s, run)) && JobOf(After(s, run), id) == JobOf(s, id)
    decreases |run|
  {
    if run != [] {
      SparedJob(s, run[0], id);
      StepKept(s, run[0]);
      SparedJobs(Do(s, run[0]), run[1..], id);
    }
  }

  lemma WorkerStep(s: State, id: string, step: Step, e: Effect)
    requires CanWork(s, id, JobOf(s, id), step) && e == WorkerEffect(s, id, JobOf(s, id), step) && e.id == id
    ensures Enabled(s, Act(id, step)) && JobOf(Do(s, Act(id, step)), id) == e.job
    ensures Do(s, Act(id, step)).data == NextData(s.data, e.call)
  {
  }

  /** The record as the worker sees it when the body has returned. */
  lemma ReturnedRecord(id: string, j: Job, error: JobError, stopped: bool, now: int)
    requires j.Executing? && j.op.state == Running
    ensures var k := ReturnStep(id, j, error, stopped, now).job;
            k.Reporting? && Answers(j.op, error, stopped, now, k.op) && Names(k.result, k.op.state)
  {
  }

  lemma ReturnAnswers(s: State, id: string, error: JobError, now: int)
    requires Inv(s) && JobOf(s, id).Executing?
    ensures var a := Act(id, Return(error, now));
            && Enabled(s, a)
            && var was, j := JobOf(s, id).op, JobOf(Do(s, a), id);
               j.Reporting? && Answers(was, error, s.stopped, now, j.op) && Names(j.result, j.op.state)
  {
    var j := JobOf(s, id);
    assert j.op.state == Running by { assert OpOk(ViewOf(s, id), s.stopped); }
    ReturnedRecord(id, j, error, s.stopped, now);
    WorkerStep(s, id, Return(error, now), ReturnStep(id, j, error, s.stopped, now));
  }

  lemma AuditAnswers(d: Data, op: Operation, io: Io, auditId: string, action: string, result: string, summary: string, now: int)
    ensures var call := Call(AuditNext(d, OperationEvent(op, auditId, action, result, summary, now)), io, None);
            && (Lands(call) <==> Recordable(d, io, auditId))
            && (Lands(call) ==> TellsLast(NextData(d, call), op, auditId, action, result, summary, now))
  {
  }

  lemma ReportAnswers(s: State, id: string, io: Io, auditId: string, now: int)
    requires Inv(s) && JobOf(s, id).Reporting?
    ensures var a := Act(id, Report(io, auditId, now));
            && Enabled(s, a)
            && var t, j := Do(s, a), JobOf(s, id);
               var k := JobOf(t, id);
               && k.Writing?
               && if Recordable(s.data, io, auditId)
                  then k.op == j.op && TellsLast(t.data, j.op, auditId, j.op.kind, j.result, j.op.errorCode, now)
                  else t.data == s.data && Unaudited(j.op, k.op)
  {
    var j := JobOf(s, id);
    WorkerStep(s, id, Report(io, auditId, now), ReportStep(s.data, id, j, io, auditId, now));
    AuditAnswers(s.data, j.op, io, auditId, j.op.kind, j.result, j.op.errorCode, now);
  }

  lemma UpdateAnswers(d: Data, op: Operation, io: Io)
    requires UniqueIds(d.operations) && IsState(Rec(d, op.id), Running)
    ensures var next := NextData(d, Call(UpdateNext(d, op), io, Some(op)));
            if io.Works? then Rec(next, op.id) == Some(op) else next == d
  {
    UpdateWrites(d, op);
  }

  /** What the last write of a job finds. */
  lemma WriterContext(s: State, id: string)
    requires Inv(s) && JobOf(s, id).Writing?
    ensures JobOf(s, id).op.id == id && IsState(Rec(s.data, id), Running) && UniqueIds(s.data.operations)
  {
    assert OpOk(ViewOf(s, id), s.stopped);
    assert FileOk(s, s.data);
  }

  lemma WriteAnswers(s: State, id: string, io: Io)
    requires Inv(s) && JobOf(s, id).Writing?
    ensures var a := Act(id, Write(io));
            && Enabled(s, a)
            && var t := Do(s, a);
               if io.Works? then Rec(t.data, id) == Some(JobOf(s, id).op) else t.data == s.data && IsState(Rec(t.data, id), Running)
  {
    var j := JobOf(s, id);
    WriterContext(s, id);
    UpdateAnswers(s.data, j.op, io);
    WorkerStep(s, id, Write(io), WriteStep(s.data, id, j, io));
  }

  /** When a job body returns and its outcome is audited and written, whatever others do in between, the
      stored record is Succeeded exactly if there was no error, Unknown exactly if a stop of the service
      canceled the job, and else Failed with the error's code; the audit log names the same result. If
      the outcome cannot be audited, the record is Failed with `audit_failed`. */
  lemma OutcomeIsStored(
    s: State, id: string, error: JobError, now: int, first: seq<Action>,
    io: Io, auditId: string, at: int, second: seq<Action>)
    requires Reachable(s) && JobOf(s, id).Executing? && AllSpare(first, id) && AllSpare(second, id)
    requires Follow(s, Act(id, Return(error, now)), first)
    requires var u := Afterwards(s, Act(id, Return(error, now)), first); Follow(u, Act(id, Report(io, auditId, at)), second)
    ensures var u := Afterwards(s, Act(id, Return(error, now)), first);
            var reported := Do(u, Act(id, Report(io, auditId, at))).data;
            var v := Afterwards(u, Act(id, Report(io, auditId, at)), second);
            && Enabled(v, Act(id, Write(Works)))
            && var rec := Rec(Do(v, Act(id, Write(Works))).data, id);
               && rec.Some?
               && if Recordable(u.data, io, auditId)
                  then && Answers(JobOf(s, id).op, error, s.stopped, now, rec.value)
                       && exists result :: Names(result, rec.value.state)
                            && TellsLast(reported, rec.value, auditId, rec.value.kind, result, rec.value.errorCode, at)
                  else reported == u.data && rec.value.state == Failed && rec.value.errorCode == "audit_failed"
                       && SameIdentity(rec.value, JobOf(s, id).op) && rec.value.finishedAt == now
  {
    var ended, report := Act(id, Return(error, now)), Act(id, Report(io, auditId, at));
    ReachableKeepsInv(s);
    ReturnAnswers(s, id, error, now);
    StepKept(s, ended);
    SparedJobs(Do(s, ended), first, id);
    var u := Afterwards(s, ended, first);
    ReportAnswers(u, id, io, auditId, at);
    StepKept(u, report);
    SparedJobs(Do(u, report), second, id);
    var v := Afterwards(u, report, second);
    WriteAnswers(v, id, Works);
    var result := JobOf(u, id).result;
    assert Names(result, JobOf(u, id).op.state);
  }

  // ---- the other steps that write a record or an event ----

  predicate Fails(op: Operation, rec: Operation, code: string, now: int) {
    && SameIdentity(rec, op) && rec.state == Failed && rec.errorCode == code && rec.startedAt == op.startedAt
    && rec.finishedAt == now && rec.updatedAt == now
  }

  /** What the record of an operation becomes by a step of its own. */
  predicate Stamps(s: State, id: string, step: Step, rec: Operation) {
    var j := JobOf(s, id);
    match step
    case Create(io) => io.Works? && j.Registered? && rec == j.op && rec.state == Queued
    case RejectUnaudited(io, now) => io.Works? && j.AuditRefused? && Fails(j.op, rec, "audit_failed", now)
    case RejectFull(io, now) => io.Works? && j.Turned? && Fails(j.op, rec, "queue_full", now)
    case Cancel(read, io, _, now) =>
      && io.Works? && SameIdentity(rec, read) && rec.state == Canceled && rec.errorCode == "" && rec.errorMessage == ""
      && rec.startedAt == read.startedAt && rec.finishedAt == now && rec.updatedAt == now
    case Claim(io, now) =>
      && io.Works? && j.Admitted? && SameIdentity(rec, j.op) && rec.state == Running && rec.errorCode == j.op.errorCode
      && rec.startedAt == now && rec.updatedAt == now && rec.finishedAt == j.op.finishedAt
    case Write(io) => io.Works? && j.Writing? && rec == j.op
    case _ => false
  }

  lemma SubmitterStamps(s: State, id: string, step: Step, e: Effect, rec: Operation)
    requires CanSubmit(s, id, JobOf(s, id), step) && e == SubmitterEffect(s, id, JobOf(s, id), step) && UniqueIds(s.data.operations)
    requires (HasOp(JobOf(s, id)) ==> JobOf(s, id).op.id == id != "") && (JobOf(s, id).Registered? ==> JobOf(s, id).op.state == Queued)
    requires Rec(NextData(s.data, e.call), id) == Some(rec) && Rec(s.data, id) != Some(rec)
    ensures Stamps(s, id, step, rec)
  {
    var j, d := JobOf(s, id), s.data;
    match step
    case Create(io) => CreateWrites(d, j.op);
    case RejectUnaudited(io, now) => TransitionWrites(d, FailedWith(j.op, "audit_failed", now));
    case RejectFull(io, now) => TransitionWrites(d, FailedWith(j.op, "queue_full", now));
    case Cancel(read, io, auditId, now) => CancelWrites(d, CanceledAt(read, now), CancelEvent(CanceledAt(read, now), auditId, now));
    case _ =>
  }

  lemma WorkerStamps(s: State, id: string, step: Step, e: Effect, rec: Operation)
    requires CanWork(s, id, JobOf(s, id), step) && e == WorkerEffect(s, id, JobOf(s, id), step) && UniqueIds(s.data.operations)
    requires HasOp(JobOf(s, id)) ==> JobOf(s, id).op.id == id != ""
    requires Rec(NextData(s.data, e.call), id) == Some(rec) && Rec(s.data, id) != Some(rec)
    ensures Stamps(s, id, step, rec)
  {
    var j, d := JobOf(s, id), s.data;
    match step
    case Claim(io, now) => TransitionWrites(d, StartedAt(j.op, now));
    case Write(io) => UpdateWrites(d, j.op);
    case _ =>
  }

  lemma OwnStamps(s: State, id: string, step: Step, e: Effect)
    requires Inv(s) && Enabled(s, Act(id, step)) && e == StepEffect(s, id, step)
    ensures var after := Rec(NextData(s.data, e.call), id);
            after.Some? && after != Rec(s.data, id) ==> Stamps(s, id, step, after.value)
  {
    var after := Rec(NextData(s.data, e.call), id);
    StepContext(s, id, step);
    if after.Some? && after != Rec(s.data, id) {
      if CanWork(s, id, JobOf(s, id), step) {
        WorkerStamps(s, id, step, e, after.value);
      } else {
        SubmitterStamps(s, id, step, e, after.value);
      }
    }
  }

  lemma ActData(s: State, id: string, step: Step, e: Effect)
    requires Enabled(s, Act(id, step)) && e == StepEffect(s, id, step)
    ensures Do(s, Act(id, step)).data == NextData(s.data, e.call)
  {
  }

  /** No record changes but by these steps of its own operation, each of which writes just this. */
  lemma ChangeIsStamped(s: State, a: Action, id: string)
    requires Inv(s) && Enabled(s, a) && !a.Restart?
    ensures var after := Rec(Do(s, a).data, id);
            after.Some? && after != Rec(s.data, id) ==> a.Act? && a.id == id && Stamps(s, id, a.step, after.value)
  {
    if a.Act? {
      var e := StepEffect(s, a.id, a.step);
      ActData(s, a.id, a.step, e);
      if a.id == id {
        OwnStamps(s, id, a.step, e);
      } else {
        ActShape(s, a.id, a.step, e);
        CallSparesOthers(s.data, e, {}, id);
      }
    } else {
      assert Do(s, a).data.operations == s.data.operations;
    }
  }

  lemma SubmitterStep(s: State, id: string, step: Step, e: Effect)
    requires CanSubmit(s, id, JobOf(s, id), step) && !CanWork(s, id, JobOf(s, id), step)
    requires e == SubmitterEffect(s, id, JobOf(s, id), step) && e.id == id
    ensures Enabled(s, Act(id, step)) && JobOf(Do(s, Act(id, step)), id) == e.job
    ensures Do(s, Act(id, step)).data == NextData(s.data, e.call)
  {
  }

  /** The submission is audited before the operation is queued, or the operation is not queued at all. */
  lemma SubmissionIsAudited(s: State, id: string, io: Io, auditId: string, now: int)
    requires Inv(s) && JobOf(s, id).Created?
    ensures var a := Act(id, AuditSubmission(io, auditId, now));
            && Enabled(s, a)
            && var op, t := JobOf(s, id).op, Do(s, a);
               if Recordable(s.data, io, auditId)
               then JobOf(t, id) == Audited(op) && TellsLast(t.data, op, auditId, op.kind, "submitted", op.summary, now)
               else JobOf(t, id) == AuditRefused(op) && t.data == s.data
  {
    var j := JobOf(s, id);
    SubmitterStep(s, id, AuditSubmission(io, auditId, now), AuditSubmissionStep(s.data, id, j, io, auditId, now));
    AuditAnswers(s.data, j.op, io, auditId, j.op.kind, "submitted", j.op.summary, now);
  }

  /** A submission turned away is audited as failed, if that works. */
  lemma RejectionIsAudited(s: State, id: string, io: Io, auditId: string, now: int)
    requires Inv(s) && JobOf(s, id).Bounced?
    ensures var a := Act(id, AuditFull(io, auditId, now));
            && Enabled(s, a)
            && var op, t := JobOf(s, id).op, Do(s, a);
               && JobOf(t, id) == Gone
               && if Recordable(s.data, io, auditId) then TellsLast(t.data, op, auditId, op.kind, "failed", "queue_full", now)
                  else t.data == s.data
  {
    var j := JobOf(s, id);
    SubmitterStep(s, id, AuditFull(io, auditId, now), AuditFullStep(s.data, id, j, io, auditId, now));
    AuditAnswers(s.data, FailedWith(j.op, "queue_full", now), io, auditId, j.op.kind, "failed", "queue_full", now);
  }

  /** CancelOperation succeeds exactly if the record is still queued and the store works; the record and
      its audit event are committed together. */
  lemma CancellationIsAudited(s: State, read: Operation, io: Io, auditId: string, now: int)
    requires Inv(s) && read in s.copies && read.id != "" && auditId != ""
    ensures var a := Act(read.id, Cancel(read, io, auditId, now));
            && Enabled(s, a)
            && var t := Do(s, a);
               && JobOf(t, read.id) == JobOf(s, read.id)
               && if IsState(Rec(s.data, read.id), Queued) && Recordable(s.data, io, auditId)
                  then && IsState(Rec(t.data, read.id), Canceled) && Stamps(s, read.id, a.step, Rec(t.data, read.id).value)
                       && TellsLast(t.data, read, auditId, "operation.cancel", "succeeded", "kind=" + read.kind, now)
                       && read.id in t.signals
                  else t.data == s.data && t.signals == s.signals
  {
    var id, op := read.id, CanceledAt(read, now);
    var e := CancelStep(s.data, JobOf(s, id), read, io, auditId, now);
    SubmitterStep(s, id, Cancel(read, io, auditId, now), e);
    assert UniqueIds(s.data.operations) by { assert FileOk(s, s.data); }
    LookupIsFind(s.data.operations, id);
    SwapAnswers(s.data, op, CancelEvent(op, auditId, now), io);
    CancelWrites(s.data, op, CancelEvent(op, auditId, now));
  }

  lemma SwapAnswers(d: Data, op: Operation, event: AuditEvent, io: Io)
    requires op.id != "" && event.id != "" && event.operationId == op.id && UniqueIds(d.operations)
    ensures var call := Call(TransitionNext(d, Queued, op, Some(event)), io, Some(op));
            && (Lands(call) <==> IsState(Rec(d, op.id), Queued) && Recordable(d, io, event.id))
            && (Lands(call) ==> var events := NextData(d, call).auditEvents; events != [] && events[|events| - 1] == event)
  {
    LookupIsFind(d.operations, op.id);
  }
}
