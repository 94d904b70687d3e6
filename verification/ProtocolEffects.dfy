/** Step by step: each effect fits what the invariant demands of it. */
module ProtocolEffects {
  import opened Common
  import opened Records
  import opened StoreSteps
  import opened Governing
  import opened Protocol
  import opened ProtocolInvariant
  import opened ProtocolSteps

  // ---- how a step changes what is known about its operation ----

  /** The audit events known of an operation: those known before, and those of a state that lands. */
  predicate MarksFollow(v: View, u: View, e: Effect) {
    && (e.source.None? ==> (v.submitted ==> u.submitted) && (v.succeeded ==> u.succeeded)) && (v.cancelMark ==> u.cancelMark)
    && (Lands(e.call) ==>
          var marks := Marks(e.call.next.value.auditEvents);
          && (u.source.Some? && Mark(u.id, u.source.value.kind, "submitted") in marks ==> u.submitted)
          && (u.source.Some? && Mark(u.id, u.source.value.kind, "succeeded") in marks ==> u.succeeded)
          && (Mark(u.id, CANCEL, "succeeded") in marks ==> u.cancelMark))
  }

  /** `u` is what `v` becomes by a step with effect `e` on the stored state `d`. */
  predicate Follows(v: View, u: View, d: Data, e: Effect) {
    && u.id == v.id == e.id && u.job == e.job && v.rec == Rec(d, v.id)
    && u.rec == Rec(if Lands(e.call) then e.call.next.value else d, v.id)
    && u.source == (if e.source.Some? then e.source else v.source)
    && u.finished == (v.finished || Finishes(e.call))
    && MarksFollow(v, u, e)
    && u.began == (v.began || e.begins) && u.withdrawn == (v.withdrawn || e.withdraws)
    && u.canceled == (v.canceled || e.control.Drop?)
    && u.control == (e.control.Register? || (v.control && !e.control.Drop?))
  }

  predicate Finishes(call: Call) { Lands(call) && call.writes.Some? && !InFlight(call.writes.value) }

  predicate CallFollows(s: State, e: Effect, t: State) {
    && Rec(t.data, e.id) == Rec(if Lands(e.call) then e.call.next.value else s.data, e.id)
    && (e.id in t.finished <==> e.id in s.finished || Finishes(e.call))
    && s.marks <= t.marks && (Lands(e.call) ==> Marks(e.call.next.value.auditEvents) <= t.marks)
    && t.stopped == s.stopped && t.unsynced == (s.unsynced && !Lands(e.call))
  }

  predicate HistoryFollows(s: State, e: Effect, t: State) {
    && JobOf(t, e.id) == e.job
    && t.origin == (if e.source.Some? then s.origin[e.id := e.source.value] else s.origin)
    && (e.id in t.began <==> e.id in s.began || e.begins)
    && (e.id in t.withdrawn <==> e.id in s.withdrawn || e.withdraws)
    && (e.id in t.canceled <==> e.id in s.canceled || e.control.Drop?)
    && (e.id in t.controls <==> e.control.Register? || (e.id in s.controls && !e.control.Drop?))
  }

  lemma StepResult(s: State, e: Effect, t: State)
    requires t == Apply(s, e) && CallFits(s.data, e)
    ensures CallFollows(s, e, t) && HistoryFollows(s, e, t)
  {
  }

  lemma StepFollows(s: State, e: Effect, t: State)
    requires CallFollows(s, e, t) && HistoryFollows(s, e, t)
    ensures Follows(ViewOf(s, e.id), ViewOf(t, e.id), s.data, e)
  {
  }

  // ---- every step has a fitting shape ----

  ghost predicate Shape(f: Striping, d: Data, j: Job, e: Effect) {
    LockFits(f, j, e) && SlotFits(j, e) && QueueFits(j, e) && SourceFits(j, e) && CallFits(d, e)
  }

  // ---- every step keeps what is known about its operation ----

  predicate Fits(v: View, u: View, e: Effect, stopped: bool) {
    FileFits(u, e) && OpOk(u, stopped) && (e.begins ==> !v.began)
  }

  /** What a step may rely on: the operation it is about, and no two records with one ID. */
  ghost predicate Ready(d: Data, v: View, u: View, e: Effect, stopped: bool) {
    OpOk(v, stopped) && UniqueIds(d.operations) && Follows(v, u, d, e)
  }

  lemma CreateFits(d: Data, v: View, u: View, e: Effect, stopped: bool, io: Io)
    requires v.job.Registered? && e == CreateStep(d, v.id, v.job, io) && Ready(d, v, u, e, stopped)
    ensures Fits(v, u, e, stopped)
  {
    CreateWrites(d, v.job.op);
  }

  lemma AuditSubmissionFits(d: Data, v: View, u: View, e: Effect, stopped: bool, io: Io, auditId: string, now: int)
    requires v.job.Created? && e == AuditSubmissionStep(d, v.id, v.job, io, auditId, now) && Ready(d, v, u, e, stopped)
    ensures Fits(v, u, e, stopped)
  {
    AppendedMark(d, OperationEvent(v.job.op, auditId, v.job.op.kind, "submitted", v.job.op.summary, now));
    SubmitterMoves(v, u, stopped);
  }

  /** The submitter goes on without writing a record. */
  lemma SubmitterMoves(v: View, u: View, stopped: bool)
    requires OpOk(v, stopped) && Later(v, u.(job := v.job)) && HasOp(u.job) && HasOp(v.job)
    requires v.job.Created? && ((u.job == Audited(v.job.op) && u.submitted) || u.job == AuditRefused(v.job.op))
    ensures OpOk(u, stopped)
  {
  }

  predicate GivesUp(j: Job, next: Job) {
    || (j.AuditRefused? && next == Rejected(j.op))
    || (j.Turned? && (next == Bounced(j.op) || next == Gone))
  }

  /** The submitter gives up and fails the record, which is still queued. */
  lemma RejectedRecord(v: View, u: View, op: Operation, stopped: bool)
    requires OpOk(v, stopped) && GivesUp(v.job, u.job) && op.state == Failed && Identified(v, op) && IsState(v.rec, Queued)
    requires Later(v, u.(job := v.job, rec := v.rec, finished := v.finished)) && u.rec == Some(op) && u.finished
    ensures OpOk(u, stopped)
  {
  }

  /** The submitter gives up on a record that it cannot fail. */
  lemma RejectedAnyway(v: View, u: View, stopped: bool)
    requires OpOk(v, stopped) && GivesUp(v.job, u.job) && !u.job.Bounced? && Later(v, u.(job := v.job))
    ensures OpOk(u, stopped)
  {
  }

  lemma RejectUnauditedFits(d: Data, v: View, u: View, e: Effect, stopped: bool, io: Io, now: int)
    requires v.job.AuditRefused? && e == RejectUnauditedStep(d, v.id, v.job, io, now) && Ready(d, v, u, e, stopped)
    ensures Fits(v, u, e, stopped)
  {
    var op := FailedWith(v.job.op, "audit_failed", now);
    TransitionWrites(d, op);
    if Lands(e.call) {
      RejectedRecord(v, u, op, stopped);
    } else {
      RejectedAnyway(v, u, stopped);
      if e.call.next.Ok? {
        BrokenWriteFits(v, u, op, CancelMarkIn(e.call.next.value, v.id));
      }
    }
  }

  lemma RejectFullFits(d: Data, v: View, u: View, e: Effect, stopped: bool, io: Io, now: int)
    requires v.job.Turned? && e == RejectFullStep(d, v.id, v.job, io, now) && Ready(d, v, u, e, stopped)
    ensures Fits(v, u, e, stopped)
  {
    var op := FailedWith(v.job.op, "queue_full", now);
    TransitionWrites(d, op);
    if Lands(e.call) {
      RejectedRecord(v, u, op, stopped);
    } else {
      RejectedAnyway(v, u, stopped);
      if e.call.next.Ok? {
        BrokenWriteFits(v, u, op, CancelMarkIn(e.call.next.value, v.id));
      }
    }
  }

  lemma AuditFullFits(d: Data, v: View, u: View, e: Effect, stopped: bool, io: Io, auditId: string, now: int)
    requires v.job.Bounced? && e == AuditFullStep(d, v.id, v.job, io, auditId, now) && Ready(d, v, u, e, stopped)
    ensures Fits(v, u, e, stopped)
  {
  }

  /** The record turns canceled under a job that has not started. */
  lemma WithdrawnFits(v: View, u: View, op: Operation, stopped: bool)
    requires OpOk(v, stopped) && IsState(v.rec, Queued) && op.state == Canceled && Identified(v, op)
    requires u == v.(rec := Some(op), finished := true, withdrawn := true, cancelMark := true, submitted := u.submitted, succeeded := u.succeeded)
    requires (v.submitted ==> u.submitted) && (v.succeeded ==> u.succeeded)
    ensures OpOk(u, stopped)
  {
  }

  /** A queued record may be found, after a crash, with any record that a failed write left in the file. */
  lemma BrokenWriteFits(v: View, u: View, op: Operation, cancelMark: bool)
    requires RecordOk(v) && IsState(v.rec, Queued) && Identified(v, op) && !u.job.Registered?
    requires u.rec == v.rec && u.finished == v.finished && u.source == v.source && (op.state == Running ==> u.submitted)
    requires op.state == Failed || op.state == Running || (op.state == Canceled && cancelMark)
    ensures RestorableOk(u, Some(op), cancelMark, false)
  {
  }

  lemma CancelFits(d: Data, v: View, u: View, e: Effect, stopped: bool, read: Operation, io: Io, auditId: string, now: int)
    requires e == CancelStep(d, v.job, read, io, auditId, now) && read.id == v.id && Identified(v, read)
    requires Ready(d, v, u, e, stopped)
    ensures Fits(v, u, e, stopped)
  {
    var op := CanceledAt(read, now);
    CancelWrites(d, op, CancelEvent(op, auditId, now));
    if Lands(e.call) {
      WithdrawnFits(v, u, op, stopped);
    } else {
      OpStays(v, u, stopped, stopped);
      if e.call.next.Ok? {
        BrokenWriteFits(v, u, op, CancelMarkIn(e.call.next.value, v.id));
      }
    }
  }

  lemma Claimed(v: View, u: View, op: Operation, stopped: bool)
    requires OpOk(v, stopped) && v.job.Admitted? && IsState(v.rec, Queued)
    requires op == v.job.op.(state := Running, startedAt := op.startedAt, updatedAt := op.updatedAt)
    requires Later(v, u.(job := v.job, rec := v.rec, began := v.began)) && u.job == Executing(v.job.w, op) && u.rec == Some(op) && u.began
    ensures OpOk(u, stopped) && !v.began
  {
  }

  lemma ClaimMissed(v: View, u: View, stopped: bool)
    requires OpOk(v, stopped) && v.job.Admitted? && Later(v, u.(job := v.job)) && u.job == FreeingSlot(v.job.w, v.job.op)
    ensures OpOk(u, stopped)
  {
  }

  lemma ClaimFits(d: Data, v: View, u: View, e: Effect, stopped: bool, io: Io, now: int)
    requires v.job.Admitted? && e == ClaimStep(d, v.id, v.job, io, now) && Ready(d, v, u, e, stopped)
    ensures Fits(v, u, e, stopped)
  {
    var op := StartedAt(v.job.op, now);
    TransitionWrites(d, op);
    if Lands(e.call) {
      Claimed(v, u, op, stopped);
    } else {
      ClaimMissed(v, u, stopped);
      if e.call.next.Ok? {
        BrokenWriteFits(v, u, op, CancelMarkIn(e.call.next.value, v.id));
      }
    }
  }

  lemma ReportFits(d: Data, v: View, u: View, e: Effect, stopped: bool, io: Io, auditId: string, now: int)
    requires v.job.Reporting? && e == ReportStep(d, v.id, v.job, io, auditId, now) && Ready(d, v, u, e, stopped)
    ensures Fits(v, u, e, stopped)
  {
    AppendedMark(d, OperationEvent(v.job.op, auditId, v.job.op.kind, v.job.result, v.job.op.errorCode, now));
  }

  lemma WriteFits(d: Data, v: View, u: View, e: Effect, stopped: bool, io: Io)
    requires v.job.Writing? && e == WriteStep(d, v.id, v.job, io) && Ready(d, v, u, e, stopped)
    ensures Fits(v, u, e, stopped)
  {
    UpdateWrites(d, v.job.op);
  }

  // ---- the steps that call no store ----

  lemma SubmitFits(d: Data, v: View, u: View, e: Effect, stopped: bool, op: Operation)
    requires v.source.None? && op.id == v.id != "" && op.state == Queued && e == SubmitStep(op) && Ready(d, v, u, e, stopped)
    ensures Fits(v, u, e, stopped)
  {
  }

  lemma ReleaseRejectedFits(d: Data, v: View, u: View, e: Effect, stopped: bool)
    requires v.job.Rejected? && e == ReleaseRejectedStep(v.id) && Ready(d, v, u, e, stopped)
    ensures Fits(v, u, e, stopped)
  {
  }

  lemma EnqueueFits(d: Data, v: View, u: View, e: Effect, stopped: bool, full: bool)
    requires v.job.Audited? && e == EnqueueStep(v.id, v.job, full) && Ready(d, v, u, e, stopped)
    ensures Fits(v, u, e, stopped)
  {
  }

  lemma ReleaseFullFits(d: Data, v: View, u: View, e: Effect, stopped: bool)
    requires v.job.Full? && e == ReleaseFullStep(v.id, v.job) && Ready(d, v, u, e, stopped)
    ensures Fits(v, u, e, stopped)
  {
  }

  lemma DequeueFits(d: Data, v: View, u: View, e: Effect, stopped: bool, w: nat)
    requires v.job.InQueue? && e == DequeueStep(v.id, w) && Ready(d, v, u, e, stopped)
    ensures Fits(v, u, e, stopped)
  {
  }

  lemma LoadFits(d: Data, v: View, u: View, e: Effect, stopped: bool)
    requires v.job.Dequeued? && e == LoadStep(d, v.id, v.job) && Ready(d, v, u, e, stopped)
    ensures Fits(v, u, e, stopped)
  {
  }

  lemma TakeStripeFits(d: Data, v: View, u: View, e: Effect, stopped: bool, stripe: nat)
    requires v.job.Waiting? && e == TakeStripeStep(v.id, v.job, stripe) && Ready(d, v, u, e, stopped)
    ensures Fits(v, u, e, stopped)
  {
  }

  lemma TakeSlotFits(d: Data, v: View, u: View, e: Effect, stopped: bool)
    requires v.job.Holding? && e == TakeSlotStep(v.id, v.job) && Ready(d, v, u, e, stopped)
    ensures Fits(v, u, e, stopped)
  {
  }

  lemma AbortFits(d: Data, v: View, u: View, e: Effect, stopped: bool)
    requires Interruptible(v.job) && e == AbortStep(v.id, v.job) && Ready(d, v, u, e, stopped)
    ensures Fits(v, u, e, stopped)
  {
  }

  lemma ReturnFits(d: Data, v: View, u: View, e: Effect, stopped: bool, error: JobError, now: int)
    requires v.job.Executing? && e == ReturnStep(v.id, v.job, error, stopped, now) && Ready(d, v, u, e, stopped)
    ensures Fits(v, u, e, stopped)
  {
  }

  lemma FreeSlotFits(d: Data, v: View, u: View, e: Effect, stopped: bool)
    requires v.job.FreeingSlot? && e == FreeSlotStep(v.id, v.job) && Ready(d, v, u, e, stopped)
    ensures Fits(v, u, e, stopped)
  {
  }

  lemma FreeStripeFits(d: Data, v: View, u: View, e: Effect, stopped: bool, stripe: nat)
    requires v.job.FreeingStripe? && e == FreeStripeStep(v.id, v.job, stripe) && Ready(d, v, u, e, stopped)
    ensures Fits(v, u, e, stopped)
  {
  }

  lemma FinishFits(d: Data, v: View, u: View, e: Effect, stopped: bool)
    requires v.job.Finishing? && e == FinishStep(v.id, v.job) && Ready(d, v, u, e, stopped)
    ensures Fits(v, u, e, stopped)
  {
  }

  // ---- the shape of every step ----

  lemma SubmitterCalls(d: Data, s: State, id: string, j: Job, step: Step, e: Effect)
    requires CanSubmit(s, id, j, step) && e == SubmitterEffect(s, id, j, step) && d == s.data && UniqueIds(d.operations)
    requires HasOp(j) ==> j.op.id == id != ""
    requires j.Registered? ==> j.op.state == Queued
    ensures CallFits(d, e) && e.id == id
  {
    match step
    case Create(io) => CreateWrites(d, j.op);
    case RejectUnaudited(io, now) => TransitionWrites(d, FailedWith(j.op, "audit_failed", now));
    case RejectFull(io, now) => TransitionWrites(d, FailedWith(j.op, "queue_full", now));
    case Cancel(read, io, auditId, now) =>
      var op := CanceledAt(read, now);
      CancelWrites(d, op, CancelEvent(op, auditId, now));
    case _ =>
  }

  lemma SubmitterHolds(f: Striping, j: Job, e: Effect)
    requires e.lock.SameLocks? && e.slot.SameSlots? && (e.job == j || WorkerOf(e.job) == WorkerOf(j) == None)
    ensures LockFits(f, j, e) && SlotFits(j, e)
  {
  }

  lemma SubmitterQueues(s: State, id: string, j: Job, step: Step, e: Effect)
    requires CanSubmit(s, id, j, step) && e == SubmitterEffect(s, id, j, step) && (id !in s.origin ==> j.Gone?)
    ensures QueueFits(j, e) && SourceFits(j, e) && HasRoom(s, e)
    ensures e.lock.SameLocks? && e.slot.SameSlots? && (e.job == j || WorkerOf(e.job) == WorkerOf(j) == None)
  {
  }

  lemma WorkerCalls(d: Data, s: State, id: string, j: Job, step: Step, e: Effect)
    requires CanWork(s, id, j, step) && e == WorkerEffect(s, id, j, step) && d == s.data && UniqueIds(d.operations)
    requires HasOp(j) ==> j.op.id == id != ""
    ensures CallFits(d, e) && e.id == id
  {
    match step
    case Claim(io, now) => TransitionWrites(d, StartedAt(j.op, now));
    case Write(io) => UpdateWrites(d, j.op);
    case _ =>
  }

  lemma WorkerHolds(f: Striping, s: State, id: string, j: Job, step: Step, e: Effect)
    requires CanWork(s, id, j, step) && e == WorkerEffect(s, id, j, step)
    requires f == s.striping && (step.Dequeue? ==> j.InQueue?)
    ensures LockFits(f, j, e) && SlotFits(j, e)
  {
  }

  lemma WorkerQueues(s: State, id: string, j: Job, step: Step, e: Effect)
    requires CanWork(s, id, j, step) && e == WorkerEffect(s, id, j, step)
    requires step.Dequeue? ==> j.InQueue?
    ensures QueueFits(j, e)
  {
  }

  lemma WorkerSources(s: State, id: string, j: Job, step: Step, e: Effect)
    requires CanWork(s, id, j, step) && e == WorkerEffect(s, id, j, step)
    requires step.Dequeue? ==> j.InQueue?
    ensures SourceFits(j, e)
  {
    assert !j.Gone? && !e.job.Registered?;
  }

  lemma WorkerHasRoom(s: State, id: string, j: Job, step: Step, e: Effect)
    requires CanWork(s, id, j, step) && e == WorkerEffect(s, id, j, step) && ValidConfig(s.governor)
    ensures HasRoom(s, e)
  {
    if step.TakeSlot? {
      LimitBounds(s.governor, step.sample);
    }
  }

  // ---- dispatch ----

  lemma SubmitterFits(s: State, id: string, v: View, u: View, step: Step, e: Effect)
    requires CanSubmit(s, id, v.job, step) && e == SubmitterEffect(s, id, v.job, step) && v.id == id
    requires (v.source.Some? <==> id in s.origin) && (step.Cancel? ==> Identified(v, step.read))
    requires Ready(s.data, v, u, e, s.stopped)
    ensures Fits(v, u, e, s.stopped)
  {
    var d, stopped := s.data, s.stopped;
    match step
    case Submit(op) => SubmitFits(d, v, u, e, stopped, op);
    case Create(io) => CreateFits(d, v, u, e, stopped, io);
    case AuditSubmission(io, auditId, now) => AuditSubmissionFits(d, v, u, e, stopped, io, auditId, now);
    case RejectUnaudited(io, now) => RejectUnauditedFits(d, v, u, e, stopped, io, now);
    case ReleaseRejected => ReleaseRejectedFits(d, v, u, e, stopped);
    case Enqueue => EnqueueFits(d, v, u, e, stopped, |s.queue| >= s.queueCap);
    case ReleaseFull => ReleaseFullFits(d, v, u, e, stopped);
    case RejectFull(io, now) => RejectFullFits(d, v, u, e, stopped, io, now);
    case AuditFull(io, auditId, now) => AuditFullFits(d, v, u, e, stopped, io, auditId, now);
    case Cancel(read, io, auditId, now) => CancelFits(d, v, u, e, stopped, read, io, auditId, now);
  }

  lemma WorkerFits(s: State, id: string, v: View, u: View, step: Step, e: Effect)
    requires CanWork(s, id, v.job, step) && e == WorkerEffect(s, id, v.job, step) && v.id == id
    requires step.Dequeue? ==> v.job.InQueue?
    requires Ready(s.data, v, u, e, s.stopped)
    ensures Fits(v, u, e, s.stopped)
  {
    var d, stopped := s.data, s.stopped;
    match step
    case Dequeue(w) => DequeueFits(d, v, u, e, stopped, w);
    case Load => LoadFits(d, v, u, e, stopped);
    case TakeStripe => TakeStripeFits(d, v, u, e, stopped, StripeOf(s.striping, v.job.op));
    case TakeSlot(_) => TakeSlotFits(d, v, u, e, stopped);
    case Abort => AbortFits(d, v, u, e, stopped);
    case Claim(io, now) => ClaimFits(d, v, u, e, stopped, io, now);
    case Return(error, now) => ReturnFits(d, v, u, e, stopped, error, now);
    case Report(io, auditId, now) => ReportFits(d, v, u, e, stopped, io, auditId, now);
    case Write(io) => WriteFits(d, v, u, e, stopped, io);
    case FreeSlot => FreeSlotFits(d, v, u, e, stopped);
    case FreeStripe => FreeStripeFits(d, v, u, e, stopped, StripeOf(s.striping, v.job.op));
    case Finish => FinishFits(d, v, u, e, stopped);
  }
}
