/** Exactly when an operation is left unfinished with nobody to finish it. */
module ProtocolStranded {
  import opened Common
  import opened Records
  import opened StoreSteps
  import opened Protocol
  import opened ProtocolInvariant
  import opened ProtocolSteps
  import opened ProtocolEffects
  import opened ProtocolSafety
  import opened ProtocolTheorems

  /** Unfinished, and its job will not touch it again. */
  predicate Stranded(s: State, id: string) { Unfinished(Rec(s.data, id)) && Exits(JobOf(s, id)) }

  /** The store refuses or fails the one write that would have taken the job further, or a stop makes
      the worker drop it. */
  predicate Drops(step: Step, stopped: bool) {
    || (step.RejectUnaudited? && !step.io.Works?) || (step.RejectFull? && !step.io.Works?)
    || (step.Claim? && !step.io.Works?) || (step.Write? && !step.io.Works?)
    || (step.Abort? && stopped)
  }

  predicate Strands(s: State, a: Action, id: string) {
    a.Act? && a.id == id && Drops(a.step, s.stopped) && Unfinished(Rec(s.data, id))
  }

  /** A cancellation lands, or a new process closes the record. */
  predicate Rescues(s: State, a: Action, id: string)
    requires Enabled(s, a)
  {
    a.Restart? || CancelSucceeds(s, a, id)
  }

  predicate Unrescued(s: State, run: seq<Action>, id: string)
    requires IsRun(s, run)
    decreases |run|
  {
    run != [] ==> !Rescues(s, run[0], id) && Unrescued(Do(s, run[0]), run[1..], id)
  }

  /** Somewhere in the run the operation is stranded, and nothing rescues it in the rest. */
  predicate GivenUp(s: State, run: seq<Action>, id: string)
    requires IsRun(s, run)
    decreases |run|
  {
    && run != []
    && ((Strands(s, run[0], id) && Unrescued(Do(s, run[0]), run[1..], id)) || GivenUp(Do(s, run[0]), run[1..], id))
  }

  // ---- one step ----

  /** A compare-and-set from queued lands exactly if the record is queued and the store works. */
  lemma SwapLands(d: Data, op: Operation, io: Io)
    requires op.id != "" && UniqueIds(d.operations)
    ensures var call := Call(TransitionNext(d, Queued, op, None), io, Some(op));
            && (Lands(call) <==> IsState(Rec(d, op.id), Queued) && io.Works?)
            && Rec(NextData(d, call), op.id) == if Lands(call) then Some(op) else Rec(d, op.id)
  {
    TransitionWrites(d, op);
  }

  lemma RejectStrands(d: Data, v: View, step: Step, e: Effect, stopped: bool)
    requires (step.RejectUnaudited? && v.job.AuditRefused? && e == RejectUnauditedStep(d, v.id, v.job, step.io, step.now))
             || (step.RejectFull? && v.job.Turned? && e == RejectFullStep(d, v.id, v.job, step.io, step.now))
    requires OpOk(v, stopped) && UniqueIds(d.operations) && v.job.op.id == v.id != "" && v.rec == Rec(d, v.id)
    ensures Unfinished(Rec(NextData(d, e.call), v.id)) && Exits(e.job) <==> Unfinished(v.rec) && Drops(step, stopped)
  {
    var code := if step.RejectFull? then "queue_full" else "audit_failed";
    SwapLands(d, FailedWith(v.job.op, code, step.now), step.io);
    assert !Runs(v.job) && !Exits(v.job);
  }

  lemma CancelStrands(d: Data, v: View, step: Step, e: Effect)
    requires step.Cancel? && step.read.id == v.id && e == CancelStep(d, v.job, step.read, step.io, step.auditId, step.now)
    requires UniqueIds(d.operations) && v.rec == Rec(d, v.id)
    ensures Unfinished(Rec(NextData(d, e.call), v.id)) && Exits(e.job) <==> Unfinished(v.rec) && Exits(v.job) && !Lands(e.call)
  {
    var op := CanceledAt(step.read, step.now);
    CancelWrites(d, op, CancelEvent(op, step.auditId, step.now));
  }

  lemma CreateStrands(d: Data, v: View, e: Effect, io: Io)
    requires v.job.Registered? && e == CreateStep(d, v.id, v.job, io) && RecordOk(v) && PhaseOk(v)
    requires UniqueIds(d.operations) && v.job.op.id == v.id && v.rec == Rec(d, v.id)
    ensures !(Unfinished(Rec(NextData(d, e.call), v.id)) && Exits(e.job)) && !Exits(v.job)
  {
    CreateWrites(d, v.job.op);
  }

  /** The submitter's steps that write no record. */
  lemma SubmitterExits(s: State, id: string, j: Job, step: Step, e: Effect)
    requires CanSubmit(s, id, j, step) && e == SubmitterEffect(s, id, j, step)
    requires !step.Create? && !step.RejectUnaudited? && !step.RejectFull? && !step.Cancel?
    ensures Rec(NextData(s.data, e.call), id) == Rec(s.data, id) && !Drops(step, s.stopped)
    ensures step.Submit? || j.Bounced? || (Exits(e.job) <==> Exits(j))
  {
  }

  lemma SubmitterStrands(s: State, id: string, v: View, step: Step, e: Effect, after: Option<Operation>)
    requires CanSubmit(s, id, v.job, step) && e == SubmitterEffect(s, id, v.job, step) && v.id == id && v.rec == Rec(s.data, id)
    requires OpOk(v, s.stopped) && UniqueIds(s.data.operations) && (HasOp(v.job) ==> v.job.op.id == id != "")
    requires (v.source.Some? <==> id in s.origin) && after == Rec(NextData(s.data, e.call), id)
    ensures Unfinished(after) && Exits(e.job)
            <==> Unfinished(v.rec) && (Drops(step, s.stopped) || (Exits(v.job) && !(step.Cancel? && Lands(e.call))))
  {
    if step.Create? {
      CreateStrands(s.data, v, e, step.io);
    } else if step.RejectUnaudited? || step.RejectFull? {
      RejectStrands(s.data, v, step, e, s.stopped);
    } else if step.Cancel? {
      CancelStrands(s.data, v, step, e);
    } else {
      SubmitterExits(s, id, v.job, step, e);
    }
  }

  lemma ClaimStrands(d: Data, v: View, e: Effect, io: Io, now: int, stopped: bool)
    requires v.job.Admitted? && e == ClaimStep(d, v.id, v.job, io, now) && LiveOk(v, stopped)
    requires UniqueIds(d.operations) && v.job.op.id == v.id != "" && v.rec == Rec(d, v.id)
    ensures Unfinished(Rec(NextData(d, e.call), v.id)) && Exits(e.job) <==> Unfinished(v.rec) && !io.Works?
  {
    SwapLands(d, StartedAt(v.job.op, now), io);
  }

  lemma WriteStrands(d: Data, v: View, e: Effect, io: Io)
    requires v.job.Writing? && e == WriteStep(d, v.id, v.job, io) && PhaseOk(v)
    requires UniqueIds(d.operations) && v.job.op.id == v.id && v.rec == Rec(d, v.id)
    ensures Unfinished(Rec(NextData(d, e.call), v.id)) && Exits(e.job) <==> Unfinished(v.rec) && !io.Works?
  {
    UpdateWrites(d, v.job.op);
  }

  /** The worker's steps that write no record. */
  lemma WorkerExits(s: State, id: string, j: Job, step: Step, e: Effect)
    requires CanWork(s, id, j, step) && e == WorkerEffect(s, id, j, step) && !step.Claim? && !step.Write?
    requires step.Dequeue? ==> j.InQueue?
    ensures Rec(NextData(s.data, e.call), id) == Rec(s.data, id)
    ensures if step.Abort? then Interruptible(j) && Exits(e.job)
            else if step.Load? then !Exits(j) && (Exits(e.job) <==> !IsState(Rec(s.data, id), Queued))
            else Exits(e.job) <==> Exits(j)
  {
  }

  lemma WorkerStrands(s: State, id: string, v: View, step: Step, e: Effect, after: Option<Operation>)
    requires CanWork(s, id, v.job, step) && e == WorkerEffect(s, id, v.job, step) && v.id == id && v.rec == Rec(s.data, id)
    requires OpOk(v, s.stopped) && UniqueIds(s.data.operations) && (HasOp(v.job) ==> v.job.op.id == id != "")
    requires (step.Dequeue? ==> v.job.InQueue?) && (step.Abort? ==> s.stopped || v.canceled) && after == Rec(NextData(s.data, e.call), id)
    ensures Unfinished(after) && Exits(e.job) <==> Unfinished(v.rec) && (Drops(step, s.stopped) || Exits(v.job))
  {
    if step.Claim? {
      ClaimStrands(s.data, v, e, step.io, step.now, s.stopped);
    } else if step.Write? {
      WriteStrands(s.data, v, e, step.io);
    } else {
      WorkerExits(s, id, v.job, step, e);
    }
  }

  lemma ActStrands(s: State, one: string, step: Step, e: Effect, t: State, id: string)
    requires Inv(s) && Enabled(s, Act(one, step)) && e == StepEffect(s, one, step) && t == Apply(s, e)
    ensures Stranded(t, id)
            <==> Strands(s, Act(one, step), id) || (Stranded(s, id) && !(one == id && step.Cancel? && Lands(e.call)))
  {
    ActShape(s, one, step, e);
    assert t.data == NextData(s.data, e.call) && JobOf(t, id) == if one == id then e.job else JobOf(s, id);
    if id != one {
      CallSparesOthers(s.data, e, {}, id);
    } else {
      OwnStrands(s, id, step, e);
    }
  }

  lemma OwnStrands(s: State, id: string, step: Step, e: Effect)
    requires Inv(s) && Enabled(s, Act(id, step)) && e == StepEffect(s, id, step)
    ensures var v, after := ViewOf(s, id), Rec(NextData(s.data, e.call), id);
            Unfinished(after) && Exits(e.job)
            <==> Unfinished(v.rec) && (Drops(step, s.stopped) || (Exits(v.job) && !(step.Cancel? && Lands(e.call))))
  {
    var v := ViewOf(s, id);
    StepContext(s, id, step);
    if CanWork(s, id, v.job, step) {
      WorkerStrands(s, id, v, step, e, Rec(NextData(s.data, e.call), id));
    } else {
      SubmitterStrands(s, id, v, step, e, Rec(NextData(s.data, e.call), id));
    }
  }

  lemma StepStrands(s: State, a: Action, id: string)
    requires Inv(s) && Enabled(s, a)
    ensures Stranded(Do(s, a), id) <==> Strands(s, a, id) || (Stranded(s, id) && !Rescues(s, a, id))
  {
    var t := Do(s, a);
    if a.Act? {
      ActStrands(s, a.id, a.step, StepEffect(s, a.id, a.step), t, id);
    } else if a.Restart? {
      FilesAreFound(s, a.failed, a.found);
      ReopenedRecord(a.found, a.now, id);
      assert t.data == Reopened(a.found, a.now);
    } else {
      assert t.jobs == s.jobs && Rec(t.data, id) == Rec(s.data, id);
    }
  }

  // ---- every run ----

  lemma {:induction false} RunStrands(s: State, run: seq<Action>, id: string)
    requires Inv(s) && IsRun(s, run)
    ensures Stranded(After(s, run), id) <==> GivenUp(s, run, id) || (Stranded(s, id) && Unrescued(s, run, id))
    decreases |run|
  {
    if run != [] {
      StepStrands(s, run[0], id);
      StepKept(s, run[0]);
      RunStrands(Do(s, run[0]), run[1..], id);
    }
  }

  /** Once its job is gone, an operation is unfinished if and only if the write that would have taken
      it further was refused or failed, or a stopped service dropped it, and neither a cancellation nor
      a restart came after. */
  lemma UnfinishedIffGivenUp(start: State, run: seq<Action>, id: string)
    requires Initial(start) && IsRun(start, run) && JobOf(After(start, run), id).Gone?
    ensures Unfinished(Rec(After(start, run).data, id)) <==> GivenUp(start, run, id)
  {
    InitialHolds(start);
    RunStrands(start, run, id);
    assert !Stranded(start, id);
  }
}
