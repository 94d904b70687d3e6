/** Finished records are truthful: each of them says what a step of its run made it say. */
module ProtocolOutcome {
  import opened Common
  import opened Records
  import opened StoreSteps
  import opened Protocol
  import opened ProtocolInvariant
  import opened ProtocolSteps
  import opened ProtocolEffects
  import opened ProtocolSafety
  import opened ProtocolTheorems
  import opened ProtocolRecords

  /** How an operation may end: the state and the error code of its record. */
  datatype Ending = Ending(state: OperationState, code: string)

  predicate Ends(op: Operation, x: Ending) { op.state == x.state && op.errorCode == x.code && !InFlight(op) }

  predicate Says(rec: Option<Operation>, x: Ending) { rec.Some? && Ends(rec.value, x) }

  /** The job is about to report or write this ending. */
  predicate Claims(j: Job, x: Ending) { (j.Reporting? || j.Writing?) && Ends(j.op, x) }

  ghost predicate IsSaid(s: State, id: string, x: Ending) {
    Claims(JobOf(s, id), x) || exists d :: d in s.restorable && Says(Rec(d, id), x)
  }

  /** The only ways to an ending: what the job body returned, an outcome that could not be audited, a
      rejected submission, a cancellation, a restart. */
  predicate Earns(s: State, a: Action, id: string, x: Ending) {
    || (a.Restart? && x == Ending(Unknown, "process_restarted"))
    || (a.Act? && a.id == id && match a.step
          case Return(NoError, _) => x.state == Succeeded
          case Return(ContextCanceled, _) =>
            if s.stopped then x == Ending(Unknown, "operation_interrupted")
            else x.state == Failed && (x.code == "workload_operation_failed" || x.code == "helm_operation_failed")
          case Return(OtherError(code), _) => x == Ending(Failed, code)
          case Report(io, auditId, _) => !Recordable(s.data, io, auditId) && x == Ending(Failed, "audit_failed")
          case RejectUnaudited(_, _) => JobOf(s, id).AuditRefused? && x == Ending(Failed, "audit_failed")
          case RejectFull(_, _) => JobOf(s, id).Turned? && x == Ending(Failed, "queue_full")
          case Cancel(_, _, _, _) => x == Ending(Canceled, "")
          case _ => false)
  }

  predicate WritesAs(call: Call, x: Ending) { call.Call? && call.writes.Some? && Ends(call.writes.value, x) }

  lemma SubmitterEarns(s: State, id: string, step: Step, e: Effect, x: Ending)
    requires CanSubmit(s, id, JobOf(s, id), step) && e == SubmitterEffect(s, id, JobOf(s, id), step)
    requires JobOf(s, id).Registered? ==> JobOf(s, id).op.state == Queued
    ensures WritesAs(e.call, x) ==> Earns(s, Act(id, step), id, x)
    ensures Claims(e.job, x) ==> Claims(JobOf(s, id), x)
  {
  }

  lemma WorkerEarns(s: State, id: string, step: Step, e: Effect, x: Ending)
    requires CanWork(s, id, JobOf(s, id), step) && e == WorkerEffect(s, id, JobOf(s, id), step)
    ensures WritesAs(e.call, x) ==> Claims(JobOf(s, id), x)
    ensures Claims(e.job, x) ==> Claims(JobOf(s, id), x) || Earns(s, Act(id, step), id, x)
  {
  }

  lemma StepEarns(s: State, id: string, step: Step, e: Effect, x: Ending)
    requires Inv(s) && Enabled(s, Act(id, step)) && e == StepEffect(s, id, step)
    ensures WritesAs(e.call, x) || Claims(e.job, x) ==> Claims(JobOf(s, id), x) || Earns(s, Act(id, step), id, x)
  {
    StepContext(s, id, step);
    if CanWork(s, id, JobOf(s, id), step) {
      WorkerEarns(s, id, step, e, x);
    } else {
      SubmitterEarns(s, id, step, e, x);
    }
  }

  /** A store call brings an ending into the file only by writing it. */
  lemma CallSaysNothingNew(d: Data, e: Effect, id: string, x: Ending)
    requires CallFits(d, e) && e.call.Call? && e.call.next.Ok? && Says(Rec(e.call.next.value, id), x)
    ensures Says(Rec(d, id), x) || (id == e.id && WritesAs(e.call, x))
  {
  }

  lemma FilesSayNothingNew(s: State, e: Effect, t: State, id: string, x: Ending, d: Data)
    requires s.data in s.restorable && CallFits(s.data, e) && t.restorable == NextRestorable(s.restorable, e.call)
    requires d in t.restorable && Says(Rec(d, id), x)
    ensures (id == e.id && WritesAs(e.call, x)) || exists c :: c in s.restorable && Says(Rec(c, id), x)
  {
    if d !in s.restorable {
      CallSaysNothingNew(s.data, e, id, x);
    }
  }

  lemma EffectSaysNothingNew(s: State, e: Effect, t: State, id: string, x: Ending)
    requires s.data in s.restorable && CallFits(s.data, e) && t == Apply(s, e) && IsSaid(t, id, x) && !IsSaid(s, id, x)
    ensures id == e.id && (Claims(e.job, x) || WritesAs(e.call, x))
  {
    if !Claims(JobOf(t, id), x) {
      var d :| d in t.restorable && Says(Rec(d, id), x);
      FilesSayNothingNew(s, e, t, id, x, d);
    }
  }

  lemma ActSaysNothingNew(s: State, one: string, step: Step, e: Effect, t: State, id: string, x: Ending)
    requires Inv(s) && Enabled(s, Act(one, step)) && e == StepEffect(s, one, step) && t == Apply(s, e)
    requires IsSaid(t, id, x) && !IsSaid(s, id, x)
    ensures Earns(s, Act(one, step), id, x)
  {
    ActShape(s, one, step, e);
    StepEarns(s, one, step, e, x);
    EffectSaysNothingNew(s, e, t, id, x);
  }

  lemma FoundSaysNothingNew(s: State, failed: seq<Reopening>, d: Data, id: string, x: Ending)
    requires FilesOk(s) && CanFail(s.restorable, failed) && d in Files(s.restorable, failed) && Says(Rec(d, id), x)
    ensures IsSaid(s, id, x) || x == Ending(Unknown, "process_restarted")
  {
    FilesAreKept(s);
    var from := FilesDerive(s.restorable, failed, d);
    assert Descends(Rec(from, id), Rec(d, id));
  }

  lemma RestartSaysNothingNew(s: State, failed: seq<Reopening>, found: Data, left: set<Data>, d: Data, now: int, id: string, x: Ending)
    requires FilesOk(s) && OpsOk(s) && CanFail(s.restorable, failed) && found in left && left <= Files(s.restorable, failed)
    requires (d in left || d == Reopened(found, now)) && Says(Rec(d, id), x)
    ensures IsSaid(s, id, x) || x == Ending(Unknown, "process_restarted")
  {
    if d in left {
      FoundSaysNothingNew(s, failed, d, id, x);
    } else {
      assert WellKept(found) by { FilesAreFound(s, failed, found); }
      ReopenedRecord(found, now, id);
      if !InFlight(Rec(found, id).value) {
        FoundSaysNothingNew(s, failed, found, id, x);
      }
    }
  }

  lemma OtherSaysNothingNew(s: State, call: Call, t: State, id: string, x: Ending)
    requires s.data in s.restorable && call.Call? && call.next.Ok? && call.next.value.operations == s.data.operations
    requires t == Committed(s, call) && IsSaid(t, id, x)
    ensures IsSaid(s, id, x)
  {
    assert JobOf(t, id) == JobOf(s, id) && t.restorable == NextRestorable(s.restorable, call);
    assert Rec(call.next.value, id) == Rec(s.data, id);
  }

  lemma StepSaysNothingNew(s: State, a: Action, id: string, x: Ending)
    requires Inv(s) && Enabled(s, a) && IsSaid(Do(s, a), id, x)
    ensures IsSaid(s, id, x) || Earns(s, a, id, x)
  {
    var t := Do(s, a);
    assert !a.Act? && !a.Restart? && !a.Other? ==> t.jobs == s.jobs && t.restorable == s.restorable;
    if IsSaid(s, id, x) {
    } else if a.Act? {
      ActSaysNothingNew(s, a.id, a.step, StepEffect(s, a.id, a.step), t, id, x);
    } else if a.Restart? {
      assert JobOf(t, id) == Gone;
      var d :| d in t.restorable && Says(Rec(d, id), x);
      RebootLeaves(s, a.found, a.left, a.now, d);
      RestartSaysNothingNew(s, a.failed, a.found, a.left, d, a.now, id, x);
    } else if a.Other? {
      OtherSaysNothingNew(s, Call(Ok(OtherNext(s.data, a.clusters, a.repositories, a.audit)), a.io, None), t, id, x);
    }
  }

  /** Some step of the run earns this ending. */
  predicate Earned(s: State, run: seq<Action>, id: string, x: Ending)
    requires IsRun(s, run)
    decreases |run|
  {
    run != [] && (Earns(s, run[0], id, x) || Earned(Do(s, run[0]), run[1..], id, x))
  }

  lemma {:induction false} EndingIsEarned(s: State, run: seq<Action>, id: string, x: Ending)
    requires Inv(s) && IsRun(s, run) && IsSaid(After(s, run), id, x) && !IsSaid(s, id, x)
    ensures Earned(s, run, id, x)
    decreases |run|
  {
    var t := Do(s, run[0]);
    StepKept(s, run[0]);
    if IsSaid(t, id, x) {
      StepSaysNothingNew(s, run[0], id, x);
    } else {
      EndingIsEarned(t, run[1..], id, x);
    }
  }

  lemma InitialSaysNothing(s: State, id: string, x: Ending)
    requires Initial(s)
    ensures !IsSaid(s, id, x)
  {
  }

  /** Over every run, crashes and restarts included: no finished record, and no error code of one, comes
      from anything but these steps of its own operation, or a restart. */
  lemma FinishedMeansEarned(start: State, run: seq<Action>, id: string)
    requires Initial(start) && IsRun(start, run)
    requires Rec(After(start, run).data, id).Some? && !InFlight(Rec(After(start, run).data, id).value)
    ensures var rec := Rec(After(start, run).data, id).value; Earned(start, run, id, Ending(rec.state, rec.errorCode))
  {
    var s := After(start, run);
    var x := Ending(Rec(s.data, id).value.state, Rec(s.data, id).value.errorCode);
    InitialHolds(start);
    EveryRunKeepsInv(start, run);
    assert s.data in s.restorable && Says(Rec(s.data, id), x);
    InitialSaysNothing(start, id, x);
    EndingIsEarned(start, run, id, x);
  }

  predicate ReturnsWell(a: Action, id: string) { a.Act? && a.id == id && a.step.Return? && a.step.error.NoError? }

  lemma {:induction false} SuccessIsReturned(s: State, run: seq<Action>, id: string, x: Ending)
    requires IsRun(s, run) && Earned(s, run, id, x) && x.state == Succeeded
    ensures exists i :: 0 <= i < |run| && ReturnsWell(run[i], id)
    decreases |run|
  {
    if Earns(s, run[0], id, x) {
      assert ReturnsWell(run[0], id);
    } else {
      SuccessIsReturned(Do(s, run[0]), run[1..], id, x);
      var i :| 0 <= i < |run[1..]| && ReturnsWell(run[1..][i], id);
      assert ReturnsWell(run[i + 1], id);
    }
  }

  /** In particular, a stored success was returned by the job body. */
  lemma SucceededMeansReturned(start: State, run: seq<Action>, id: string)
    requires Initial(start) && IsRun(start, run) && IsState(Rec(After(start, run).data, id), Succeeded)
    ensures exists i :: 0 <= i < |run| && ReturnsWell(run[i], id)
  {
    FinishedMeansEarned(start, run, id);
    SuccessIsReturned(start, run, id, Ending(Succeeded, Rec(After(start, run).data, id).value.errorCode));
  }
}
