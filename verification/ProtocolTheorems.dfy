/** What the protocol promises, over every run of submitters, cancellers, workers, API calls,
    failing writes, stops, crashes and restarts. */
module ProtocolTheorems {
  import opened Common
  import opened Records
  import opened Retention
  import opened StoreSteps
  import opened Governing
  import opened Protocol
  import opened ProtocolInvariant
  import opened ProtocolSteps
  import opened ProtocolEffects
  import opened ProtocolSafety

  // ---- how a record moves in one step ----

  /** From `before` to `after`: an unfinished record stays or takes an edge; a finished one stays or
      is dropped by retention; a new one is queued. What a move means was audited before it, and a
      cancellation is audited in the very state that holds it. */
  predicate Moves(v: View, after: Option<Operation>, next: Data) {
    && (Unfinished(v.rec) ==> after.Some? && (after.value.state == v.rec.value.state || Edge(v.rec.value.state, after.value.state)))
    && (v.rec.Some? && !Unfinished(v.rec) ==> after == v.rec || after == None)
    && (v.rec.None? && after.Some? ==> after.value.state == Queued)
    && (IsState(after, Running) && !IsState(v.rec, Running) ==> v.submitted)
    && (IsState(after, Succeeded) && !IsState(v.rec, Succeeded) ==> v.succeeded)
    && (IsState(after, Canceled) && !IsState(v.rec, Canceled) ==> CancelMarkIn(next, v.id))
  }

  lemma CancelMovesRecord(d: Data, v: View, read: Operation, io: Io, auditId: string, now: int)
    requires read.id == v.id && v.rec == Rec(d, v.id) && UniqueIds(d.operations)
    ensures var next := NextData(d, CancelStep(d, v.job, read, io, auditId, now).call); Moves(v, Rec(next, v.id), next)
  {
    var op := CanceledAt(read, now);
    CancelWrites(d, op, CancelEvent(op, auditId, now));
  }

  lemma FailureMovesRecord(d: Data, v: View, op: Operation, io: Io)
    requires op.id == v.id != "" && op.state == Failed && v.rec == Rec(d, v.id) && UniqueIds(d.operations)
    ensures var next := NextData(d, Call(TransitionNext(d, Queued, op, None), io, Some(op))); Moves(v, Rec(next, v.id), next)
  {
    TransitionWrites(d, op);
  }

  lemma CreationMovesRecord(d: Data, v: View, op: Operation, io: Io)
    requires op.id == v.id && op.state == Queued && v.rec == Rec(d, v.id) && UniqueIds(d.operations)
    ensures var next := NextData(d, Call(CreateNext(d, op), io, Some(op))); Moves(v, Rec(next, v.id), next)
  {
    CreateWrites(d, op);
  }

  /** The record of the operation a step is about. */
  lemma SubmitterMovesRecord(s: State, id: string, v: View, step: Step, e: Effect)
    requires CanSubmit(s, id, v.job, step) && e == SubmitterEffect(s, id, v.job, step) && v.id == id && v.rec == Rec(s.data, id)
    requires (HasOp(v.job) ==> v.job.op.id == id != "") && (v.job.Registered? ==> v.job.op.state == Queued)
    requires UniqueIds(s.data.operations)
    ensures Moves(v, Rec(NextData(s.data, e.call), id), NextData(s.data, e.call))
  {
    if step.Create? {
      CreationMovesRecord(s.data, v, v.job.op, step.io);
    } else if step.RejectUnaudited? {
      FailureMovesRecord(s.data, v, FailedWith(v.job.op, "audit_failed", step.now), step.io);
    } else if step.RejectFull? {
      FailureMovesRecord(s.data, v, FailedWith(v.job.op, "queue_full", step.now), step.io);
    } else if step.Cancel? {
      CancelMovesRecord(s.data, v, step.read, step.io, step.auditId, step.now);
    } else {
      assert Rec(NextData(s.data, e.call), id) == v.rec;
    }
  }

  lemma WorkerMovesRecord(s: State, id: string, v: View, step: Step, e: Effect)
    requires CanWork(s, id, v.job, step) && e == WorkerEffect(s, id, v.job, step) && v.id == id && v.rec == Rec(s.data, id)
    requires (HasOp(v.job) ==> v.job.op.id == id != "") && PhaseOk(v) && AuditOk(v) && UniqueIds(s.data.operations)
    ensures Moves(v, Rec(NextData(s.data, e.call), id), NextData(s.data, e.call))
  {
    if step.Claim? {
      TransitionWrites(s.data, StartedAt(v.job.op, step.now));
    } else if step.Write? {
      UpdateWrites(s.data, v.job.op);
    } else {
      assert Rec(NextData(s.data, e.call), id) == v.rec;
    }
  }

  /** Another operation's record at most falls to retention. */
  lemma OthersMove(d: Data, e: Effect, v: View)
    requires CallFits(d, e) && v.id != e.id && v.rec == Rec(d, v.id)
    ensures Moves(v, Rec(NextData(d, e.call), v.id), NextData(d, e.call))
  {
    CallSparesOthers(d, e, {}, v.id);
  }

  lemma ActMovesRecord(s: State, one: string, step: Step, e: Effect, id: string)
    requires Inv(s) && Enabled(s, Act(one, step)) && e == StepEffect(s, one, step)
    ensures Moves(ViewOf(s, id), Rec(NextData(s.data, e.call), id), NextData(s.data, e.call))
  {
    var v := ViewOf(s, id);
    ActShape(s, one, step, e);
    if id != one {
      OthersMove(s.data, e, v);
    } else {
      StepContext(s, id, step);
      if CanWork(s, id, v.job, step) {
        WorkerMovesRecord(s, id, v, step, e);
      } else {
        SubmitterMovesRecord(s, id, v, step, e);
      }
    }
  }

  lemma RecordsMove(s: State, a: Action, id: string)
    requires Inv(s) && Enabled(s, a) && !a.Restart?
    ensures var next := Do(s, a).data; Moves(ViewOf(s, id), Rec(next, id), next)
  {
    if a.Act? {
      ActMovesRecord(s, a.id, a.step, StepEffect(s, a.id, a.step), id);
    } else {
      assert Rec(Do(s, a).data, id) == ViewOf(s, id).rec;
    }
  }

  /** A restart, after any number of failed Opens, closes every unfinished record along an edge. It
      keeps or drops finished ones, and brings a cancellation back only from a file that holds its audit
      event too, unless the process before it had itself started on an unsynced file. */
  lemma RestartMovesRecord(s: State, failed: seq<Reopening>, found: Data, left: set<Data>, now: int, id: string)
    requires Inv(s) && Enabled(s, Restart(failed, found, left, now))
    ensures var v, after := ViewOf(s, id), Rec(Reboot(s, found, left, now).data, id);
            && !Unfinished(after)
            && (Unfinished(v.rec) && after.Some? ==> RestartEdge(v.rec.value.state, after.value.state))
            && (v.finished && !s.unsynced ==> after == v.rec || after == None)
            && (IsState(after, Succeeded) ==> v.succeeded)
            && (IsState(after, Canceled) ==> CancelMarkIn(found, id) || (v.finished && v.cancelMark))
  {
    FilesAreFound(s, failed, found);
    assert OpOk(ViewOf(s, id), s.stopped);
    assert FoundOk(ViewOf(s, id), Rec(found, id), CancelMarkIn(found, id), s.unsynced);
    ReopenedRecord(found, now, id);
    assert Reboot(s, found, left, now).data == Reopened(found, now);
  }

  /** Without failed Opens, an unfinished record is dropped only if the file found holds it finished. */
  lemma RestartDropsNothingUnfinished(s: State, found: Data, left: set<Data>, now: int, id: string)
    requires Inv(s) && found in left && left <= s.restorable && Unfinished(Rec(s.data, id))
    ensures var after := Rec(Reboot(s, found, left, now).data, id);
            after.None? ==> Rec(found, id).Some? && RestartEdge(Rec(s.data, id).value.state, Rec(found, id).value.state)
  {
    assert FileOk(s, found);
    assert RestorableOk(ViewOf(s, id), Rec(found, id), CancelMarkIn(found, id), s.unsynced);
    ReopenedRecord(found, now, id);
    assert Reboot(s, found, left, now).data == Reopened(found, now);
  }

  // ---- whole runs ----

  /** A service started on an empty store. */
  ghost predicate Initial(s: State) {
    exists governor, queueCap, striping, workers :: ValidConfig(governor) && s == Start(governor, queueCap, striping, workers)
  }

  ghost predicate Reachable(s: State) {
    exists start, run :: Initial(start) && IsRun(start, run) && After(start, run) == s
  }

  lemma InitialHolds(s: State)
    requires Initial(s)
    ensures Inv(s) && s.began == [] && s.marks == {}
  {
    var governor, queueCap, striping, workers :| ValidConfig(governor) && s == Start(governor, queueCap, striping, workers);
    StartHolds(governor, queueCap, striping, workers);
  }

  lemma ReachableKeepsInv(s: State)
    requires Reachable(s)
    ensures Inv(s)
  {
    var start, run :| Initial(start) && IsRun(start, run) && After(start, run) == s;
    InitialHolds(start);
    EveryRunKeepsInv(start, run);
  }

  /** What is once known of an operation stays known. */
  ghost predicate Grows(s: State, t: State) {
    && (forall id :: id in s.origin ==> id in t.origin && t.origin[id] == s.origin[id])
    && (forall id :: id in s.began ==> id in t.began)
    && s.finished <= t.finished && s.withdrawn <= t.withdrawn && s.marks <= t.marks
  }

  lemma EffectGrows(s: State, e: Effect, t: State)
    requires t == Apply(s, e) && (e.source.Some? ==> e.id !in s.origin)
    ensures Grows(s, t)
  {
  }

  lemma StepGrows(s: State, a: Action)
    requires Inv(s) && Enabled(s, a)
    ensures Grows(s, Do(s, a))
  {
    var t := Do(s, a);
    if a.Act? {
      var e := StepEffect(s, a.id, a.step);
      ActShape(s, a.id, a.step, e);
      EffectGrows(s, e, t);
    } else {
      assert t.origin == s.origin && t.began == s.began && t.withdrawn == s.withdrawn;
    }
  }

  lemma {:induction false} RunGrows(s: State, run: seq<Action>)
    requires Inv(s) && IsRun(s, run)
    ensures Inv(After(s, run)) && Grows(s, After(s, run))
    decreases |run|
  {
    if run != [] {
      StepKept(s, run[0]);
      StepGrows(s, run[0]);
      RunGrows(Do(s, run[0]), run[1..]);
    }
  }

  // ---- finished records ----

  ghost predicate Shows(d: Data, id: string, op: Operation) { Rec(d, id) == Some(op) || Rec(d, id) == None }

  /** Every file that a crash may bring back holds this record, or has dropped it. */
  ghost predicate Secured(s: State, id: string, op: Operation) {
    forall d :: d in s.restorable ==> Shows(Trimmed(d), id, op)
  }

  ghost predicate Firm(s: State, id: string, op: Operation) {
    id in s.finished && !InFlight(op) && Shows(s.data, id, op) && Secured(s, id, op)
  }

  lemma TrimmedShows(d: Data, id: string, op: Operation)
    requires UniqueIds(d.operations) && Shows(d, id, op)
    ensures Shows(Trimmed(d), id, op)
  {
    LookupAfterTrim(d.operations);
    assert Rec(Trimmed(d), id) == Lookup(TrimOperations(d.operations), id);
  }

  /** No step writes the record of an operation that was ever finished. */
  lemma FinishedIsNotWritten(s: State, id: string, step: Step, e: Effect)
    requires Inv(s) && Enabled(s, Act(id, step)) && e == StepEffect(s, id, step) && id in s.finished
    ensures e.call.Call? && e.call.next.Ok? ==> e.call.writes.None?
  {
    StepContext(s, id, step);
    var v := ViewOf(s, id);
    assert v.finished;
    if CanWork(s, id, v.job, step) {
      WorkerLeavesFinished(s, id, v, step, e);
    } else {
      SubmitterLeavesFinished(s, id, v, step, e);
    }
  }

  lemma SubmitterLeavesFinished(s: State, id: string, v: View, step: Step, e: Effect)
    requires CanSubmit(s, id, v.job, step) && e == SubmitterEffect(s, id, v.job, step) && v.id == id && v.rec == Rec(s.data, id)
    requires OpOk(v, s.stopped) && UniqueIds(s.data.operations) && v.finished
    ensures e.call.Call? && e.call.next.Ok? ==> e.call.writes.None?
  {
    if step.RejectUnaudited? {
      TransitionWrites(s.data, FailedWith(v.job.op, "audit_failed", step.now));
    } else if step.RejectFull? {
      TransitionWrites(s.data, FailedWith(v.job.op, "queue_full", step.now));
    } else if step.Cancel? {
      var op := CanceledAt(step.read, step.now);
      CancelWrites(s.data, op, CancelEvent(op, step.auditId, step.now));
    }
  }

  lemma WorkerLeavesFinished(s: State, id: string, v: View, step: Step, e: Effect)
    requires CanWork(s, id, v.job, step) && e == WorkerEffect(s, id, v.job, step) && v.id == id && v.rec == Rec(s.data, id)
    requires OpOk(v, s.stopped) && UniqueIds(s.data.operations) && v.finished
    ensures e.call.Call? && e.call.next.Ok? ==> e.call.writes.None?
  {
    if step.Claim? {
      TransitionWrites(s.data, StartedAt(v.job.op, step.now));
    }
  }

  lemma CallShows(d: Data, e: Effect, id: string, op: Operation)
    requires CallFits(d, e) && UniqueIds(d.operations) && Shows(d, id, op) && e.call.Call? && e.call.next.Ok?
    requires id == e.id ==> e.call.writes.None?
    ensures Shows(e.call.next.value, id, op) && Shows(Trimmed(e.call.next.value), id, op)
  {
    TrimmedShows(e.call.next.value, id, op);
  }

  lemma ActKeepsFirm(s: State, one: string, step: Step, e: Effect, t: State, id: string, op: Operation)
    requires Inv(s) && Enabled(s, Act(one, step)) && e == StepEffect(s, one, step) && t == Apply(s, e) && Firm(s, id, op)
    ensures Firm(t, id, op)
  {
    ActShape(s, one, step, e);
    assert UniqueIds(s.data.operations) by { assert FileOk(s, s.data); }
    if one == id {
      FinishedIsNotWritten(s, id, step, e);
    }
    if e.call.Call? && e.call.next.Ok? {
      CallShows(s.data, e, id, op);
    }
    EffectKeepsFirm(s, e, t, id, op);
  }

  lemma EffectKeepsFirm(s: State, e: Effect, t: State, id: string, op: Operation)
    requires t == Apply(s, e) && Firm(s, id, op)
    requires e.call.Call? && e.call.next.Ok? ==> Shows(e.call.next.value, id, op) && Shows(Trimmed(e.call.next.value), id, op)
    ensures Firm(t, id, op)
  {
    assert t.data == NextData(s.data, e.call) && t.restorable == NextRestorable(s.restorable, e.call);
    assert t.finished == NextFinished(s.finished, e.call);
  }

  /** Failed Opens leave only files that show it too. */
  lemma {:induction false} FilesShow(files: set<Data>, failed: seq<Reopening>, d: Data, id: string, op: Operation)
    requires CanFail(files, failed) && d in Files(files, failed) && !InFlight(op)
    requires forall f :: f in files ==> WellKept(f) && Shows(Trimmed(f), id, op)
    ensures Shows(Trimmed(d), id, op)
    decreases |failed|
  {
    if failed != [] {
      var r := failed[0];
      AttemptDerives(r.found, r.now);
      RetentionIsIdempotent(r.found.operations);
      assert Trimmed(Trimmed(r.found)).operations == Trimmed(r.found).operations;
      ReopenedIsInterrupted(r.found, r.now, id);
      TrimmedShows(Reopened(r.found, r.now), id, op);
      FilesShow(Attempted(files, r), failed[1..], d, id, op);
    }
  }

  lemma LeftShows(s: State, failed: seq<Reopening>, left: set<Data>, id: string, op: Operation)
    requires FilesOk(s) && CanFail(s.restorable, failed) && left <= Files(s.restorable, failed) && Firm(s, id, op)
    ensures forall d :: d in left ==> Shows(Trimmed(d), id, op)
  {
    FilesAreKept(s);
    forall d | d in left
      ensures Shows(Trimmed(d), id, op)
    {
      FilesShow(s.restorable, failed, d, id, op);
    }
  }

  lemma RestartKeepsFirm(
    s: State, failed: seq<Reopening>, found: Data, left: set<Data>, now: int, t: State, id: string, op: Operation)
    requires Inv(s) && Enabled(s, Restart(failed, found, left, now)) && t == Reboot(s, found, left, now) && Firm(s, id, op)
    ensures Firm(t, id, op)
  {
    LeftShows(s, failed, left, id, op);
    assert WellKept(found) by { FilesAreFound(s, failed, found); }
    ReopenSettlesEverything(found, now);
    ReopenedIsInterrupted(found, now, id);
    assert t.data == Reopened(found, now) && Shows(Trimmed(found), id, op);
    TrimmedShows(t.data, id, op);
    forall d | d in t.restorable
      ensures Shows(Trimmed(d), id, op)
    {
      RebootLeaves(s, found, left, now, d);
    }
  }

  lemma RebootLeaves(s: State, found: Data, left: set<Data>, now: int, d: Data)
    requires d in Reboot(s, found, left, now).restorable
    ensures d in left || d == Reopened(found, now)
  {
  }

  lemma OtherKeepsFirm(s: State, call: Call, t: State, id: string, op: Operation)
    requires UniqueIds(s.data.operations) && call.Call? && call.next.Ok? && call.next.value.operations == s.data.operations
    requires t == Committed(s, call) && Firm(s, id, op)
    ensures Firm(t, id, op)
  {
    TrimmedShows(call.next.value, id, op);
    assert Shows(call.next.value, id, op);
  }

  /** A restart shows a finished record, or nothing, whenever it happens, exactly if the file found holds
      that record after trimming, or none. */
  lemma RestartShowsIff(s: State, found: Data, left: set<Data>, id: string, op: Operation)
    requires Inv(s) && Rec(s.data, id) == Some(op) && !InFlight(op)
    ensures Shows(Trimmed(found), id, op) <==> forall now :: Shows(Reboot(s, found, left, now).data, id, op)
  {
    forall now
      ensures Rec(Reboot(s, found, left, now).data, id)
              == match Rec(Trimmed(found), id) case None => None case Some(x) => Some(Interrupt(x, now))
    {
      ReopenedIsInterrupted(found, now, id);
    }
    if !Shows(Trimmed(found), id, op) {
      assert !Shows(Reboot(s, found, left, op.finishedAt + 1).data, id, op);
    }
  }

  lemma StepKeepsFirm(s: State, a: Action, id: string, op: Operation)
    requires Inv(s) && Enabled(s, a) && Firm(s, id, op)
    ensures Firm(Do(s, a), id, op)
  {
    var t := Do(s, a);
    if a.Act? {
      ActKeepsFirm(s, a.id, a.step, StepEffect(s, a.id, a.step), t, id, op);
    } else if a.Restart? {
      RestartKeepsFirm(s, a.failed, a.found, a.left, a.now, t, id, op);
    } else if a.Other? {
      assert FileOk(s, s.data);
      OtherKeepsFirm(s, Call(Ok(OtherNext(s.data, a.clusters, a.repositories, a.audit)), a.io, None), t, id, op);
    }
  }

  lemma {:induction false} FirmIsForever(s: State, run: seq<Action>, id: string, op: Operation)
    requires Inv(s) && IsRun(s, run) && Firm(s, id, op)
    ensures Firm(After(s, run), id, op)
    decreases |run|
  {
    if run != [] {
      StepKeepsFirm(s, run[0], id, op);
      StepKept(s, run[0]);
      FirmIsForever(Do(s, run[0]), run[1..], id, op);
    }
  }

  /** Unless the process started on an unsynced file and has committed nothing since, every file that
      a crash may bring back holds the finished records of memory, or has dropped them. */
  lemma SyncedIsSecured(s: State, id: string, op: Operation)
    requires Inv(s) && !s.unsynced && Rec(s.data, id) == Some(op) && !InFlight(op)
    ensures Firm(s, id, op)
  {
    assert OpOk(ViewOf(s, id), s.stopped);
    forall d | d in s.restorable
      ensures Shows(Trimmed(d), id, op)
    {
      assert FileOk(s, d);
      assert RestorableOk(ViewOf(s, id), Rec(d, id), CancelMarkIn(d, id), s.unsynced);
      TrimmedShows(d, id, op);
    }
  }

  /** A finished record never changes again, whatever is written later and however often the service
      crashes; retention may drop it. */
  lemma FinishedIsForever(s: State, run: seq<Action>, id: string)
    requires Reachable(s) && !s.unsynced && IsRun(s, run) && Rec(s.data, id).Some? && !InFlight(Rec(s.data, id).value)
    ensures Rec(After(s, run).data, id) == Rec(s.data, id) || Rec(After(s, run).data, id) == None
  {
    ReachableKeepsInv(s);
    SyncedIsSecured(s, id, Rec(s.data, id).value);
    FirmIsForever(s, run, id, Rec(s.data, id).value);
  }

  /** A file with another record for the operation takes the finished one back. */
  lemma UnsecuredIsTakenBack(s: State, id: string, op: Operation) returns (run: seq<Action>)
    requires Inv(s) && !Secured(s, id, op)
    ensures IsRun(s, run) && !Shows(After(s, run).data, id, op)
  {
    var d :| d in s.restorable && !Shows(Trimmed(d), id, op);
    var now := op.finishedAt + 1;
    run := [Restart([], d, {d}, now)];
    ReopenedIsInterrupted(d, now, id);
    assert After(Do(s, run[0]), run[1..]) == Do(s, run[0]);
    assert After(s, run).data == Reopened(d, now);
  }

  /** Exactly then: a finished record is forever if and only if every file that a crash may bring back
      holds it or has dropped it. */
  lemma FinishedIsForeverIff(s: State, id: string, op: Operation)
    requires Reachable(s) && Rec(s.data, id) == Some(op) && !InFlight(op)
    ensures Secured(s, id, op) <==> forall run :: IsRun(s, run) ==> Shows(After(s, run).data, id, op)
  {
    ReachableKeepsInv(s);
    assert OpOk(ViewOf(s, id), s.stopped);
    if Secured(s, id, op) {
      forall run | IsRun(s, run)
        ensures Shows(After(s, run).data, id, op)
      {
        FirmIsForever(s, run, id, op);
      }
    } else {
      var run := UnsecuredIsTakenBack(s, id, op);
    }
  }

  /** ID, kind, target, submitter and creation time of an operation never change. */
  lemma IdentityIsForever(s: State, run: seq<Action>, id: string)
    requires Reachable(s) && IsRun(s, run) && Rec(s.data, id).Some? && Rec(After(s, run).data, id).Some?
    ensures SameIdentity(Rec(s.data, id).value, Rec(After(s, run).data, id).value)
  {
    ReachableKeepsInv(s);
    RunGrows(s, run);
    assert OpOk(ViewOf(s, id), s.stopped);
    assert OpOk(ViewOf(After(s, run), id), After(s, run).stopped);
  }

  // ---- a job body runs at most once, and never after a cancellation ----

  predicate StartsBody(s: State, a: Action, id: string)
    requires Enabled(s, a)
  {
    !JobOf(s, id).Executing? && JobOf(Do(s, a), id).Executing?
  }

  function Starts(s: State, run: seq<Action>, id: string): nat
    requires IsRun(s, run)
    decreases |run|
  {
    if run == [] then 0 else (if StartsBody(s, run[0], id) then 1 else 0) + Starts(Do(s, run[0]), run[1..], id)
  }

  lemma SubmitterNeverBegins(s: State, id: string, j: Job, step: Step, e: Effect)
    requires CanSubmit(s, id, j, step) && e == SubmitterEffect(s, id, j, step)
    ensures !e.begins && (e.job.Executing? ==> j.Executing?)
  {
  }

  lemma WorkerBegins(s: State, id: string, j: Job, step: Step, e: Effect)
    requires CanWork(s, id, j, step) && e == WorkerEffect(s, id, j, step)
    ensures e.begins <==> !j.Executing? && e.job.Executing?
  {
  }

  lemma EffectBegins(s: State, one: string, step: Step, e: Effect)
    requires Inv(s) && Enabled(s, Act(one, step)) && e == StepEffect(s, one, step)
    ensures e.id == one && (e.begins <==> !JobOf(s, one).Executing? && e.job.Executing?) && (e.begins ==> one !in s.began)
  {
    var j, t := JobOf(s, one), Apply(s, e);
    ActShape(s, one, step, e);
    StepResult(s, e, t);
    ActFits(s, one, step, e, t);
    if CanWork(s, one, j, step) {
      WorkerBegins(s, one, j, step, e);
    } else {
      SubmitterNeverBegins(s, one, j, step, e);
    }
  }

  lemma StartIsNew(s: State, a: Action, id: string)
    requires Inv(s) && Enabled(s, a)
    ensures StartsBody(s, a, id) <==> id !in s.began && id in Do(s, a).began
  {
    var t := Do(s, a);
    if a.Act? {
      var e := StepEffect(s, a.id, a.step);
      EffectBegins(s, a.id, a.step, e);
      FieldsAfter(s, e, t);
    } else {
      assert t.began == s.began && (t.jobs == s.jobs || t.jobs == map[]);
    }
  }

  lemma {:induction false} StartsAreCounted(s: State, run: seq<Action>, id: string)
    requires Inv(s) && IsRun(s, run)
    ensures Starts(s, run, id) == if id !in s.began && id in After(s, run).began then 1 else 0
    decreases |run|
  {
    if run != [] {
      StartIsNew(s, run[0], id);
      StepKept(s, run[0]);
      StepGrows(s, run[0]);
      RunGrows(Do(s, run[0]), run[1..]);
      StartsAreCounted(Do(s, run[0]), run[1..], id);
    }
  }

  lemma BodyRunsAtMostOnce(start: State, run: seq<Action>, id: string)
    requires Initial(start) && IsRun(start, run)
    ensures Starts(start, run, id) <= 1
  {
    InitialHolds(start);
    StartsAreCounted(start, run, id);
  }

  /** CancelOperation returns success for `id`. */
  predicate CancelSucceeds(s: State, a: Action, id: string)
    requires Enabled(s, a)
  {
    a.Act? && a.id == id && a.step.Cancel? && Lands(StepEffect(s, id, a.step).call)
  }

  lemma CancellationIsKept(s: State, a: Action, id: string)
    requires Inv(s) && Enabled(s, a) && CancelSucceeds(s, a, id)
    ensures id in Do(s, a).withdrawn
  {
  }

  lemma WithdrawnHasNotBegun(s: State, id: string)
    requires Inv(s) && id in s.withdrawn
    ensures id !in s.began
  {
    assert OpOk(ViewOf(s, id), s.stopped);
  }

  /** Before a successful cancellation, the body of the job has not run. */
  lemma CanceledHasNotRun(start: State, run: seq<Action>, a: Action, id: string)
    requires Initial(start) && IsRun(start, run) && Enabled(After(start, run), a) && CancelSucceeds(After(start, run), a, id)
    ensures Starts(start, run, id) == 0
  {
    var s := After(start, run);
    InitialHolds(start);
    EveryRunKeepsInv(start, run);
    StepKept(s, a);
    StepGrows(s, a);
    CancellationIsKept(s, a, id);
    WithdrawnHasNotBegun(Do(s, a), id);
    StartsAreCounted(start, run, id);
  }

  /** However the run goes on after it, and whoever was already waiting with the job, it never does. */
  lemma CanceledNeverRuns(s: State, a: Action, later: seq<Action>, id: string)
    requires Reachable(s) && Enabled(s, a) && CancelSucceeds(s, a, id) && IsRun(Do(s, a), later)
    ensures Starts(Do(s, a), later, id) == 0
  {
    var t := Do(s, a);
    ReachableKeepsInv(s);
    StepKept(s, a);
    CancellationIsKept(s, a, id);
    RunGrows(t, later);
    StartsAreCounted(t, later, id);
    WithdrawnHasNotBegun(After(t, later), id);
  }

  // ---- exclusion ----

  lemma SameTargetNeverTwice(s: State, a: string, b: string)
    requires Reachable(s) && HoldsStripe(JobOf(s, a)) && HoldsStripe(JobOf(s, b))
    requires var x, y := JobOf(s, a).op, JobOf(s, b).op; x.clusterId == y.clusterId && x.namespace == y.namespace && x.target == y.target
    ensures a == b
  {
    ReachableKeepsInv(s);
    assert HoldsStripe(JobIn(s.jobs, a)) && HoldsStripe(JobIn(s.jobs, b));
  }

  lemma ExecutionsAreBounded(s: State, ids: set<string>)
    requires Reachable(s) && forall id :: id in ids ==> HoldsSlot(JobOf(s, id))
    ensures |ids| <= s.active <= s.governor.maxConcurrent
  {
    ReachableKeepsInv(s);
    forall id | id in ids
      ensures id in s.slots
    {
      assert HoldsSlot(JobIn(s.jobs, id));
    }
    SubsetIsSmaller(ids, s.slots);
  }

  lemma {:induction false} SubsetIsSmaller(a: set<string>, b: set<string>)
    requires a <= b
    ensures |a| <= |b|
  {
    assert b == a + (b - a);
  }

  // ---- audit precedence ----

  /** Some step of the run commits, or restores from the file, a state with this audit event. */
  predicate CommitsMark(s: State, run: seq<Action>, m: Mark)
    requires IsRun(s, run)
    decreases |run|
  {
    && run != []
    && (m in Marks(Do(s, run[0]).data.auditEvents)
        || (run[0].Restart? && m in Marks(run[0].found.auditEvents))
        || CommitsMark(Do(s, run[0]), run[1..], m))
  }

  lemma StepMarks(s: State, a: Action, m: Mark)
    requires Enabled(s, a) && m in Do(s, a).marks && m !in s.marks
    ensures m in Marks(Do(s, a).data.auditEvents) || (a.Restart? && m in Marks(a.found.auditEvents))
  {
    var t := Do(s, a);
    if a.Act? {
      var e := StepEffect(s, a.id, a.step);
      assert t.marks == NextMarks(s.marks, e.call) && t.data == NextData(s.data, e.call);
    }
  }

  lemma {:induction false} MarksWereCommitted(s: State, run: seq<Action>, m: Mark)
    requires IsRun(s, run) && m in After(s, run).marks && m !in s.marks
    ensures CommitsMark(s, run, m)
    decreases |run|
  {
    if run != [] {
      if m in Do(s, run[0]).marks {
        StepMarks(s, run[0], m);
      } else {
        MarksWereCommitted(Do(s, run[0]), run[1..], m);
      }
    }
  }

  lemma StepIsAudited(s: State, a: Action, t: State, id: string)
    requires Inv(s) && Enabled(s, a) && t == Do(s, a)
    ensures var v, becomes := ViewOf(s, id), Rec(t.data, id);
            && (IsState(becomes, Running) && !IsState(v.rec, Running) ==> v.submitted)
            && (IsState(becomes, Succeeded) && !IsState(v.rec, Succeeded) ==> v.succeeded)
            && (IsState(becomes, Canceled) && !IsState(v.rec, Canceled)
                ==> CancelMarkIn(if a.Restart? then a.found else t.data, id) || (a.Restart? && s.unsynced && v.cancelMark))
  {
    if a.Restart? {
      RestartMovesRecord(s, a.failed, a.found, a.left, a.now, id);
    } else {
      RecordsMove(s, a, id);
    }
  }

  /** What the audit events of a record are about. */
  lemma KindStays(s: State, a: Action, t: State, id: string)
    requires Inv(s) && Enabled(s, a) && t == Do(s, a) && Rec(t.data, id).Some? && id in s.origin
    ensures Rec(t.data, id).value.kind == s.origin[id].kind
  {
    StepKept(s, a);
    StepGrows(s, a);
    assert OpOk(ViewOf(t, id), t.stopped);
  }

  /** When a record turns running, its submission was audited before; when it turns succeeded, its
      success was audited before; when it turns canceled, the same state holds the audit event. */
  lemma AuditComesFirst(start: State, before: seq<Action>, a: Action, id: string)
    requires Initial(start) && IsRun(start, before) && Enabled(After(start, before), a)
    ensures var s := After(start, before);
            var t := Do(s, a);
            var was, becomes := Rec(s.data, id), Rec(t.data, id);
            && (IsState(becomes, Running) && !IsState(was, Running)
                ==> CommitsMark(start, before, Mark(id, becomes.value.kind, "submitted")))
            && (IsState(becomes, Succeeded) && !IsState(was, Succeeded)
                ==> CommitsMark(start, before, Mark(id, becomes.value.kind, "succeeded")))
            && (IsState(becomes, Canceled) && !IsState(was, Canceled)
                ==> || CancelMarkIn(if a.Restart? then a.found else t.data, id)
                    || (a.Restart? && s.unsynced && CommitsMark(start, before, Mark(id, CANCEL, "succeeded"))))
  {
    var s := After(start, before);
    var t := Do(s, a);
    InitialHolds(start);
    EveryRunKeepsInv(start, before);
    StepIsAudited(s, a, t, id);
    if Mark(id, CANCEL, "succeeded") in s.marks {
      MarksWereCommitted(start, before, Mark(id, CANCEL, "succeeded"));
    }
    if id in s.origin && Rec(t.data, id).Some? {
      KindStays(s, a, t, id);
      var kind := s.origin[id].kind;
      if SubmittedMark(s, id) {
        MarksWereCommitted(start, before, Mark(id, kind, "submitted"));
      }
      if SucceededMark(s, id) {
        MarksWereCommitted(start, before, Mark(id, kind, "succeeded"));
      }
    }
  }

  // ---- the last write ----

  /** The unconditional last write finds the record, still running, whatever retention dropped. */
  lemma LastWriteFindsItsRecord(s: State, id: string)
    requires Reachable(s) && JobOf(s, id).Writing?
    ensures IsState(Rec(s.data, id), Running) && UpdateNext(s.data, JobOf(s, id).op).Ok?
  {
    ReachableKeepsInv(s);
    assert OpOk(ViewOf(s, id), s.stopped);
    assert FileOk(s, s.data);
    UpdateWrites(s.data, JobOf(s, id).op);
  }

  /** No control outlives its job. */
  lemma ControlsBelongToJobs(s: State, id: string)
    requires Reachable(s) && id in s.controls
    ensures !JobOf(s, id).Gone?
  {
    ReachableKeepsInv(s);
    assert OpOk(ViewOf(s, id), s.stopped);
  }
}
