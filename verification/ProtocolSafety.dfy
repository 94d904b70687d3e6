/** The invariant holds in every reachable state. */
module ProtocolSafety {
  import opened Common
  import opened Records
  import opened Retention
  import opened StoreSteps
  import opened Governing
  import opened Protocol
  import opened ProtocolInvariant
  import opened ProtocolSteps
  import opened ProtocolEffects

  // ---- steps of a job ----

  lemma BegunOnce(began: seq<string>, id: string)
    requires Distinct(began) && id !in began
    ensures Distinct(began + [id])
  {
  }

  lemma CopiesKept(copies: set<Operation>, signals: set<string>, withdrawn: set<string>, origin: map<string, Operation>, e: Effect)
    requires CopiesOk(copies, signals, withdrawn, origin) && (e.source.Some? ==> e.id !in origin)
    ensures CopiesOk(copies, if e.withdraws then signals + {e.id} else signals, if e.withdraws then withdrawn + {e.id} else withdrawn,
                     if e.source.Some? then origin[e.id := e.source.value] else origin)
  {
  }

  ghost predicate ResourcesOk(s: State) {
    && QueueOk(s.jobs, s.queue) && WorkersOk(s.jobs, s.workers)
    && LocksOk(s.striping, s.jobs, s.stripes) && SlotsOk(s.governor, s.jobs, s.active, s.slots)
  }

  lemma FieldsAfter(s: State, e: Effect, t: State)
    requires t == Apply(s, e)
    ensures t.governor == s.governor && t.striping == s.striping && t.jobs == s.jobs[e.id := e.job]
    ensures t.queue == NextQueue(s.queue, e) && t.workers == NextWorkers(s.workers, e)
    ensures t.stripes == NextStripes(s.stripes, e) && t.active == NextActive(s.active, e) && t.slots == NextSlots(s.slots, e)
    ensures t.stopped == s.stopped && t.began == (if e.begins then s.began + [e.id] else s.began)
  {
  }

  lemma ResourcesKept(s: State, e: Effect, t: State)
    requires ResourcesOk(s) && HasRoom(s, e)
    requires LockFits(s.striping, JobOf(s, e.id), e) && SlotFits(JobOf(s, e.id), e) && QueueFits(JobOf(s, e.id), e)
    requires t.governor == s.governor && t.striping == s.striping && t.jobs == s.jobs[e.id := e.job]
    requires t.queue == NextQueue(s.queue, e) && t.workers == NextWorkers(s.workers, e)
    requires t.stripes == NextStripes(s.stripes, e) && t.active == NextActive(s.active, e) && t.slots == NextSlots(s.slots, e)
    ensures ResourcesOk(t)
  {
    LocksKept(s, e);
    SlotsKept(s, e);
    QueueKept(s, e);
    WorkersKept(s, e);
  }

  lemma HistoryKept(s: State, e: Effect, t: State)
    requires t == Apply(s, e) && HasRoom(s, e) && SourceFits(JobOf(s, e.id), e)
    requires CopiesOk(s.copies, s.signals, s.withdrawn, s.origin) && RosterOk(s.jobs, s.roster, s.origin)
    ensures CopiesOk(t.copies, t.signals, t.withdrawn, t.origin) && RosterOk(t.jobs, t.roster, t.origin)
  {
    CopiesKept(s.copies, s.signals, s.withdrawn, s.origin, e);
    RosterKept(s, e);
  }

  lemma EffectKept(s: State, e: Effect, t: State)
    requires OpsOk(s) && FilesOk(s) && t == Apply(s, e) && HasRoom(s, e) && Shape(s.striping, s.data, JobOf(s, e.id), e)
    requires Fits(ViewOf(s, e.id), ViewOf(t, e.id), e, s.stopped) && t.stopped == s.stopped
    ensures OpsOk(t) && FilesOk(t)
  {
    OpsKept(s, e, t);
    FilesKept(s, e, t);
  }

  function StepEffect(s: State, id: string, step: Step): Effect
    requires Enabled(s, Act(id, step))
  {
    if CanWork(s, id, JobOf(s, id), step) then WorkerEffect(s, id, JobOf(s, id), step)
    else SubmitterEffect(s, id, JobOf(s, id), step)
  }

  /** What an enabled step finds. */
  lemma StepContext(s: State, id: string, step: Step)
    requires Inv(s) && Enabled(s, Act(id, step))
    ensures var v := ViewOf(s, id);
            && OpOk(v, s.stopped) && UniqueIds(s.data.operations)
            && (HasOp(v.job) ==> v.job.op.id == id != "")
            && (v.source.Some? <==> id in s.origin) && (id !in s.origin ==> v.job.Gone?)
            && (step.Dequeue? ==> v.job.InQueue?) && (step.Abort? ==> s.stopped || v.canceled)
            && (step.Cancel? ==> Identified(v, step.read))
  {
    assert OpOk(ViewOf(s, id), s.stopped);
    assert FileOk(s, s.data);
  }

  lemma ActShape(s: State, id: string, step: Step, e: Effect)
    requires Inv(s) && Enabled(s, Act(id, step)) && e == StepEffect(s, id, step)
    ensures HasRoom(s, e) && Shape(s.striping, s.data, JobOf(s, id), e) && e.id == id
  {
    var j := JobOf(s, id);
    StepContext(s, id, step);
    if CanWork(s, id, j, step) {
      WorkerCalls(s.data, s, id, j, step, e);
      WorkerHolds(s.striping, s, id, j, step, e);
      WorkerQueues(s, id, j, step, e);
      WorkerSources(s, id, j, step, e);
      WorkerHasRoom(s, id, j, step, e);
    } else {
      SubmitterCalls(s.data, s, id, j, step, e);
      SubmitterQueues(s, id, j, step, e);
      SubmitterHolds(s.striping, j, e);
    }
  }

  lemma ActFits(s: State, id: string, step: Step, e: Effect, t: State)
    requires Inv(s) && Enabled(s, Act(id, step)) && e == StepEffect(s, id, step) && e.id == id
    requires CallFollows(s, e, t) && HistoryFollows(s, e, t)
    ensures Fits(ViewOf(s, id), ViewOf(t, id), e, s.stopped)
  {
    var v, u := ViewOf(s, id), ViewOf(t, id);
    StepContext(s, id, step);
    StepFollows(s, e, t);
    if CanWork(s, id, v.job, step) {
      WorkerFits(s, id, v, u, step, e);
    } else {
      SubmitterFits(s, id, v, u, step, e);
    }
  }

  lemma ActKept(s: State, id: string, step: Step, e: Effect, t: State)
    requires Inv(s) && Enabled(s, Act(id, step)) && e == StepEffect(s, id, step) && t == Apply(s, e)
    ensures Inv(t)
  {
    ActShape(s, id, step, e);
    StepResult(s, e, t);
    ActFits(s, id, step, e, t);
    EffectKept(s, e, t);
    FieldsAfter(s, e, t);
    ResourcesKept(s, e, t);
    HistoryKept(s, e, t);
    if e.begins {
      BegunOnce(s.began, e.id);
    }
  }

  // ---- steps of the environment ----

  /** A step that commits nothing keeps what it keeps of every operation. */
  lemma CalmKept(s: State, t: State)
    requires OpsOk(t) && FilesOk(s) && t.data == s.data && t.restorable == s.restorable && t.marks == s.marks && t.unsynced == s.unsynced
    requires forall id :: Uncommitted(ViewOf(s, id), ViewOf(t, id))
    ensures FilesOk(t)
  {
    forall d | d in t.restorable
      ensures FileOk(t, d)
    {
      OldFileStays(s, t, d);
    }
  }

  lemma SignalView(v: View, u: View, stopped: bool)
    requires OpOk(v, stopped) && v.withdrawn && (u == v.(control := false) || u == v.(control := false, canceled := true))
    ensures OpOk(u, stopped) && Uncommitted(v, u)
  {
  }

  lemma SignalOp(s: State, id: string, t: State, x: string)
    requires OpsOk(s) && id in s.withdrawn && id in s.signals && t == Signaled(s, id)
    ensures OpOk(ViewOf(t, x), t.stopped) && Uncommitted(ViewOf(s, x), ViewOf(t, x))
  {
    assert OpOk(ViewOf(s, x), s.stopped);
    if x == id {
      SignalView(ViewOf(s, x), ViewOf(t, x), s.stopped);
    } else {
      assert ViewOf(t, x) == ViewOf(s, x);
    }
  }

  lemma SignalKept(s: State, id: string, t: State)
    requires Inv(s) && id in s.signals && t == Signaled(s, id)
    ensures Inv(t)
  {
    forall x { SignalOp(s, id, t, x); }
    CalmKept(s, t);
  }

  lemma CancelAllKept(s: State, t: State)
    requires Inv(s) && s.stopped && t == Do(s, CancelAll)
    ensures Inv(t)
  {
    forall x
      ensures OpOk(ViewOf(t, x), true) && Uncommitted(ViewOf(s, x), ViewOf(t, x))
    {
      assert OpOk(ViewOf(s, x), true);
    }
    CalmKept(s, t);
  }

  lemma StopKept(s: State, t: State)
    requires Inv(s) && t == Do(s, Stop)
    ensures Inv(t)
  {
    forall x
      ensures OpOk(ViewOf(t, x), true) && ViewOf(t, x) == ViewOf(s, x)
    {
      assert OpOk(ViewOf(s, x), s.stopped);
    }
    CalmKept(s, t);
  }

  lemma ViewsStay(s: State, t: State)
    requires OpsOk(s) && FilesOk(s) && (forall x :: ViewOf(t, x) == ViewOf(s, x)) && t.stopped == s.stopped
    requires t.data == s.data && t.restorable == s.restorable && t.marks == s.marks && t.unsynced == s.unsynced
    ensures OpsOk(t) && FilesOk(t)
  {
    forall x
      ensures OpOk(ViewOf(t, x), t.stopped)
    {
      assert OpOk(ViewOf(s, x), s.stopped);
    }
    CalmKept(s, t);
  }

  lemma ReadKept(s: State, id: string, t: State)
    requires Inv(s) && Enabled(s, ReadForCancel(id)) && t == Do(s, ReadForCancel(id))
    ensures Inv(t)
  {
    forall x
      ensures ViewOf(t, x) == ViewOf(s, x)
    {
    }
    ViewsStay(s, t);
    assert OpOk(ViewOf(s, id), s.stopped);
  }

  lemma ApiKept(s: State, a: Action, t: State)
    requires Inv(s) && (a.LockApi? || a.UnlockApi?) && Enabled(s, a) && t == Do(s, a)
    ensures Inv(t)
  {
    forall x
      ensures ViewOf(t, x) == ViewOf(s, x)
    {
    }
    ViewsStay(s, t);
  }

  // ---- a commit of other parts of the store ----

  lemma OtherView(s: State, call: Call, t: State, x: string)
    requires OpOk(ViewOf(s, x), s.stopped) && call.Call? && call.next.Ok? && call.next.value.operations == s.data.operations
    requires t == Committed(s, call)
    ensures Later(ViewOf(s, x), ViewOf(t, x)) && Uncommitted(ViewOf(s, x), ViewOf(t, x)) && OpOk(ViewOf(t, x), t.stopped)
    ensures Rec(call.next.value, x) == Rec(t.data, x)
  {
    assert t.origin == s.origin && s.marks <= t.marks;
    OpStays(ViewOf(s, x), ViewOf(t, x), s.stopped, t.stopped);
  }

  lemma OtherFiles(s: State, call: Call, t: State)
    requires FilesOk(s) && call.Call? && call.next.Ok? && call.next.value.operations == s.data.operations && call.writes.None?
    requires t == Committed(s, call) && OpsOk(t) && (forall x :: Uncommitted(ViewOf(s, x), ViewOf(t, x)))
    requires |call.next.value.auditEvents| <= MAX_STORED_AUDIT_EVENTS
    requires forall x :: Rec(call.next.value, x) == Rec(t.data, x)
    ensures FilesOk(t)
  {
    var next := call.next.value;
    assert WellKept(next) by { assert FileOk(s, s.data); }
    forall d | d in t.restorable
      ensures FileOk(t, d)
    {
      if d == next {
        MemoryIsRestorable(ViewOf(t, ""), t.stopped, Rec(next, ""), CancelMarkIn(next, ""));
        NewFileFits(t, "", next);
      } else {
        OldFileStays(s, t, d);
      }
    }
  }

  lemma OtherKept(s: State, call: Call, t: State)
    requires Inv(s) && call.Call? && call.next.Ok? && call.next.value.operations == s.data.operations && call.writes.None?
    requires t == Committed(s, call) && |call.next.value.auditEvents| <= MAX_STORED_AUDIT_EVENTS
    ensures Inv(t)
  {
    forall x
      ensures Uncommitted(ViewOf(s, x), ViewOf(t, x)) && OpOk(ViewOf(t, x), t.stopped) && Rec(call.next.value, x) == Rec(t.data, x)
    {
      assert OpOk(ViewOf(s, x), s.stopped);
      OtherView(s, call, t, x);
    }
    OtherFiles(s, call, t);
  }

  // ---- a new process ----

  lemma FinishedAt(ops: seq<Operation>, id: string)
    ensures id in FinishedIn(ops) <==> Lookup(ops, id).Some? && !InFlight(Lookup(ops, id).value)
  {
    LookupIsFind(ops, id);
  }

  /** What the new process knows of one operation. */
  predicate Rebooted(v: View, u: View) {
    && u.id == v.id && u.job == Gone && u.source == v.source && !u.canceled && !u.control
    && u.began == v.began && u.withdrawn == v.withdrawn && u.finished == (v.finished || u.rec.Some?) && !Unfinished(u.rec)
    && (v.submitted ==> u.submitted) && (v.succeeded ==> u.succeeded) && (v.cancelMark ==> u.cancelMark)
  }

  /** `kept` is its record in the file found. */
  lemma RebootView(v: View, u: View, kept: Option<Operation>, cancelMark: bool, stopped: bool, unsynced: bool, now: int)
    requires OpOk(v, stopped) && FoundOk(v, kept, cancelMark, unsynced) && Rebooted(v, u) && (cancelMark ==> u.cancelMark)
    requires u.rec == (if kept.Some? then Some(Interrupt(kept.value, now)) else None) || u.rec == None
    ensures OpOk(u, false)
  {
  }

  /** A file that the new process did not write over. */
  lemma LeftView(v: View, u: View, rec: Option<Operation>, cancelMark: bool, unsynced: bool)
    requires FoundOk(v, rec, cancelMark, unsynced) && Rebooted(v, u)
    ensures RestorableOk(u, rec, cancelMark, true)
  {
  }

  lemma RebootKnows(s: State, found: Data, left: set<Data>, now: int, t: State, id: string)
    requires t == Reboot(s, found, left, now) && !Unfinished(Rec(t.data, id))
    ensures Rebooted(ViewOf(s, id), ViewOf(t, id)) && (CancelMarkIn(found, id) ==> ViewOf(t, id).cancelMark)
  {
    FinishedAt(t.data.operations, id);
    assert t.origin == s.origin && s.marks <= t.marks && Marks(found.auditEvents) <= t.marks;
    assert t.finished == s.finished + FinishedIn(t.data.operations);
  }

  /** What reopening makes of each record. */
  lemma ReopenedRecord(found: Data, now: int, id: string)
    requires UniqueIds(found.operations)
    ensures var after := Rec(Reopened(found, now), id);
            && !Unfinished(after) && (after.None? ==> !Unfinished(Rec(found, id)))
            && (after.Some? ==> Rec(found, id).Some? && after.value == Interrupt(Rec(found, id).value, now))
  {
    ReopenSettlesEverything(found, now);
  }

  // ---- what failed Opens leave behind ----

  /** One record from another: the same, interrupted, or dropped. */
  predicate Descends(from: Option<Operation>, rec: Option<Operation>) {
    rec.None? || rec == from || (from.Some? && InFlight(from.value) && rec.value == Interrupt(from.value, rec.value.finishedAt))
  }

  ghost predicate Derives(from: Data, d: Data) {
    WellKept(d) && d.auditEvents == from.auditEvents && forall id :: Descends(Rec(from, id), Rec(d, id))
  }

  lemma AttemptDerives(d: Data, now: int)
    requires WellKept(d)
    ensures Derives(d, Trimmed(d)) && Derives(d, Reopened(d, now))
  {
    LookupAfterTrim(d.operations);
    ReopenSettlesEverything(d, now);
    forall id
      ensures Descends(Rec(d, id), Rec(Trimmed(d), id)) && Descends(Rec(d, id), Rec(Reopened(d, now), id))
    {
      assert Rec(Trimmed(d), id) == Lookup(TrimOperations(d.operations), id);
      ReopenedRecord(d, now, id);
    }
  }

  lemma DerivesOn(a: Data, b: Data, c: Data)
    requires Derives(a, b) && Derives(b, c)
    ensures Derives(a, c)
  {
    forall id
      ensures Descends(Rec(a, id), Rec(c, id))
    {
      assert Descends(Rec(a, id), Rec(b, id)) && Descends(Rec(b, id), Rec(c, id));
    }
  }

  /** Every file left by failed Opens derives from one that was there before. */
  lemma {:induction false} FilesDerive(files: set<Data>, failed: seq<Reopening>, d: Data) returns (from: Data)
    requires CanFail(files, failed) && d in Files(files, failed) && forall f :: f in files ==> WellKept(f)
    ensures from in files && Derives(from, d)
    decreases |failed|
  {
    if failed == [] {
      from := d;
    } else {
      var r := failed[0];
      AttemptDerives(r.found, r.now);
      from := FilesDerive(Attempted(files, r), failed[1..], d);
      if from !in files {
        DerivesOn(r.found, from, d);
        from := r.found;
      }
    }
  }

  lemma DescendantFound(v: View, from: Option<Operation>, rec: Option<Operation>, cancelMark: bool, unsynced: bool)
    requires RecordOk(v) && RestorableOk(v, from, cancelMark, unsynced) && Descends(from, rec)
    ensures FoundOk(v, rec, cancelMark, unsynced)
  {
  }

  ghost predicate FoundFile(s: State, d: Data) {
    WellKept(d) && forall id :: FoundOk(ViewOf(s, id), Rec(d, id), CancelMarkIn(d, id), s.unsynced)
  }

  lemma FilesAreKept(s: State)
    requires FilesOk(s)
    ensures forall f :: f in s.restorable ==> WellKept(f)
  {
    forall f | f in s.restorable
      ensures WellKept(f)
    {
      assert FileOk(s, f);
    }
  }

  lemma FilesAreFound(s: State, failed: seq<Reopening>, d: Data)
    requires OpsOk(s) && FilesOk(s) && CanFail(s.restorable, failed) && d in Files(s.restorable, failed)
    ensures FoundFile(s, d)
  {
    FilesAreKept(s);
    var from := FilesDerive(s.restorable, failed, d);
    assert FileOk(s, from);
    forall id
      ensures FoundOk(ViewOf(s, id), Rec(d, id), CancelMarkIn(d, id), s.unsynced)
    {
      assert OpOk(ViewOf(s, id), s.stopped);
      assert RestorableOk(ViewOf(s, id), Rec(from, id), CancelMarkIn(from, id), s.unsynced);
      assert Descends(Rec(from, id), Rec(d, id));
      DescendantFound(ViewOf(s, id), Rec(from, id), Rec(d, id), CancelMarkIn(d, id), s.unsynced);
    }
  }

  // ---- the new process ----

  lemma RebootOps(s: State, found: Data, left: set<Data>, now: int, t: State)
    requires OpsOk(s) && FoundFile(s, found) && t == Reboot(s, found, left, now)
    ensures OpsOk(t) && WellKept(t.data) && forall id :: Rebooted(ViewOf(s, id), ViewOf(t, id))
  {
    ReopenSettlesEverything(found, now);
    assert t.data == Reopened(found, now) && !t.stopped;
    forall id
      ensures OpOk(ViewOf(t, id), false) && Rebooted(ViewOf(s, id), ViewOf(t, id))
    {
      ReopenedRecord(found, now, id);
      RebootKnows(s, found, left, now, t, id);
      assert OpOk(ViewOf(s, id), s.stopped);
      assert FoundOk(ViewOf(s, id), Rec(found, id), CancelMarkIn(found, id), s.unsynced);
      RebootView(ViewOf(s, id), ViewOf(t, id), Rec(found, id), CancelMarkIn(found, id), s.stopped, s.unsynced, now);
    }
  }

  lemma MemoryFile(t: State)
    requires OpsOk(t) && WellKept(t.data)
    ensures FileOk(t, t.data)
  {
    MemoryIsRestorable(ViewOf(t, ""), t.stopped, Rec(t.data, ""), CancelMarkIn(t.data, ""));
    NewFileFits(t, "", t.data);
  }

  lemma LeftFile(s: State, t: State, d: Data)
    requires FoundFile(s, d) && t.unsynced && forall id :: Rebooted(ViewOf(s, id), ViewOf(t, id))
    ensures FileOk(t, d)
  {
    forall id
      ensures RestorableOk(ViewOf(t, id), Rec(d, id), CancelMarkIn(d, id), t.unsynced)
    {
      assert Rebooted(ViewOf(s, id), ViewOf(t, id));
      assert FoundOk(ViewOf(s, id), Rec(d, id), CancelMarkIn(d, id), s.unsynced);
      LeftView(ViewOf(s, id), ViewOf(t, id), Rec(d, id), CancelMarkIn(d, id), s.unsynced);
    }
  }

  lemma RebootFiles(s: State, found: Data, left: set<Data>, now: int, t: State)
    requires OpsOk(s) && found in left && (forall d :: d in left ==> FoundFile(s, d)) && t == Reboot(s, found, left, now)
    ensures OpsOk(t) && FilesOk(t)
  {
    RebootOps(s, found, left, now, t);
    MemoryFile(t);
    assert t.data == Reopened(found, now) && t.unsynced == (!Rewrites(found, now) && left != {found});
    assert t.restorable == if Rewrites(found, now) then {t.data} else left;
    assert Marks(t.data.auditEvents) <= Marks(found.auditEvents);
    forall d | d in t.restorable
      ensures FileOk(t, d)
    {
      if d != t.data {
        LeftFile(s, t, d);
      }
    }
  }

  lemma RestartKept(s: State, failed: seq<Reopening>, found: Data, left: set<Data>, now: int, t: State)
    requires Inv(s) && Enabled(s, Restart(failed, found, left, now)) && t == Reboot(s, found, left, now)
    ensures Inv(t)
  {
    forall d | d in left
      ensures FoundFile(s, d)
    {
      FilesAreFound(s, failed, d);
    }
    RebootFiles(s, found, left, now, t);
    NothingHeld(s.governor, s.striping, t.workers, s.origin);
  }

  /** It starts with nothing queued, held or remembered. */
  lemma NothingHeld(governor: Config, f: Striping, workers: seq<Option<string>>, origin: map<string, Operation>)
    requires ValidConfig(governor) && forall w :: 0 <= w < |workers| ==> workers[w] == None
    ensures QueueOk(map[], []) && WorkersOk(map[], workers) && LocksOk(f, map[], map[]) && SlotsOk(governor, map[], 0, {})
    ensures RosterOk(map[], [], origin)
  {
  }

  // ---- every run ----

  lemma StepKept(s: State, a: Action)
    requires Inv(s) && Enabled(s, a)
    ensures Inv(Do(s, a))
  {
    var t := Do(s, a);
    match a
    case Act(id, step) => ActKept(s, id, step, StepEffect(s, id, step), t);
    case ReadForCancel(id) => ReadKept(s, id, t);
    case Signal(id) => SignalKept(s, id, t);
    case LockApi(_) => ApiKept(s, a, t);
    case UnlockApi(_) => ApiKept(s, a, t);
    case Stop => StopKept(s, t);
    case CancelAll => CancelAllKept(s, t);
    case Other(clusters, repositories, audit, io) =>
      assert FileOk(s, s.data);
      OtherKept(s, Call(Ok(OtherNext(s.data, clusters, repositories, audit)), io, None), t);
    case Restart(failed, found, left, now) => RestartKept(s, failed, found, left, now, t);
  }

  lemma StartHolds(governor: Config, queueCap: nat, striping: Striping, workers: nat)
    requires ValidConfig(governor)
    ensures Inv(Start(governor, queueCap, striping, workers))
  {
  }

  lemma {:induction false} EveryRunKeepsInv(s: State, run: seq<Action>)
    requires Inv(s) && IsRun(s, run)
    ensures Inv(After(s, run))
    decreases |run|
  {
    if run != [] {
      StepKept(s, run[0]);
      EveryRunKeepsInv(Do(s, run[0]), run[1..]);
    }
  }
}
