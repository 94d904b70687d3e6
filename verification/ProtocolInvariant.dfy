/** What every step of the protocol keeps. What is known about one operation is collected in a
    `View`; the invariant says it of every operation, beside the locks, slots, queue and workers. */
module ProtocolInvariant {
  import opened Common
  import opened Records
  import opened Retention
  import opened StoreSteps
  import opened Governing
  import opened Protocol

  function Rec(d: Data, id: string): Option<Operation> { Lookup(d.operations, id) }

  function Get(m: map<string, Operation>, id: string): Option<Operation> { if id in m then Some(m[id]) else None }

  predicate SameIdentity(a: Operation, b: Operation) {
    && a.id == b.id && a.requestId == b.requestId && a.kind == b.kind
    && a.clusterId == b.clusterId && a.namespace == b.namespace && a.target == b.target
    && a.submittedBy == b.submittedBy && a.summary == b.summary && a.createdAt == b.createdAt
  }

  /** Everything there is to know about one operation. */
  datatype View = View(
    id: string, job: Job, rec: Option<Operation>, source: Option<Operation>, finished: bool,
    submitted: bool, succeeded: bool, cancelMark: bool, began: bool, withdrawn: bool, canceled: bool, control: bool)

  predicate SubmittedMark(s: State, id: string) { id in s.origin && Mark(id, s.origin[id].kind, "submitted") in s.marks }

  predicate SucceededMark(s: State, id: string) { id in s.origin && Mark(id, s.origin[id].kind, "succeeded") in s.marks }

  function ViewOf(s: State, id: string): View {
    View(id, JobOf(s, id), Rec(s.data, id), Get(s.origin, id), id in s.finished,
         SubmittedMark(s, id), SucceededMark(s, id), Mark(id, CANCEL, "succeeded") in s.marks,
         id in s.began, id in s.withdrawn, id in s.canceled, id in s.controls)
  }

  predicate IsState(rec: Option<Operation>, state: OperationState) { rec.Some? && rec.value.state == state }

  predicate Unfinished(rec: Option<Operation>) { rec.Some? && InFlight(rec.value) }

  predicate Identified(v: View, op: Operation) { v.source.Some? && SameIdentity(op, v.source.value) }

  predicate HasOp(j: Job) { !j.InQueue? && !j.Dequeued? && !j.Finishing? && !j.Gone? }

  /** The stored record: identity kept, and unfinished exactly until it is first finished. */
  predicate RecordOk(v: View) {
    && (v.source.Some? ==> v.source.value.id == v.id != "")
    && (v.rec.Some? ==> Identified(v, v.rec.value) && (InFlight(v.rec.value) <==> !v.finished))
    && (v.finished ==> v.source.Some?)
  }

  /** The job: its copy of the record, and what its phase implies about the stored one. */
  predicate PhaseOk(v: View) {
    && (!v.job.Gone? ==> v.source.Some?)
    && (HasOp(v.job) ==> Identified(v, v.job.op))
    && (HasOp(v.job) && !Runs(v.job) && !v.job.FreeingSlot? && !v.job.FreeingStripe? ==> v.job.op.state == Queued)
    && (v.job.Registered? ==> v.rec.None? && !v.finished && !v.began)
    && (v.job.Executing? ==> v.job.op.state == Running)
    && (v.job.Reporting? || v.job.Writing? ==> !InFlight(v.job.op) && v.job.op.state != Canceled)
    && (v.job.Reporting? ==> v.job.result == ResultName(v.job.op.state))
    && (Runs(v.job) ==> IsState(v.rec, Running))
    && (v.control ==> !v.job.Gone? && !v.job.Turned? && !v.job.Bounced?)
  }

  /** A body that began never finds its record queued again; a withdrawn operation never began. */
  predicate HistoryOk(v: View) {
    && (v.canceled ==> v.source.Some?)
    && (v.began ==> v.source.Some? && !IsState(v.rec, Queued))
    && (v.withdrawn ==> v.finished && !v.began)
  }

  predicate PastAudit(j: Job) {
    j.Audited? || j.Full? || j.Turned? || j.Bounced? || j.InQueue? || WorkerOf(j).Some?
  }

  predicate AuditOk(v: View) {
    && (PastAudit(v.job) || v.began || IsState(v.rec, Running) ==> v.submitted)
    && (IsState(v.rec, Succeeded) || (v.job.Writing? && v.job.op.state == Succeeded) ==> v.succeeded)
    && (IsState(v.rec, Canceled) ==> v.cancelMark)
  }

  /** The job is on its way out and will not touch the record again. */
  predicate Exits(j: Job) { j.Rejected? || j.FreeingSlot? || j.FreeingStripe? || j.Finishing? || j.Gone? }

  /** A running record is being executed or was given up; a queued one loses its control only to a full
      queue, a job that gave up, or a stop. */
  predicate LiveOk(v: View, stopped: bool) {
    && (IsState(v.rec, Running) ==> Runs(v.job) || Exits(v.job))
    && (v.job.Bounced? ==> !Unfinished(v.rec))
    && (v.canceled && IsState(v.rec, Queued) ==> v.job.Turned? || Exits(v.job) || stopped)
    && (v.canceled && v.job.Registered? ==> stopped)
  }

  predicate OpOk(v: View, stopped: bool) { RecordOk(v) && PhaseOk(v) && HistoryOk(v) && AuditOk(v) && LiveOk(v, stopped) }

  ghost predicate OpsOk(s: State) { forall id :: OpOk(ViewOf(s, id), s.stopped) }

  /** The moves an unfinished record may make while the service runs. */
  predicate Edge(from: OperationState, to: OperationState) {
    || (from == Queued && (to == Running || to == Canceled || to == Failed))
    || (from == Running && (to == Succeeded || to == Failed || to == Unknown))
  }

  /** The moves it may make when the store is reopened. */
  predicate RestartEdge(from: OperationState, to: OperationState) { to == Unknown || (Edge(from, to) && to != Running) }

  /** A record that a new process may find. Unless the process before it started on an unsynced file,
      a finished record is the same wherever it is found. */
  predicate FoundOk(v: View, rec: Option<Operation>, cancelMark: bool, unsynced: bool) {
    rec.Some? ==>
      && Identified(v, rec.value) && !v.job.Registered?
      && (v.finished ==> unsynced || rec == v.rec)
      && (Unfinished(v.rec) ==> rec.value.state == v.rec.value.state || Edge(v.rec.value.state, rec.value.state) || rec.value.state == Unknown)
      && (IsState(rec, Running) ==> v.submitted)
      && (IsState(rec, Succeeded) ==> v.succeeded)
      && (IsState(rec, Canceled) ==> (v.finished && v.cancelMark) || cancelMark)
  }

  /** A record that a crash may restore: an unfinished one is still there, and at most one edge ahead. */
  predicate RestorableOk(v: View, rec: Option<Operation>, cancelMark: bool, unsynced: bool) {
    && FoundOk(v, rec, cancelMark, unsynced)
    && (Unfinished(v.rec) ==> rec.Some? && (rec.value.state == v.rec.value.state || Edge(v.rec.value.state, rec.value.state)))
  }

  predicate CancelMarkIn(d: Data, id: string) { Mark(id, CANCEL, "succeeded") in Marks(d.auditEvents) }

  /** No two records with one ID, and no more audit events than are kept. */
  ghost predicate WellKept(d: Data) { UniqueIds(d.operations) && |d.auditEvents| <= MAX_STORED_AUDIT_EVENTS }

  ghost predicate FileOk(s: State, d: Data) {
    WellKept(d) && forall id :: RestorableOk(ViewOf(s, id), Rec(d, id), CancelMarkIn(d, id), s.unsynced)
  }

  ghost predicate FilesOk(s: State) {
    s.data in s.restorable && Marks(s.data.auditEvents) <= s.marks && forall d :: d in s.restorable ==> FileOk(s, d)
  }

  // ---- queue, workers, locks and slots ----

  ghost predicate QueueOk(jobs: map<string, Job>, queue: seq<string>) {
    && Distinct(queue)
    && (forall i :: 0 <= i < |queue| ==> JobIn(jobs, queue[i]).InQueue?)
    && (forall id :: JobIn(jobs, id).InQueue? ==> id in queue)
  }

  ghost predicate WorkersOk(jobs: map<string, Job>, workers: seq<Option<string>>) {
    && (forall w :: 0 <= w < |workers| && workers[w].Some? ==> WorkerOf(JobIn(jobs, workers[w].value)) == Some(w))
    && (forall id :: WorkerOf(JobIn(jobs, id)).Some? ==>
          WorkerOf(JobIn(jobs, id)).value < |workers| && workers[WorkerOf(JobIn(jobs, id)).value] == Some(id))
  }

  ghost predicate LocksOk(f: Striping, jobs: map<string, Job>, stripes: map<nat, Who>) {
    && (forall id :: HoldsStripe(JobIn(jobs, id)) ==>
          StripeOf(f, JobIn(jobs, id).op) in stripes && stripes[StripeOf(f, JobIn(jobs, id).op)] == ByJob(id))
    && (forall k :: k in stripes && stripes[k].ByJob? ==>
          HoldsStripe(JobIn(jobs, stripes[k].id)) && StripeOf(f, JobIn(jobs, stripes[k].id).op) == k)
  }

  ghost predicate SlotsOk(governor: Config, jobs: map<string, Job>, active: int, slots: set<string>) {
    && ValidConfig(governor) && active == |slots| <= governor.maxConcurrent
    && forall id :: id in slots <==> HoldsSlot(JobIn(jobs, id))
  }

  ghost predicate RosterOk(jobs: map<string, Job>, roster: seq<string>, origin: map<string, Operation>) {
    && Distinct(roster)
    && (forall id :: !JobIn(jobs, id).Gone? ==> id in roster)
    && (forall i :: 0 <= i < |roster| ==> roster[i] in origin)
  }

  ghost predicate CopiesOk(copies: set<Operation>, signals: set<string>, withdrawn: set<string>, origin: map<string, Operation>) {
    (forall op :: op in copies ==> op.id in origin && SameIdentity(op, origin[op.id])) && signals <= withdrawn
  }

  ghost predicate Inv(s: State) {
    && OpsOk(s) && FilesOk(s) && Distinct(s.began)
    && QueueOk(s.jobs, s.queue) && WorkersOk(s.jobs, s.workers)
    && LocksOk(s.striping, s.jobs, s.stripes) && SlotsOk(s.governor, s.jobs, s.active, s.slots)
    && RosterOk(s.jobs, s.roster, s.origin) && CopiesOk(s.copies, s.signals, s.withdrawn, s.origin)
  }

  // ---- what a store step does to the records ----

  /** `next` writes `op`; every other record stays, or is dropped if finished. */
  ghost predicate Writes(d: Data, next: Data, op: Operation) {
    && UniqueIds(next.operations)
    && Rec(next, op.id) == Some(op)
    && forall id :: id != op.id ==> Rec(next, id) == Rec(d, id) || (Rec(next, id).None? && !Unfinished(Rec(d, id)))
  }

  lemma CreateWrites(d: Data, op: Operation)
    requires UniqueIds(d.operations) && InFlight(op)
    ensures CreateNext(d, op).Ok? <==> Rec(d, op.id).None?
    ensures CreateNext(d, op).Err? ==> CreateNext(d, op) == Err(Conflict)
    ensures CreateNext(d, op).Ok? ==>
              Writes(d, CreateNext(d, op).value, op) && CreateNext(d, op).value.auditEvents == d.auditEvents
  {
    LookupIsFind(d.operations, op.id);
    if CreateNext(d, op).Ok? {
      LookupAfterAppend(d.operations, op);
      LookupAfterTrim(d.operations + [op]);
      var next := CreateNext(d, op).value;
      forall id
        ensures if id == op.id then Rec(next, id) == Some(op)
                else Rec(next, id) == Rec(d, id) || (Rec(next, id).None? && !Unfinished(Rec(d, id)))
      {
        assert Lookup(d.operations + [op], id) == if id == op.id then Some(op) else Rec(d, id);
        assert Rec(next, id) == Lookup(TrimOperations(d.operations + [op]), id);
      }
    }
  }

  lemma UpdateWrites(d: Data, op: Operation)
    requires UniqueIds(d.operations)
    ensures UpdateNext(d, op).Ok? <==> Rec(d, op.id).Some?
    ensures UpdateNext(d, op) != Err(Conflict)
    ensures UpdateNext(d, op).Ok? ==>
              Writes(d, UpdateNext(d, op).value, op) && UpdateNext(d, op).value.auditEvents == d.auditEvents
  {
    LookupIsFind(d.operations, op.id);
    if UpdateNext(d, op).Ok? {
      LookupAfterReplace(d.operations, op);
    }
  }

  lemma TransitionWrites(d: Data, op: Operation)
    requires UniqueIds(d.operations) && op.id != ""
    ensures var r := TransitionNext(d, Queued, op, None);
            && (r.Ok? <==> IsState(Rec(d, op.id), Queued))
            && (r.Ok? ==> Writes(d, r.value, op) && r.value.auditEvents == d.auditEvents)
            && r != Err(Conflict)
  {
    LookupIsFind(d.operations, op.id);
    if TransitionNext(d, Queued, op, None).Ok? {
      LookupAfterReplace(d.operations, op);
    }
  }

  lemma CancelWrites(d: Data, op: Operation, e: AuditEvent)
    requires UniqueIds(d.operations)
    ensures var r := TransitionNext(d, Queued, op, Some(e));
            r.Ok? ==> Writes(d, r.value, op) && IsState(Rec(d, op.id), Queued) && MarkOf(e) in Marks(r.value.auditEvents)
                      && |r.value.auditEvents| <= MAX_STORED_AUDIT_EVENTS
  {
    LookupIsFind(d.operations, op.id);
    var r := TransitionNext(d, Queued, op, Some(e));
    if r.Ok? {
      LookupAfterReplace(d.operations, op);
      AppendedMark(d, e);
      assert r.value.auditEvents == AppendAudit(d, e).auditEvents;
    }
  }

  lemma AppendedMark(d: Data, e: AuditEvent)
    ensures MarkOf(e) in Marks(AppendAudit(d, e).auditEvents)
  {
    var events := AppendAudit(d, e).auditEvents;
    assert events[|events| - 1] == e;
  }
}
