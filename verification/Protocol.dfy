/** Striping of target locks: the 64-bit FNV-1a hash of internal/platform/operations.go:615-623.
    Strings are Go byte strings, one character per byte. */
module Striping {
  const STRIPES := 64
  const WORD := 0x1_0000_0000_0000_0000

  function Fold(hash: nat, byte: nat): nat
    requires byte < 256
  {
    ((hash - hash % 256) + ((hash % 256) as bv8 ^ byte as bv8) as nat) * 1099511628211 % WORD
  }

  function Hash(hash: nat, value: string): nat
    decreases |value|
  {
    if value == "" then hash else Hash(Fold(hash, value[0] as int % 256), value[1..])
  }

  function Key(clusterId: string, namespace: string, name: string): string { clusterId + (['\0'] + (namespace + (['\0'] + name))) }

  function Stripe(clusterId: string, namespace: string, name: string): (k: nat)
    ensures k < STRIPES
  {
    Hash(14695981039346656037, Key(clusterId, namespace, name)) % STRIPES
  }

  lemma HashesFirst(hash: nat, c: char, rest: string, next: nat)
    requires Fold(hash, c as int % 256) == next
    ensures Hash(hash, [c] + rest) == Hash(next, rest)
  {
    assert ([c] + rest)[1..] == rest;
  }

  lemma HashOfTwo(first: nat, a: char, second: nat, b: char, third: nat, value: string)
    requires Fold(first, a as int % 256) == second && Fold(second, b as int % 256) == third && value == [a] + ([b] + "")
    ensures Hash(first, value) == third
  {
    HashesFirst(first, a, [b] + "", second);
    HashesFirst(second, b, "", third);
  }

  lemma FoldsOfFo()
    ensures Fold(0xcbf29ce484222325, 102) == 0xaf63db4c8601ead9 && Fold(0xaf63db4c8601ead9, 111) == 0x8985907b541d342
  {
    assert Fold(0xcbf29ce484222325, 102) == 0xaf63db4c8601ead9 by {
      assert 0xcbf29ce484222325 % 256 == 37 && (37 as bv8 ^ 102 as bv8) as nat == 67;
      assert (0xcbf29ce484222325 - 37 + 67) * 1099511628211 % WORD == 0xaf63db4c8601ead9;
    }
    assert Fold(0xaf63db4c8601ead9, 111) == 0x8985907b541d342 by {
      assert 0xaf63db4c8601ead9 % 256 == 217 && (217 as bv8 ^ 111 as bv8) as nat == 182;
      assert (0xaf63db4c8601ead9 - 217 + 182) * 1099511628211 % WORD == 0x8985907b541d342;
    }
  }

  /** The published 64-bit FNV-1a hash of "fo". */
  lemma HashIsFnv1a(value: string)
    requires value == "fo"
    ensures Hash(14695981039346656037, value) == 0x8985907b541d342
  {
    FoldsOfFo();
    HashOfTwo(0xcbf29ce484222325, 'f', 0xaf63db4c8601ead9, 'o', 0x8985907b541d342, value);
  }

  /** What a target hashes to depends on the whole of its three names: they cannot run into each other. */
  lemma TargetsAreToldApart(clusterId: string, namespace: string, name: string, otherCluster: string, otherNamespace: string, otherName: string)
    requires '\0' !in clusterId && '\0' !in namespace && '\0' !in otherCluster && '\0' !in otherNamespace
    requires Key(clusterId, namespace, name) == Key(otherCluster, otherNamespace, otherName)
    ensures clusterId == otherCluster && namespace == otherNamespace && name == otherName
  {
    FirstPart(clusterId, namespace + (['\0'] + name), otherCluster, otherNamespace + (['\0'] + otherName));
    FirstPart(namespace, name, otherNamespace, otherName);
  }

  lemma FirstPart(a: string, rest: string, b: string, more: string)
    requires '\0' !in a && '\0' !in b && a + (['\0'] + rest) == b + (['\0'] + more)
    ensures a == b && rest == more
  {
    var x, y := a + (['\0'] + rest), b + (['\0'] + more);
    assert forall i :: 0 <= i < |a| ==> x[i] == a[i];
    assert forall i :: 0 <= i < |b| ==> y[i] == b[i];
    assert x[|a|] == '\0' && y[|a|] == '\0' && x[|b|] == '\0';
    assert a == x[..|a|] && b == y[..|b|] && rest == x[|a| + 1..] && more == y[|b| + 1..];
  }

  method TargetLock(clusterId: string, namespace: string, name: string) returns (k: nat)
    ensures k == Stripe(clusterId, namespace, name)
  {
    var value := clusterId + ['\0'] + namespace + ['\0'] + name;
    assert value == Key(clusterId, namespace, name);
    var hash: nat := 14695981039346656037;
    for i := 0 to |value|
      invariant Hash(hash, value[i..]) == Hash(14695981039346656037, value)
    {
      assert value[i..][1..] == value[i + 1..];
      hash := Fold(hash, value[i] as int % 256);
    }
    k := hash % STRIPES;
  }
}

/** Submitters, cancellers, API lock holders and workers as one transition system. Each store method
    is one step because it runs under the store's mutex; so is each channel or map operation.

    A job is carried by one goroutine at a time, its submitter and then a worker, so its progress is
    kept per operation. Operation IDs are fresh, so the control of an operation is named by its ID. */
module Protocol {
  import opened Common
  import opened Records
  import opened StoreSteps
  import opened Governing
  import Stripes = Striping

  datatype Job =
    // in createAndEnqueueOperation
    | Registered(op: Operation) | Created(op: Operation) | Audited(op: Operation)
    | AuditRefused(op: Operation) | Rejected(op: Operation)
    | Full(op: Operation) | Turned(op: Operation) | Bounced(op: Operation)
    // in the channel
    | InQueue
    // in executeOperation, at worker `w`
    | Dequeued(w: nat)
    | Waiting(w: nat, op: Operation)                      // for the target stripe
    | Holding(w: nat, op: Operation)                      // the stripe, waiting for a slot
    | Admitted(w: nat, op: Operation)                     // stripe and slot, before the compare-and-set
    | Executing(w: nat, op: Operation)
    | Reporting(w: nat, op: Operation, result: string)
    | Writing(w: nat, op: Operation)
    | FreeingSlot(w: nat, op: Operation)
    | FreeingStripe(w: nat, op: Operation)
    | Finishing(w: nat)
    | Gone

  datatype Who = ByJob(id: string) | ByApi

  datatype Mark = Mark(operationId: string, action: string, result: string)

  datatype State = State(
    governor: Config,
    queueCap: nat,
    striping: Striping,
    data: Data,
    restorable: set<Data>,            // memory and every other state that a crash may bring back
    jobs: map<string, Job>,
    queue: seq<string>,
    workers: seq<Option<string>>,     // what each worker is busy with
    stripes: map<nat, Who>,           // a stripe is locked when it is a key
    active: int,
    controls: set<string>,            // the keys of operationControls
    canceled: set<string>,            // controls whose context is canceled
    copies: set<Operation>,            // queued records read by cancellers
    signals: set<string>,             // cancellations committed and not yet signaled
    stopped: bool,
    // Auxiliary: no step reads what follows.
    origin: map<string, Operation>,   // every operation ever submitted, as submitted
    roster: seq<string>,              // the operations submitted to this process
    slots: set<string>,               // the jobs that were granted a slot
    began: seq<string>,               // every start of a job body
    withdrawn: set<string>,           // every successful cancellation
    finished: set<string>,            // the operations whose record was ever committed as finished
    marks: set<Mark>,                 // every audit event committed
    unsynced: bool)                   // the process started on a file that a power loss may still take back

  /** How a store call ends: it commits, it is refused before the store (context, ID), or persist fails. */
  datatype Io = Works | Refused | Broken

  datatype JobError = NoError | ContextCanceled | OtherError(code: string)

  /** A step of the goroutine that carries an operation, or of one that cancels it. */
  datatype Step =
    | Submit(op: Operation) | Create(io: Io) | AuditSubmission(io: Io, auditId: string, now: int)
    | RejectUnaudited(io: Io, now: int) | ReleaseRejected
    | Enqueue | ReleaseFull | RejectFull(io: Io, now: int) | AuditFull(io: Io, auditId: string, now: int)
    | Cancel(read: Operation, io: Io, auditId: string, now: int)
    | Dequeue(w: nat) | Load | TakeStripe | TakeSlot(sample: Sample) | Abort
    | Claim(io: Io, now: int) | Return(error: JobError, now: int)
    | Report(io: Io, auditId: string, now: int) | Write(io: Io)
    | FreeSlot | FreeStripe | Finish

  datatype Action =
    | Act(id: string, step: Step)
    | ReadForCancel(id: string) | Signal(id: string) | LockApi(stripe: nat) | UnlockApi(stripe: nat)
    | Other(clusters: seq<Cluster>, repositories: seq<Repository>, audit: Option<AuditEvent>, io: Io)
    | Stop | CancelAll | Restart(failed: seq<Reopening>, found: Data, left: set<Data>, now: int)

  /** An Open that found this file and whose own writes failed or were cut short. */
  datatype Reopening = Reopening(found: Data, now: int)

  /** How targets map to stripes. The service uses `Striping.Stripe`; the protocol works with any. */
  type Striping = (string, string, string) -> nat

  function StripeOf(f: Striping, op: Operation): nat { f(op.clusterId, op.namespace, op.target) }

  function MarkOf(e: AuditEvent): Mark { Mark(e.operationId, e.action, e.result) }

  function Marks(events: seq<AuditEvent>): set<Mark> { set e | e in events :: MarkOf(e) }

  /** newAuditEvent for an operation. */
  function OperationEvent(op: Operation, auditId: string, action: string, result: string, summary: string, now: int): AuditEvent {
    AuditEvent(auditId, op.requestId, op.id, op.submittedBy, action, result, op.clusterId, op.namespace, op.target, summary, now)
  }

  const CANCEL := "operation.cancel"

  function CancelEvent(op: Operation, auditId: string, now: int): AuditEvent {
    OperationEvent(op, auditId, CANCEL, "succeeded", "kind=" + op.kind, now)
  }

  // ---- the operation records a step writes ----

  function FailedWith(op: Operation, code: string, now: int): Operation {
    op.(state := Failed, errorCode := code, errorMessage := "failed", finishedAt := now, updatedAt := now)
  }

  function CanceledAt(op: Operation, now: int): Operation {
    op.(state := Canceled, errorCode := "", errorMessage := "", finishedAt := now, updatedAt := now)
  }

  function StartedAt(op: Operation, now: int): Operation {
    op.(state := Running, startedAt := now, updatedAt := now)
  }

  function Unreported(op: Operation): Operation {
    op.(state := Failed, errorCode := "audit_failed", errorMessage := "failed")
  }

  function DefaultCode(kind: string): string {
    if kind in {"workload.scale", "workload.restart", "workload.image_update"} then "workload_operation_failed" else "helm_operation_failed"
  }

  /** The record after the job body returned. */
  function Outcome(op: Operation, error: JobError, stopped: bool, now: int): Operation {
    var done := op.(finishedAt := now, updatedAt := now);
    match error
    case NoError => done.(state := Succeeded)
    case ContextCanceled =>
      if stopped then done.(state := Unknown, errorCode := "operation_interrupted", errorMessage := "interrupted")
      else done.(state := Failed, errorCode := DefaultCode(op.kind), errorMessage := "failed")
    case OtherError(code) => done.(state := Failed, errorCode := code, errorMessage := "failed")
  }

  function ResultName(state: OperationState): string {
    if state == Succeeded then "succeeded" else if state == Unknown then "unknown" else "failed"
  }

  // ---- phases ----

  function JobIn(jobs: map<string, Job>, id: string): Job { if id in jobs then jobs[id] else Gone }

  function JobOf(s: State, id: string): Job { JobIn(s.jobs, id) }

  function WorkerOf(j: Job): Option<nat> {
    match j
    case Dequeued(w) => Some(w)
    case Waiting(w, _) => Some(w)
    case Holding(w, _) => Some(w)
    case Admitted(w, _) => Some(w)
    case Executing(w, _) => Some(w)
    case Reporting(w, _, _) => Some(w)
    case Writing(w, _) => Some(w)
    case FreeingSlot(w, _) => Some(w)
    case FreeingStripe(w, _) => Some(w)
    case Finishing(w) => Some(w)
    case _ => None
  }

  predicate HoldsStripe(j: Job) {
    j.Holding? || j.Admitted? || j.Executing? || j.Reporting? || j.Writing? || j.FreeingSlot? || j.FreeingStripe?
  }

  predicate HoldsSlot(j: Job) { j.Admitted? || j.Executing? || j.Reporting? || j.Writing? || j.FreeingSlot? }

  /** The job body has started and its outcome is not yet written. */
  predicate Runs(j: Job) { j.Executing? || j.Reporting? || j.Writing? }

  predicate Interruptible(j: Job) { j.Dequeued? || j.Waiting? || j.Holding? || j.Admitted? }

  predicate ContextDone(s: State, id: string) { s.stopped || id in s.canceled }

  // ---- what one step does ----

  /** A store call: the state it asks to commit, how it ends, and the record it writes. */
  datatype Call = NoCall | Call(next: Result<Data>, io: Io, writes: Option<Operation>)

  datatype LockStep = SameLocks | Lock(stripe: nat) | Unlock(stripe: nat)

  datatype SlotStep = SameSlots | Take | Give

  datatype QueueStep = SameQueue | Push | Pop(w: nat) | Rest(w: nat)

  datatype ControlStep = SameControls | Register | Drop

  /** The step of one job: its next phase and everything it touches on the way. */
  datatype Effect = Effect(
    id: string, job: Job, call: Call, lock: LockStep, slot: SlotStep, queue: QueueStep, control: ControlStep,
    source: Option<Operation>, begins: bool, withdraws: bool)

  function Plain(id: string, job: Job): Effect {
    Effect(id, job, NoCall, SameLocks, SameSlots, SameQueue, SameControls, None, false, false)
  }

  predicate Lands(call: Call) { call.Call? && call.next.Ok? && call.io.Works? }

  function NextData(data: Data, call: Call): Data { if Lands(call) then call.next.value else data }

  function NextRestorable(restorable: set<Data>, call: Call): set<Data> {
    if Lands(call) then {call.next.value}
    else if call.Call? && call.next.Ok? && call.io.Broken? then restorable + {call.next.value}
    else restorable
  }

  function NextMarks(marks: set<Mark>, call: Call): set<Mark> {
    if Lands(call) then marks + Marks(call.next.value.auditEvents) else marks
  }

  function NextFinished(finished: set<string>, call: Call): set<string> {
    if Lands(call) && call.writes.Some? && !InFlight(call.writes.value) then finished + {call.writes.value.id} else finished
  }

  function NextQueue(queue: seq<string>, e: Effect): seq<string> {
    match e.queue
    case Push => queue + [e.id]
    case Pop(_) => if queue == [] then [] else queue[1..]
    case _ => queue
  }

  function NextWorkers(workers: seq<Option<string>>, e: Effect): seq<Option<string>> {
    match e.queue
    case Pop(w) => if w < |workers| then workers[w := Some(e.id)] else workers
    case Rest(w) => if w < |workers| then workers[w := None] else workers
    case _ => workers
  }

  function NextStripes(stripes: map<nat, Who>, e: Effect): map<nat, Who> {
    match e.lock
    case SameLocks => stripes
    case Lock(k) => stripes[k := ByJob(e.id)]
    case Unlock(k) => stripes - {k}
  }

  function NextActive(active: int, e: Effect): int {
    match e.slot
    case SameSlots => active
    case Take => active + 1
    case Give => if active > 0 then active - 1 else active
  }

  function NextSlots(slots: set<string>, e: Effect): set<string> {
    match e.slot
    case SameSlots => slots
    case Take => slots + {e.id}
    case Give => slots - {e.id}
  }

  function NextControls(controls: set<string>, e: Effect): set<string> {
    match e.control
    case SameControls => controls
    case Register => controls + {e.id}
    case Drop => controls - {e.id}
  }

  function NextOrigin(origin: map<string, Operation>, e: Effect): map<string, Operation> {
    if e.source.Some? then origin[e.id := e.source.value] else origin
  }

  function NextRoster(roster: seq<string>, e: Effect): seq<string> {
    if e.source.Some? then roster + [e.id] else roster
  }

  function Including(ids: set<string>, more: bool, id: string): set<string> { if more then ids + {id} else ids }

  function Apply(s: State, e: Effect): State {
    State(s.governor, s.queueCap, s.striping, NextData(s.data, e.call), NextRestorable(s.restorable, e.call),
          s.jobs[e.id := e.job], NextQueue(s.queue, e), NextWorkers(s.workers, e), NextStripes(s.stripes, e),
          NextActive(s.active, e), NextControls(s.controls, e), Including(s.canceled, e.control.Drop?, e.id),
          s.copies, Including(s.signals, e.withdraws, e.id), s.stopped,
          NextOrigin(s.origin, e), NextRoster(s.roster, e), NextSlots(s.slots, e),
          if e.begins then s.began + [e.id] else s.began, Including(s.withdrawn, e.withdraws, e.id),
          NextFinished(s.finished, e.call), NextMarks(s.marks, e.call), s.unsynced && !Lands(e.call))
  }

  // ---- createAndEnqueueOperation ----

  function SubmitStep(op: Operation): Effect {
    Plain(op.id, Registered(op)).(control := Register, source := Some(op))
  }

  function CreateStep(d: Data, id: string, j: Job, io: Io): Effect
    requires j.Registered?
  {
    var call := Call(CreateNext(d, j.op), io, Some(j.op));
    Plain(id, if Lands(call) then Created(j.op) else Rejected(j.op)).(call := call)
  }

  function AuditSubmissionStep(d: Data, id: string, j: Job, io: Io, auditId: string, now: int): Effect
    requires j.Created?
  {
    var call := Call(AuditNext(d, OperationEvent(j.op, auditId, j.op.kind, "submitted", j.op.summary, now)), io, None);
    Plain(id, if Lands(call) then Audited(j.op) else AuditRefused(j.op)).(call := call)
  }

  function RejectUnauditedStep(d: Data, id: string, j: Job, io: Io, now: int): Effect
    requires j.AuditRefused?
  {
    var op := FailedWith(j.op, "audit_failed", now);
    Plain(id, Rejected(j.op)).(call := Call(TransitionNext(d, Queued, op, None), io, Some(op)))
  }

  function ReleaseRejectedStep(id: string): Effect { Plain(id, Gone).(control := Drop) }

  function EnqueueStep(id: string, j: Job, full: bool): Effect
    requires j.Audited?
  {
    if full then Plain(id, Full(j.op)) else Plain(id, InQueue).(queue := Push)
  }

  function ReleaseFullStep(id: string, j: Job): Effect
    requires j.Full?
  {
    Plain(id, Turned(j.op)).(control := Drop)
  }

  function RejectFullStep(d: Data, id: string, j: Job, io: Io, now: int): Effect
    requires j.Turned?
  {
    var op := FailedWith(j.op, "queue_full", now);
    var call := Call(TransitionNext(d, Queued, op, None), io, Some(op));
    Plain(id, if Lands(call) then Bounced(j.op) else Gone).(call := call)
  }

  function AuditFullStep(d: Data, id: string, j: Job, io: Io, auditId: string, now: int): Effect
    requires j.Bounced?
  {
    var op := FailedWith(j.op, "queue_full", now);
    Plain(id, Gone).(call := Call(AuditNext(d, OperationEvent(op, auditId, op.kind, "failed", op.errorCode, now)), io, None))
  }

  // ---- CancelOperation ----

  /** The canceller commits its copy and leaves the job, wherever it is, to find out. */
  function CancelStep(d: Data, j: Job, read: Operation, io: Io, auditId: string, now: int): Effect {
    var op := CanceledAt(read, now);
    var call := Call(TransitionNext(d, Queued, op, Some(CancelEvent(op, auditId, now))), io, Some(op));
    Plain(op.id, j).(call := call, withdraws := Lands(call))
  }

  // ---- worker and executeOperation ----

  function DequeueStep(id: string, w: nat): Effect { Plain(id, Dequeued(w)).(queue := Pop(w)) }

  function LoadStep(d: Data, id: string, j: Job): Effect
    requires j.Dequeued?
  {
    var found := Lookup(d.operations, id);
    Plain(id, if found.Some? && found.value.state == Queued then Waiting(j.w, found.value) else Finishing(j.w))
  }

  function TakeStripeStep(id: string, j: Job, stripe: nat): Effect
    requires j.Waiting?
  {
    Plain(id, Holding(j.w, j.op)).(lock := Lock(stripe))
  }

  function TakeSlotStep(id: string, j: Job): Effect
    requires j.Holding?
  {
    Plain(id, Admitted(j.w, j.op)).(slot := Take)
  }

  function AbortStep(id: string, j: Job): Effect
    requires Interruptible(j)
  {
    Plain(id, if j.Holding? then FreeingStripe(j.w, j.op) else if j.Admitted? then FreeingSlot(j.w, j.op) else Finishing(j.w))
  }

  function ClaimStep(d: Data, id: string, j: Job, io: Io, now: int): Effect
    requires j.Admitted?
  {
    var op := StartedAt(j.op, now);
    var call := Call(TransitionNext(d, Queued, op, None), io, Some(op));
    Plain(id, if Lands(call) then Executing(j.w, op) else FreeingSlot(j.w, j.op)).(call := call, begins := Lands(call))
  }

  function ReturnStep(id: string, j: Job, error: JobError, stopped: bool, now: int): Effect
    requires j.Executing?
  {
    var op := Outcome(j.op, error, stopped, now);
    Plain(id, Reporting(j.w, op, ResultName(op.state)))
  }

  function ReportStep(d: Data, id: string, j: Job, io: Io, auditId: string, now: int): Effect
    requires j.Reporting?
  {
    var call := Call(AuditNext(d, OperationEvent(j.op, auditId, j.op.kind, j.result, j.op.errorCode, now)), io, None);
    Plain(id, Writing(j.w, if Lands(call) then j.op else Unreported(j.op))).(call := call)
  }

  function WriteStep(d: Data, id: string, j: Job, io: Io): Effect
    requires j.Writing?
  {
    Plain(id, FreeingSlot(j.w, j.op)).(call := Call(UpdateNext(d, j.op), io, Some(j.op)))
  }

  function FreeSlotStep(id: string, j: Job): Effect
    requires j.FreeingSlot?
  {
    Plain(id, FreeingStripe(j.w, j.op)).(slot := Give)
  }

  function FreeStripeStep(id: string, j: Job, stripe: nat): Effect
    requires j.FreeingStripe?
  {
    Plain(id, Finishing(j.w)).(lock := Unlock(stripe))
  }

  function FinishStep(id: string, j: Job): Effect
    requires j.Finishing?
  {
    Plain(id, Gone).(control := Drop, queue := Rest(j.w))
  }

  predicate CanSubmit(s: State, id: string, j: Job, step: Step) {
    match step
    case Submit(op) => op.id == id != "" && id !in s.origin && op.state == Queued
    case Create(_) => j.Registered?
    case AuditSubmission(_, _, _) => j.Created?
    case RejectUnaudited(_, _) => j.AuditRefused?
    case ReleaseRejected => j.Rejected?
    case Enqueue => j.Audited?
    case ReleaseFull => j.Full?
    case RejectFull(_, _) => j.Turned?
    case AuditFull(_, _, _) => j.Bounced?
    case Cancel(read, _, _, _) => read.id == id && read in s.copies
    case _ => false
  }

  predicate CanWork(s: State, id: string, j: Job, step: Step) {
    match step
    case Dequeue(w) => w < |s.workers| && s.workers[w].None? && s.queue != [] && s.queue[0] == id
    case Load => j.Dequeued?
    case TakeStripe => j.Waiting? && StripeOf(s.striping, j.op) !in s.stripes
    case TakeSlot(sample) => j.Holding? && s.active < Limit(s.governor, sample)
    case Abort => Interruptible(j) && ContextDone(s, id)
    case Claim(_, _) => j.Admitted?
    case Return(_, _) => j.Executing?
    case Report(_, _, _) => j.Reporting?
    case Write(_) => j.Writing?
    case FreeSlot => j.FreeingSlot?
    case FreeStripe => j.FreeingStripe?
    case Finish => j.Finishing?
    case _ => false
  }

  function SubmitterEffect(s: State, id: string, j: Job, step: Step): Effect
    requires CanSubmit(s, id, j, step)
  {
    match step
    case Submit(op) => SubmitStep(op)
    case Create(io) => CreateStep(s.data, id, j, io)
    case AuditSubmission(io, auditId, now) => AuditSubmissionStep(s.data, id, j, io, auditId, now)
    case RejectUnaudited(io, now) => RejectUnauditedStep(s.data, id, j, io, now)
    case ReleaseRejected => ReleaseRejectedStep(id)
    case Enqueue => EnqueueStep(id, j, |s.queue| >= s.queueCap)
    case ReleaseFull => ReleaseFullStep(id, j)
    case RejectFull(io, now) => RejectFullStep(s.data, id, j, io, now)
    case AuditFull(io, auditId, now) => AuditFullStep(s.data, id, j, io, auditId, now)
    case Cancel(read, io, auditId, now) => CancelStep(s.data, j, read, io, auditId, now)
  }

  function WorkerEffect(s: State, id: string, j: Job, step: Step): Effect
    requires CanWork(s, id, j, step)
  {
    match step
    case Dequeue(w) => DequeueStep(id, w)
    case Load => LoadStep(s.data, id, j)
    case TakeStripe => TakeStripeStep(id, j, StripeOf(s.striping, j.op))
    case TakeSlot(_) => TakeSlotStep(id, j)
    case Abort => AbortStep(id, j)
    case Claim(io, now) => ClaimStep(s.data, id, j, io, now)
    case Return(error, now) => ReturnStep(id, j, error, s.stopped, now)
    case Report(io, auditId, now) => ReportStep(s.data, id, j, io, auditId, now)
    case Write(io) => WriteStep(s.data, id, j, io)
    case FreeSlot => FreeSlotStep(id, j)
    case FreeStripe => FreeStripeStep(id, j, StripeOf(s.striping, j.op))
    case Finish => FinishStep(id, j)
  }

  /** The files that an Open may leave when it fails, beside those it could find. */
  function Attempted(files: set<Data>, r: Reopening): set<Data> { files + {Trimmed(r.found), Reopened(r.found, r.now)} }

  function Files(files: set<Data>, failed: seq<Reopening>): set<Data>
    decreases |failed|
  {
    if failed == [] then files else Files(Attempted(files, failed[0]), failed[1..])
  }

  /** Each failed Open found one of the files left to it. */
  predicate CanFail(files: set<Data>, failed: seq<Reopening>)
    decreases |failed|
  {
    failed != [] ==> failed[0].found in files && CanFail(Attempted(files, failed[0]), failed[1..])
  }

  predicate Enabled(s: State, a: Action) {
    match a
    case Act(id, step) => CanSubmit(s, id, JobOf(s, id), step) || CanWork(s, id, JobOf(s, id), step)
    case ReadForCancel(id) => Lookup(s.data.operations, id).Some? && Lookup(s.data.operations, id).value.state == Queued
    case Signal(id) => id in s.signals
    case LockApi(stripe) => stripe < Stripes.STRIPES && stripe !in s.stripes
    case UnlockApi(stripe) => stripe in s.stripes && s.stripes[stripe] == ByApi
    case Other(_, _, audit, _) => audit.Some? ==> audit.value.operationId == "" && !AuditIdTaken(s.data, audit.value.id)
    case Stop => true
    case CancelAll => s.stopped
    case Restart(failed, found, left, _) => CanFail(s.restorable, failed) && found in left && left <= Files(s.restorable, failed)
  }

  function Ids(ops: seq<Operation>): set<string> { set op | op in ops :: op.id }

  function FinishedIn(ops: seq<Operation>): set<string> {
    set id | id in Ids(ops) && Lookup(ops, id).Some? && !InFlight(Lookup(ops, id).value)
  }

  /** Opening a file writes exactly if it trims or interrupts something. */
  predicate Rewrites(found: Data, now: int) { Reopened(found, now) != found }

  /** A new process on the state found in the store file. Crashes left the states of `left` to be read:
      only `found` after a power loss, or whatever the directory was not synced against. If opening
      writes nothing, it syncs nothing either, and they remain. */
  function Reboot(s: State, found: Data, left: set<Data>, now: int): State {
    var data := Reopened(found, now);
    s.(data := data, restorable := if Rewrites(found, now) then {data} else left,
       jobs := map[], queue := [], workers := seq(|s.workers|, _ => None),
       stripes := map[], active := 0, controls := {}, canceled := {}, copies := {}, signals := {}, stopped := false,
       roster := [], slots := {}, finished := s.finished + FinishedIn(data.operations),
       marks := s.marks + Marks(found.auditEvents), unsynced := !Rewrites(found, now) && left != {found})
  }

  /** A commit of other parts of the store: clusters, repositories, audit events of no operation. */
  function OtherNext(d: Data, clusters: seq<Cluster>, repositories: seq<Repository>, audit: Option<AuditEvent>): Data {
    var next := d.(clusters := clusters, repositories := repositories);
    if audit.Some? then AppendAudit(next, audit.value) else next
  }

  function Committed(s: State, call: Call): State {
    s.(data := NextData(s.data, call), restorable := NextRestorable(s.restorable, call), marks := NextMarks(s.marks, call),
       unsynced := s.unsynced && !Lands(call))
  }

  /** The control is canceled only if it is still in the map. */
  function Signaled(s: State, id: string): State {
    s.(signals := s.signals - {id}, controls := s.controls - {id}, canceled := Including(s.canceled, id in s.controls, id))
  }

  function Do(s: State, a: Action): State
    requires Enabled(s, a)
  {
    match a
    case Act(id, step) =>
      var j := JobOf(s, id);
      Apply(s, if CanWork(s, id, j, step) then WorkerEffect(s, id, j, step) else SubmitterEffect(s, id, j, step))
    case ReadForCancel(id) => s.(copies := s.copies + {Lookup(s.data.operations, id).value})
    case Signal(id) => Signaled(s, id)
    case LockApi(stripe) => s.(stripes := s.stripes[stripe := ByApi])
    case UnlockApi(stripe) => s.(stripes := s.stripes - {stripe})
    case Other(clusters, repositories, audit, io) => Committed(s, Call(Ok(OtherNext(s.data, clusters, repositories, audit)), io, None))
    case Stop => s.(stopped := true)
    case CancelAll => s.(canceled := s.canceled + s.controls, controls := {})
    case Restart(_, found, left, now) => Reboot(s, found, left, now)
  }

  function Start(governor: Config, queueCap: nat, striping: Striping, workers: nat): State {
    State(governor, queueCap, striping, EMPTY, {EMPTY}, map[], [], seq(workers, _ => None), map[], 0, {}, {}, {}, {}, false,
          map[], [], {}, [], {}, {}, {}, false)
  }

  /** A run lists the actions taken; each must be enabled where it is taken. */
  predicate IsRun(s: State, run: seq<Action>)
    decreases |run|
  {
    run == [] || (Enabled(s, run[0]) && IsRun(Do(s, run[0]), run[1..]))
  }

  function After(s: State, run: seq<Action>): State
    requires IsRun(s, run)
    decreases |run|
  {
    if run == [] then s else After(Do(s, run[0]), run[1..])
  }
}
