/** The channel between submitters and workers, the contexts that cancellations reach, and the parts of
    the store that operations leave alone. */
module ProtocolQueue {
  import opened Common
  import opened Records
  import opened StoreSteps
  import opened StoreAnswers
  import opened Governing
  import opened Protocol
  import opened ProtocolInvariant
  import opened ProtocolSteps
  import opened ProtocolSafety
  import opened ProtocolTheorems
  import opened ProtocolRecords

  // ---- the channel is bounded, and first in is first out ----

  /** What a step appends to the queue. */
  function Entering(s: State, a: Action): seq<string>
    requires Enabled(s, a)
  {
    if a.Act? && a.step.Enqueue? && JobOf(Do(s, a), a.id).InQueue? then [a.id] else []
  }

  /** What a worker takes from it. */
  function Leaving(a: Action): seq<string> { if a.Act? && a.step.Dequeue? then [a.id] else [] }

  function Entered(s: State, run: seq<Action>): seq<string>
    requires IsRun(s, run)
    decreases |run|
  {
    if run == [] then [] else Entering(s, run[0]) + Entered(Do(s, run[0]), run[1..])
  }

  function Left(run: seq<Action>): seq<string> { if run == [] then [] else Leaving(run[0]) + Left(run[1..]) }

  lemma Admission(s: State, id: string, full: bool, t: State)
    requires JobOf(s, id).Audited? && t == Apply(s, EnqueueStep(id, JobOf(s, id), full))
    ensures if full then JobOf(t, id).Full? && t.queue == s.queue else JobOf(t, id).InQueue? && t.queue == s.queue + [id]
  {
  }

  lemma EnqueueIsEnabled(s: State, id: string)
    requires JobOf(s, id).Audited?
    ensures Enabled(s, Act(id, Enqueue))
    ensures Do(s, Act(id, Enqueue)) == Apply(s, EnqueueStep(id, JobOf(s, id), |s.queue| >= s.queueCap))
  {
  }

  /** A submission enters the channel exactly if it has room; otherwise it is turned away. */
  lemma TurnedAwayIffFull(s: State, id: string)
    requires JobOf(s, id).Audited?
    ensures var a := Act(id, Enqueue);
            && Enabled(s, a)
            && var t := Do(s, a);
               if |s.queue| < s.queueCap then JobOf(t, id).InQueue? && t.queue == s.queue + [id]
               else JobOf(t, id).Full? && t.queue == s.queue
  {
    EnqueueIsEnabled(s, id);
    Admission(s, id, |s.queue| >= s.queueCap, Do(s, Act(id, Enqueue)));
  }

  lemma ActQueues(s: State, id: string, step: Step, e: Effect)
    requires Enabled(s, Act(id, step)) && e == StepEffect(s, id, step) && !step.Enqueue?
    ensures if step.Dequeue? then e.queue.Pop? && s.queue != [] && s.queue[0] == id else !e.queue.Push? && !e.queue.Pop?
  {
  }

  lemma EnqueueMoves(s: State, id: string)
    requires Inv(s) && Enabled(s, Act(id, Enqueue))
    ensures s.queue + Entering(s, Act(id, Enqueue)) == Do(s, Act(id, Enqueue)).queue
  {
    StepContext(s, id, Enqueue);
    TurnedAwayIffFull(s, id);
    assert s.queue + [] == s.queue;
  }

  lemma ActMoves(s: State, id: string, step: Step, e: Effect)
    requires Enabled(s, Act(id, step)) && e == StepEffect(s, id, step) && !step.Enqueue?
    ensures s.queue == Leaving(Act(id, step)) + Do(s, Act(id, step)).queue
  {
    ActQueues(s, id, step, e);
    FieldsAfter(s, e, Do(s, Act(id, step)));
    assert step.Dequeue? ==> s.queue == [id] + s.queue[1..];
  }

  lemma StepQueues(s: State, a: Action)
    requires Inv(s) && Enabled(s, a) && !a.Restart?
    ensures s.queue + Entering(s, a) == Leaving(a) + Do(s, a).queue
  {
    if !a.Act? {
      assert Do(s, a).queue == s.queue;
    } else if a.step.Enqueue? {
      EnqueueMoves(s, a.id);
    } else {
      ActMoves(s, a.id, a.step, StepEffect(s, a.id, a.step));
    }
  }

  lemma StepIsBounded(s: State, a: Action)
    requires Inv(s) && Enabled(s, a) && |s.queue| <= s.queueCap
    ensures |Do(s, a).queue| <= Do(s, a).queueCap == s.queueCap
  {
    if !a.Restart? {
      StepQueues(s, a);
      if a.Act? && a.step.Enqueue? {
        StepContext(s, a.id, a.step);
        TurnedAwayIffFull(s, a.id);
      } else {
        assert |s.queue + []| == |Leaving(a)| + |Do(s, a).queue|;
      }
    }
  }

  lemma InTurn(
    queue: seq<string>, entering: seq<string>, leaving: seq<string>, next: seq<string>, later: seq<string>, left: seq<string>, last: seq<string>)
    requires queue + entering == leaving + next && next + later == left + last
    ensures queue + (entering + later) == (leaving + left) + last
  {
    assert queue + (entering + later) == (queue + entering) + later;
    assert (leaving + next) + later == leaving + (next + later);
    assert leaving + (left + last) == (leaving + left) + last;
  }

  /** Workers take operations in exactly the order in which they were admitted: none is lost in the
      channel, doubled or overtaken. */
  lemma {:induction false} FirstInFirstOut(s: State, run: seq<Action>)
    requires Inv(s) && IsRun(s, run) && forall i :: 0 <= i < |run| ==> !run[i].Restart?
    ensures s.queue + Entered(s, run) == Left(run) + After(s, run).queue
    decreases |run|
  {
    if run == [] {
      assert s.queue + [] == [] + s.queue;
    } else {
      var t := Do(s, run[0]);
      StepQueues(s, run[0]);
      StepKept(s, run[0]);
      FirstInFirstOut(t, run[1..]);
      InTurn(s.queue, Entering(s, run[0]), Leaving(run[0]), t.queue, Entered(t, run[1..]), Left(run[1..]), After(s, run).queue);
    }
  }

  lemma {:induction false} QueueStaysBounded(s: State, run: seq<Action>)
    requires Inv(s) && IsRun(s, run) && |s.queue| <= s.queueCap
    ensures |After(s, run).queue| <= After(s, run).queueCap == s.queueCap
    decreases |run|
  {
    if run != [] {
      StepIsBounded(s, run[0]);
      StepKept(s, run[0]);
      QueueStaysBounded(Do(s, run[0]), run[1..]);
    }
  }

  /** So a submission is turned away only when the channel holds exactly its capacity. */
  lemma QueueIsBounded(s: State)
    requires Reachable(s)
    ensures |s.queue| <= s.queueCap
  {
    var start, run :| Initial(start) && IsRun(start, run) && After(start, run) == s;
    InitialHolds(start);
    QueueStaysBounded(start, run);
  }

  // ---- a cancellation reaches the job ----

  /** The phases in which a job has its control. */
  predicate Controlled(j: Job) { !j.Gone? && !j.Turned? && !j.Bounced? }

  /** The context of every controlled job is canceled or can still be, and a signal leaves no control. */
  ghost predicate ContextsOk(s: State) {
    && (forall id :: Controlled(JobOf(s, id)) ==> id in s.controls || id in s.canceled)
    && (forall id :: id in s.withdrawn && id !in s.signals ==> id !in s.controls)
  }

  predicate ControlFits(j: Job, e: Effect) {
    && (Controlled(e.job) ==> Controlled(j) || e.control.Register?)
    && (e.control.Drop? ==> !Controlled(e.job))
    && (e.control.Register? <==> e.source.Some?)
  }

  lemma SubmitterControls(s: State, id: string, j: Job, step: Step, e: Effect)
    requires CanSubmit(s, id, j, step) && e == SubmitterEffect(s, id, j, step)
    ensures ControlFits(j, e)
  {
  }

  lemma WorkerControls(s: State, id: string, j: Job, step: Step, e: Effect)
    requires CanWork(s, id, j, step) && e == WorkerEffect(s, id, j, step) && (step.Dequeue? ==> j.InQueue?)
    ensures ControlFits(j, e)
  {
  }

  lemma StepControls(s: State, id: string, step: Step, e: Effect)
    requires Inv(s) && Enabled(s, Act(id, step)) && e == StepEffect(s, id, step)
    ensures ControlFits(JobOf(s, id), e)
  {
    StepContext(s, id, step);
    if CanWork(s, id, JobOf(s, id), step) {
      WorkerControls(s, id, JobOf(s, id), step, e);
    } else {
      SubmitterControls(s, id, JobOf(s, id), step, e);
    }
  }

  lemma EffectContexts(s: State, e: Effect, t: State)
    requires ContextsOk(s) && t == Apply(s, e) && ControlFits(JobOf(s, e.id), e) && (e.source.Some? ==> e.id !in s.withdrawn)
    ensures ContextsOk(t)
  {
    forall id | Controlled(JobOf(t, id))
      ensures id in t.controls || id in t.canceled
    {
      assert id != e.id ==> JobOf(t, id) == JobOf(s, id);
    }
  }

  lemma StepContexts(s: State, a: Action)
    requires Inv(s) && Enabled(s, a) && ContextsOk(s)
    ensures ContextsOk(Do(s, a))
  {
    var t := Do(s, a);
    if a.Act? {
      var e := StepEffect(s, a.id, a.step);
      ActShape(s, a.id, a.step, e);
      StepControls(s, a.id, a.step, e);
      assert OpOk(ViewOf(s, a.id), s.stopped);
      EffectContexts(s, e, t);
    } else if a.Restart? {
      assert t.jobs == map[] && t.controls == {};
    } else {
      assert t.jobs == s.jobs;
    }
  }

  lemma {:induction false} RunContexts(s: State, run: seq<Action>)
    requires Inv(s) && IsRun(s, run) && ContextsOk(s)
    ensures ContextsOk(After(s, run))
    decreases |run|
  {
    if run != [] {
      StepContexts(s, run[0]);
      StepKept(s, run[0]);
      RunContexts(Do(s, run[0]), run[1..]);
    }
  }

  lemma ReachableContexts(s: State)
    requires Reachable(s)
    ensures ContextsOk(s)
  {
    var start, run :| Initial(start) && IsRun(start, run) && After(start, run) == s;
    InitialHolds(start);
    InitialContexts(start);
    RunContexts(start, run);
  }

  lemma InitialContexts(s: State)
    requires Initial(s)
    ensures ContextsOk(s)
  {
  }

  /** After a successful cancellation and its signal, the context of the job is done wherever the job
      has got to: a worker that waits for the stripe or a slot with it can give up. */
  lemma SignaledJobMayStop(s: State, id: string)
    requires Reachable(s) && id in s.withdrawn && id !in s.signals && Interruptible(JobOf(s, id))
    ensures Enabled(s, Act(id, Abort))
  {
    ReachableContexts(s);
  }

  /** After a stop the same holds of every job that has not started. */
  lemma StoppedJobMayStop(s: State, id: string)
    requires Interruptible(JobOf(s, id))
    ensures Enabled(Do(s, Stop), Act(id, Abort))
  {
    assert JobOf(Do(s, Stop), id) == JobOf(s, id);
  }

  /** An API call gets a stripe exactly if no job and no other call holds it, and then no job gets it. */
  lemma ApiCallsExcludeJobs(s: State, stripe: nat, id: string)
    requires Reachable(s) && HoldsStripe(JobOf(s, id)) && StripeOf(s.striping, JobOf(s, id).op) == stripe
    ensures !Enabled(s, LockApi(stripe))
  {
    ReachableKeepsInv(s);
    assert HoldsStripe(JobIn(s.jobs, id));
  }

  lemma JobsWaitForApiCalls(s: State, stripe: nat, id: string)
    requires Reachable(s) && Enabled(s, LockApi(stripe))
    requires JobOf(s, id).Waiting? && StripeOf(s.striping, JobOf(s, id).op) == stripe
    ensures !Enabled(Do(s, LockApi(stripe)), Act(id, TakeStripe))
    ensures Enabled(Do(s, LockApi(stripe)), UnlockApi(stripe))
  {
    var t := Do(s, LockApi(stripe));
    assert JobOf(t, id) == JobOf(s, id) && t.stripes == s.stripes[stripe := ByApi];
  }

  // ---- slots are the governor's ----

  /** A job that holds its stripe gets a slot exactly when the governor, with as many grants open as there
      are slots taken, admits one for this sample; the count goes up and down with grants and releases. */
  lemma SlotsFollowGovernor(s: State, id: string, sample: Sample)
    requires JobOf(s, id).Holding?
    ensures var after := Post(s.governor, Ledger(s.active, |s.slots|, {}), Try(sample));
            && (Enabled(s, Act(id, TakeSlot(sample))) <==> after.granted > |s.slots|)
            && (after.granted > |s.slots| ==>
                  JobOf(Do(s, Act(id, TakeSlot(sample))), id).Admitted? && Do(s, Act(id, TakeSlot(sample))).active == after.active)
  {
  }

  lemma SlotIsReleased(s: State, id: string)
    requires Inv(s) && JobOf(s, id).FreeingSlot?
    ensures var a, after := Act(id, FreeSlot), Post(s.governor, Ledger(s.active, s.active, {}), Release(s.active - 1));
            Enabled(s, a) && !HoldsSlot(JobOf(Do(s, a), id)) && Do(s, a).active == after.active == s.active - 1
  {
    assert HoldsSlot(JobIn(s.jobs, id)) && id in s.slots;
  }

  /** Under critical pressure nothing starts. */
  lemma NothingStartsUnderCriticalPressure(s: State, id: string, sample: Sample)
    requires Inv(s) && s.governor.enabled && (Reaches(sample.memory, s.governor.critical) || Reaches(sample.load, s.governor.critical))
    ensures !Enabled(s, Act(id, TakeSlot(sample)))
  {
    LimitBounds(s.governor, sample);
  }

  // ---- what operations leave alone ----

  predicate CallSparesElsewhere(d: Data, call: Call) { call.Call? && call.next.Ok? ==> SameElsewhere(call.next.value, d) }

  lemma SubmitterSpares(s: State, id: string, j: Job, step: Step, e: Effect)
    requires CanSubmit(s, id, j, step) && e == SubmitterEffect(s, id, j, step)
    ensures CallSparesElsewhere(s.data, e.call)
  {
  }

  lemma WorkerSpares(s: State, id: string, j: Job, step: Step, e: Effect)
    requires CanWork(s, id, j, step) && e == WorkerEffect(s, id, j, step)
    ensures CallSparesElsewhere(s.data, e.call)
  {
  }

  lemma CallSpares(s: State, id: string, step: Step, e: Effect)
    requires Enabled(s, Act(id, step)) && e == StepEffect(s, id, step)
    ensures SameElsewhere(NextData(s.data, e.call), s.data)
    ensures CallSparesElsewhere(s.data, e.call)
  {
    if CanWork(s, id, JobOf(s, id), step) {
      WorkerSpares(s, id, JobOf(s, id), step, e);
    } else {
      SubmitterSpares(s, id, JobOf(s, id), step, e);
    }
  }

  /** A commit of other data sets clusters and repositories, adds its audit event, if any, and leaves the
      operations alone; one that does not land changes nothing. */
  lemma OtherCommits(s: State, clusters: seq<Cluster>, repositories: seq<Repository>, audit: Option<AuditEvent>, io: Io)
    requires Enabled(s, Other(clusters, repositories, audit, io))
    ensures var before, after := s.data, Do(s, Other(clusters, repositories, audit, io)).data;
            if !io.Works? then after == before
            else
              && after.operations == before.operations && after.schemaVersion == before.schemaVersion
              && after.clusters == clusters && after.repositories == repositories
              && if audit.None? then after.auditEvents == before.auditEvents else Logs(before.auditEvents, audit.value, after.auditEvents)
  {
    var next := OtherNext(s.data, clusters, repositories, audit);
    assert Do(s, Other(clusters, repositories, audit, io)).data == NextData(s.data, Call(Ok(next), io, None));
    if audit.Some? {
      LogsAppended(s.data.(clusters := clusters, repositories := repositories), audit.value);
    }
  }

  lemma RestartShowsFound(s: State, found: Data, left: set<Data>, now: int)
    ensures SameElsewhere(Reboot(s, found, left, now).data, found)
  {
    assert Reboot(s, found, left, now).data == Reopened(found, now);
  }

  /** No step but such a commit and a restart changes clusters or repositories, and a restart shows those
      of the file found. */
  lemma OnlyOthersChangeClusters(s: State, a: Action)
    requires Enabled(s, a) && !a.Other?
    ensures SameElsewhere(Do(s, a).data, if a.Restart? then a.found else s.data)
  {
    if a.Act? {
      CallSpares(s, a.id, a.step, StepEffect(s, a.id, a.step));
    } else if a.Restart? {
      RestartShowsFound(s, a.found, a.left, a.now);
    }
  }

  lemma ActFiles(s: State, id: string, step: Step, e: Effect, d: Data)
    requires Enabled(s, Act(id, step)) && e == StepEffect(s, id, step) && d in Do(s, Act(id, step)).restorable
    ensures d in s.restorable || (e.call.Call? && e.call.next == Ok(d))
  {
    assert Do(s, Act(id, step)).restorable == NextRestorable(s.restorable, e.call);
  }

  /** Every file that a crash may bring back has the clusters of memory, of a file that was there before,
      or of a commit of other data: operations never damage them. */
  lemma FilesKeepClusters(s: State, a: Action, d: Data)
    requires Inv(s) && Enabled(s, a) && !a.Restart? && !a.Other? && d in Do(s, a).restorable
    ensures exists c :: c in s.restorable && SameElsewhere(d, c)
  {
    assert s.data in s.restorable && SameElsewhere(d, d);
    if a.Act? {
      var e := StepEffect(s, a.id, a.step);
      CallSpares(s, a.id, a.step, e);
      ActFiles(s, a.id, a.step, e, d);
    }
  }
}
