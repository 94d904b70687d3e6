/** Work drains: while a job is carried somewhere, somebody can act, and no schedule acts forever. */
module ProtocolProgress {
  import opened Common
  import opened Records
  import opened StoreSteps
  import opened Governing
  import opened Protocol
  import opened ProtocolInvariant
  import opened ProtocolSteps
  import opened ProtocolEffects
  import opened ProtocolSafety
  import opened ProtocolTheorems
  import opened ProtocolStranded

  /** A step that finishes work at hand: every step of a job but its submission and cancellation,
      and the end of an API call that holds a stripe. API calls only ever try to lock. */
  predicate Internal(a: Action) {
    a.UnlockApi? || (a.Act? && !a.step.Submit? && !a.step.Cancel?)
  }

  predicate Samples(a: Action, sample: Sample) { a.Act? && a.step.TakeSlot? ==> a.step.sample == sample }

  ghost predicate Quiet(s: State) { forall id :: JobOf(s, id).Gone? }

  // ---- somebody can act ----

  /** The step that is always open to a job that waits for nothing. */
  function OpenStep(j: Job): Option<Step> {
    match j
    case Registered(_) => Some(Create(Works))
    case Created(_) => Some(AuditSubmission(Works, "", 0))
    case Audited(_) => Some(Enqueue)
    case AuditRefused(_) => Some(RejectUnaudited(Works, 0))
    case Rejected(_) => Some(ReleaseRejected)
    case Full(_) => Some(ReleaseFull)
    case Turned(_) => Some(RejectFull(Works, 0))
    case Bounced(_) => Some(AuditFull(Works, "", 0))
    case Dequeued(_) => Some(Load)
    case Admitted(_, _) => Some(Claim(Works, 0))
    case Executing(_, _) => Some(Return(NoError, 0))
    case Reporting(_, _, _) => Some(Report(Works, "", 0))
    case Writing(_, _) => Some(Write(Works))
    case FreeingSlot(_, _) => Some(FreeSlot)
    case FreeingStripe(_, _) => Some(FreeStripe)
    case Finishing(_) => Some(Finish)
    case _ => None
  }

  lemma OpenStepIsEnabled(s: State, id: string)
    requires OpenStep(JobOf(s, id)).Some?
    ensures Enabled(s, Act(id, OpenStep(JobOf(s, id)).value)) && Internal(Act(id, OpenStep(JobOf(s, id)).value))
    ensures !OpenStep(JobOf(s, id)).value.TakeSlot?
  {
  }

  lemma HolderActs(s: State, sample: Sample, id: string) returns (a: Action)
    requires SlotsOk(s.governor, s.jobs, s.active, s.slots) && Limit(s.governor, sample) >= 1 && HoldsStripe(JobOf(s, id))
    ensures Internal(a) && Enabled(s, a) && Samples(a, sample)
  {
    var x := id;
    if JobOf(s, id).Holding? {
      if s.active < Limit(s.governor, sample) {
        return Act(id, TakeSlot(sample));
      }
      assert s.slots != {};
      x :| x in s.slots;
      assert HoldsSlot(JobIn(s.jobs, x));
    }
    OpenStepIsEnabled(s, x);
    a := Act(x, OpenStep(JobOf(s, x)).value);
  }

  lemma WorkerActs(s: State, sample: Sample, id: string) returns (a: Action)
    requires SlotsOk(s.governor, s.jobs, s.active, s.slots) && LocksOk(s.striping, s.jobs, s.stripes)
    requires Limit(s.governor, sample) >= 1 && WorkerOf(JobOf(s, id)).Some?
    ensures Internal(a) && Enabled(s, a) && Samples(a, sample)
  {
    var j := JobOf(s, id);
    if j.Waiting? {
      var k := StripeOf(s.striping, j.op);
      if k !in s.stripes {
        return Act(id, TakeStripe);
      }
      match s.stripes[k]
      case ByApi => a := UnlockApi(k);
      case ByJob(x) =>
        assert HoldsStripe(JobIn(s.jobs, x));
        a := HolderActs(s, sample, x);
    } else if j.Holding? {
      a := HolderActs(s, sample, id);
    } else {
      OpenStepIsEnabled(s, id);
      a := Act(id, OpenStep(j).value);
    }
  }

  /** From every state of a service that is not stopped in which a job is carried, with at least one
      worker and a sample that leaves room for one operation, some step is enabled: stripe-then-slot
      order cannot deadlock. */
  lemma SomebodyActs(s: State, sample: Sample, id: string) returns (a: Action)
    requires Inv(s) && !s.stopped && |s.workers| > 0 && Limit(s.governor, sample) >= 1 && !JobOf(s, id).Gone?
    ensures Internal(a) && Enabled(s, a) && Samples(a, sample)
  {
    var j := JobOf(s, id);
    if j.InQueue? {
      assert JobIn(s.jobs, id).InQueue?;
      if s.workers[0].None? {
        a := Act(s.queue[0], Dequeue(0));
      } else {
        assert WorkerOf(JobIn(s.jobs, s.workers[0].value)) == Some(0);
        a := WorkerActs(s, sample, s.workers[0].value);
      }
    } else if WorkerOf(j).Some? {
      a := WorkerActs(s, sample, id);
    } else {
      OpenStepIsEnabled(s, id);
      a := Act(id, OpenStep(j).value);
    }
  }

  // ---- nobody acts forever ----

  function Weight(j: Job): nat {
    match j
    case Registered(_) => 16
    case Created(_) => 15
    case Audited(_) => 14
    case AuditRefused(_) => 14
    case Full(_) => 13
    case InQueue => 13
    case Dequeued(_) => 12
    case Turned(_) => 12
    case Waiting(_, _) => 11
    case Bounced(_) => 11
    case Holding(_, _) => 10
    case Admitted(_, _) => 9
    case Executing(_, _) => 8
    case Reporting(_, _, _) => 7
    case Writing(_, _) => 6
    case FreeingSlot(_, _) => 5
    case FreeingStripe(_, _) => 4
    case Finishing(_) => 3
    case Rejected(_) => 2
    case Gone => 0
  }

  function Work(jobs: map<string, Job>, roster: seq<string>): nat {
    if roster == [] then 0 else Weight(JobIn(jobs, roster[0])) + Work(jobs, roster[1..])
  }

  function ApiStripes(stripes: map<nat, Who>): set<nat> { set k | k in stripes && stripes[k] == ByApi }

  function Rank(s: State): nat { Work(s.jobs, s.roster) + |ApiStripes(s.stripes)| }

  lemma {:induction false} WorkUpdate(jobs: map<string, Job>, roster: seq<string>, id: string, job: Job)
    requires Distinct(roster)
    ensures id !in roster ==> Work(jobs[id := job], roster) == Work(jobs, roster)
    ensures id in roster ==> Work(jobs[id := job], roster) + Weight(JobIn(jobs, id)) == Work(jobs, roster) + Weight(job)
  {
    if roster != [] {
      WorkUpdate(jobs, roster[1..], id, job);
      assert roster == [roster[0]] + roster[1..];
    }
  }

  lemma SubmitterLowers(s: State, id: string, j: Job, step: Step, e: Effect)
    requires CanSubmit(s, id, j, step) && e == SubmitterEffect(s, id, j, step) && !step.Submit? && !step.Cancel?
    ensures Weight(e.job) < Weight(j) && e.source.None?
  {
  }

  predicate Approaches(step: Step) { step.Dequeue? || step.Load? || step.TakeStripe? || step.TakeSlot? || step.Abort? || step.Claim? }

  lemma ApproachLowers(s: State, id: string, j: Job, step: Step, e: Effect)
    requires CanWork(s, id, j, step) && e == WorkerEffect(s, id, j, step) && Approaches(step) && (step.Dequeue? ==> j.InQueue?)
    ensures Weight(e.job) < Weight(j)
  {
  }

  lemma ExecutionLowers(s: State, id: string, j: Job, step: Step, e: Effect)
    requires CanWork(s, id, j, step) && e == WorkerEffect(s, id, j, step) && !Approaches(step)
    ensures Weight(e.job) < Weight(j)
  {
  }

  lemma WorkerLowers(s: State, id: string, j: Job, step: Step, e: Effect)
    requires CanWork(s, id, j, step) && e == WorkerEffect(s, id, j, step) && (step.Dequeue? ==> j.InQueue?)
    ensures Weight(e.job) < Weight(j)
  {
    if Approaches(step) {
      ApproachLowers(s, id, j, step, e);
    } else {
      ExecutionLowers(s, id, j, step, e);
    }
  }

  lemma WorkerSubmitsNothing(s: State, id: string, j: Job, step: Step, e: Effect)
    requires CanWork(s, id, j, step) && e == WorkerEffect(s, id, j, step)
    ensures e.source.None?
  {
  }

  lemma ApiStripesStay(f: Striping, jobs: map<string, Job>, stripes: map<nat, Who>, e: Effect)
    requires LocksOk(f, jobs, stripes) && LockFits(f, JobIn(jobs, e.id), e) && (e.lock.Lock? ==> e.lock.stripe !in stripes)
    ensures ApiStripes(NextStripes(stripes, e)) == ApiStripes(stripes)
  {
    var next := NextStripes(stripes, e);
    if e.lock.Unlock? {
      assert HoldsStripe(JobIn(jobs, e.id));
      assert e.lock.stripe in stripes && stripes[e.lock.stripe] == ByJob(e.id);
    }
  }

  lemma EffectLowers(s: State, e: Effect, t: State)
    requires t.jobs == s.jobs[e.id := e.job] && t.stripes == NextStripes(s.stripes, e) && t.roster == s.roster
    requires RosterOk(s.jobs, s.roster, s.origin) && Weight(e.job) < Weight(JobOf(s, e.id))
    requires ApiStripes(t.stripes) == ApiStripes(s.stripes)
    ensures Rank(t) < Rank(s)
  {
    WorkUpdate(s.jobs, s.roster, e.id, e.job);
    assert !JobIn(s.jobs, e.id).Gone?;
  }

  lemma ActLowers(s: State, id: string, step: Step, e: Effect, t: State)
    requires Inv(s) && Enabled(s, Act(id, step)) && Internal(Act(id, step)) && e == StepEffect(s, id, step) && t == Apply(s, e)
    ensures Rank(t) < Rank(s)
  {
    var j := JobOf(s, id);
    ActShape(s, id, step, e);
    StepContext(s, id, step);
    if CanWork(s, id, j, step) {
      WorkerLowers(s, id, j, step, e);
      WorkerSubmitsNothing(s, id, j, step, e);
    } else {
      SubmitterLowers(s, id, j, step, e);
    }
    ApiStripesStay(s.striping, s.jobs, s.stripes, e);
    EffectLowers(s, e, t);
  }

  lemma StepLowers(s: State, a: Action)
    requires Inv(s) && Enabled(s, a) && Internal(a)
    ensures Rank(Do(s, a)) < Rank(s)
  {
    var t := Do(s, a);
    if a.Act? {
      ActLowers(s, a.id, a.step, StepEffect(s, a.id, a.step), t);
    } else {
      assert ApiStripes(s.stripes) == ApiStripes(t.stripes) + {a.stripe};
    }
  }

  ghost predicate AllInternal(run: seq<Action>) { forall i :: 0 <= i < |run| ==> Internal(run[i]) }

  lemma {:induction false} RankBoundsRuns(s: State, run: seq<Action>)
    requires Inv(s) && IsRun(s, run) && AllInternal(run)
    ensures |run| + Rank(After(s, run)) <= Rank(s)
    decreases |run|
  {
    if run != [] {
      StepKept(s, run[0]);
      StepLowers(s, run[0]);
      RankBoundsRuns(Do(s, run[0]), run[1..]);
    }
  }

  lemma WorkersStay(s: State, a: Action)
    requires Enabled(s, a) && Internal(a)
    ensures |Do(s, a).workers| == |s.workers| && Do(s, a).governor == s.governor && Do(s, a).stopped == s.stopped
  {
    if a.Act? {
      EffectKeepsWorkers(s, StepEffect(s, a.id, a.step));
    }
  }

  lemma EffectKeepsWorkers(s: State, e: Effect)
    ensures var t := Apply(s, e); |t.workers| == |s.workers| && t.governor == s.governor && t.stopped == s.stopped
  {
  }

  lemma {:induction false} RunWorkersStay(s: State, run: seq<Action>)
    requires IsRun(s, run) && AllInternal(run)
    ensures |After(s, run).workers| == |s.workers| && After(s, run).governor == s.governor && After(s, run).stopped == s.stopped
    decreases |run|
  {
    if run != [] {
      WorkersStay(s, run[0]);
      RunWorkersStay(Do(s, run[0]), run[1..]);
    }
  }

  /** Unless the service is stopped, when workers leave the queue alone, every schedule of the work at
      hand ends: it has at most Rank(s) steps, and as long as a job is carried it can be continued, with
      whatever sample leaves room for one operation. */
  lemma EveryScheduleDrains(s: State, run: seq<Action>, sample: Sample)
    requires Reachable(s) && !s.stopped && |s.workers| > 0 && Limit(s.governor, sample) >= 1 && IsRun(s, run) && AllInternal(run)
    ensures |run| <= Rank(s)
    ensures Quiet(After(s, run)) || exists a :: Internal(a) && Enabled(After(s, run), a) && Samples(a, sample)
  {
    var t := After(s, run);
    ReachableKeepsInv(s);
    RankBoundsRuns(s, run);
    EveryRunKeepsInv(s, run);
    RunWorkersStay(s, run);
    if !Quiet(t) {
      var id :| !JobOf(t, id).Gone?;
      var a := SomebodyActs(t, sample, id);
    }
  }

  /** When the work has drained, nothing is held or queued. */
  lemma NothingIsHeld(s: State)
    requires Reachable(s) && Quiet(s)
    ensures s.queue == [] && s.active == 0 && s.controls == {}
    ensures forall w :: 0 <= w < |s.workers| ==> s.workers[w] == None
    ensures forall k :: k in s.stripes ==> s.stripes[k] == ByApi
  {
    var head := if s.queue == [] then "" else s.queue[0];
    assert s.queue == [] || head in s.queue;
    ReachableKeepsInv(s);
    assert forall x :: JobIn(s.jobs, x) == JobOf(s, x);
    forall x
      ensures x !in s.queue && x !in s.slots && x !in s.controls
    {
      assert x in s.queue ==> JobIn(s.jobs, x).InQueue?;
      assert x in s.slots <==> HoldsSlot(JobIn(s.jobs, x));
      assert OpOk(ViewOf(s, x), s.stopped);
    }
    assert s.slots == {} && s.controls == {};
  }

  /** And no work is lost but what was given up: an operation is left unfinished if and only if the
      write that would have taken it further was refused or failed, or a stopped service dropped it,
      and neither a cancellation nor a restart came after. */
  lemma NothingIsLost(start: State, run: seq<Action>, id: string)
    requires Initial(start) && IsRun(start, run) && Quiet(After(start, run))
    ensures Unfinished(Rec(After(start, run).data, id)) <==> GivenUp(start, run, id)
  {
    assert JobOf(After(start, run), id).Gone?;
    UnfinishedIffGivenUp(start, run, id);
  }
}
