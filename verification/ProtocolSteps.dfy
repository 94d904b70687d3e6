/** Every step keeps the invariant: what a step must satisfy locally, and why that is enough. */
module ProtocolSteps {
  import opened Common
  import opened Records
  import opened StoreSteps
  import opened Governing
  import opened Protocol
  import opened ProtocolInvariant

  // ---- locks, slots, queue and workers ----

  /** What a step finds before it takes something: a free stripe, a free slot, its job at the head
      of the queue with an idle worker, an ID never used. */
  predicate HasRoom(s: State, e: Effect) {
    && (e.lock.Lock? ==> e.lock.stripe !in s.stripes)
    && (e.slot.Take? ==> s.active < s.governor.maxConcurrent)
    && (e.queue.Pop? ==> s.queue != [] && s.queue[0] == e.id && e.queue.w < |s.workers| && s.workers[e.queue.w].None?)
    && (e.source.Some? ==> e.id !in s.origin)
  }

  predicate LockFits(f: Striping, j: Job, e: Effect) {
    match e.lock
    case SameLocks => HoldsStripe(j) == HoldsStripe(e.job) && (HoldsStripe(j) ==> StripeOf(f, j.op) == StripeOf(f, e.job.op))
    case Lock(k) => !HoldsStripe(j) && HoldsStripe(e.job) && StripeOf(f, e.job.op) == k
    case Unlock(k) => HoldsStripe(j) && StripeOf(f, j.op) == k && !HoldsStripe(e.job)
  }

  lemma LocksKept(s: State, e: Effect)
    requires LocksOk(s.striping, s.jobs, s.stripes) && LockFits(s.striping, JobOf(s, e.id), e) && HasRoom(s, e)
    ensures LocksOk(s.striping, s.jobs[e.id := e.job], NextStripes(s.stripes, e))
  {
    var jobs, stripes := s.jobs[e.id := e.job], NextStripes(s.stripes, e);
    forall id | HoldsStripe(JobIn(jobs, id))
      ensures StripeOf(s.striping, JobIn(jobs, id).op) in stripes && stripes[StripeOf(s.striping, JobIn(jobs, id).op)] == ByJob(id)
    {
      if id != e.id { assert HoldsStripe(JobIn(s.jobs, id)); }
      if e.lock.Unlock? { assert HoldsStripe(JobIn(s.jobs, e.id)); }
    }
    forall k | k in stripes && stripes[k].ByJob?
      ensures HoldsStripe(JobIn(jobs, stripes[k].id)) && StripeOf(s.striping, JobIn(jobs, stripes[k].id).op) == k
    {
      if stripes[k].id == e.id { assert HoldsStripe(JobIn(s.jobs, e.id)) || e.lock.Lock?; }
    }
  }

  predicate SlotFits(j: Job, e: Effect) {
    match e.slot
    case SameSlots => HoldsSlot(j) == HoldsSlot(e.job)
    case Take => !HoldsSlot(j) && HoldsSlot(e.job)
    case Give => HoldsSlot(j) && !HoldsSlot(e.job)
  }

  lemma SlotsKept(s: State, e: Effect)
    requires SlotsOk(s.governor, s.jobs, s.active, s.slots) && SlotFits(JobOf(s, e.id), e) && HasRoom(s, e)
    ensures SlotsOk(s.governor, s.jobs[e.id := e.job], NextActive(s.active, e), NextSlots(s.slots, e))
  {
    var j, slots := JobIn(s.jobs, e.id), s.slots;
    assert e.id in slots <==> HoldsSlot(j);
    if e.slot.Take? {
      assert |slots + {e.id}| == |slots| + 1;
    } else if e.slot.Give? {
      assert slots == (slots - {e.id}) + {e.id};
    }
    SlotHolders(s.jobs, slots, e.id, e.job, NextSlots(slots, e));
  }

  lemma SlotHolders(jobs: map<string, Job>, slots: set<string>, one: string, job: Job, next: set<string>)
    requires forall id :: id in slots <==> HoldsSlot(JobIn(jobs, id))
    requires forall id :: id != one ==> (id in next <==> id in slots)
    requires one in next <==> HoldsSlot(job)
    ensures forall id :: id in next <==> HoldsSlot(JobIn(jobs[one := job], id))
  {
    forall id
      ensures id in next <==> HoldsSlot(JobIn(jobs[one := job], id))
    {
      assert id != one ==> JobIn(jobs[one := job], id) == JobIn(jobs, id);
    }
  }

  predicate QueueFits(j: Job, e: Effect) {
    match e.queue
    case SameQueue => j.InQueue? == e.job.InQueue? && WorkerOf(j) == WorkerOf(e.job)
    case Push => !j.InQueue? && WorkerOf(j).None? && e.job.InQueue?
    case Pop(w) => WorkerOf(e.job) == Some(w)
    case Rest(w) => WorkerOf(j) == Some(w) && WorkerOf(e.job).None? && !e.job.InQueue?
  }

  lemma QueueKept(s: State, e: Effect)
    requires QueueOk(s.jobs, s.queue) && QueueFits(JobOf(s, e.id), e) && HasRoom(s, e)
    ensures QueueOk(s.jobs[e.id := e.job], NextQueue(s.queue, e))
  {
    var jobs, queue := s.jobs[e.id := e.job], NextQueue(s.queue, e);
    if e.queue.Pop? {
      forall id | JobIn(jobs, id).InQueue?
        ensures id in queue
      {
        assert JobIn(s.jobs, id).InQueue?;
        var i :| 0 <= i < |s.queue| && s.queue[i] == id;
        assert queue[i - 1] == id;
      }
    } else {
      assert forall id :: JobIn(jobs, id).InQueue? && id != e.id ==> JobIn(s.jobs, id).InQueue?;
    }
  }

  lemma WorkersKept(s: State, e: Effect)
    requires QueueOk(s.jobs, s.queue) && WorkersOk(s.jobs, s.workers) && QueueFits(JobOf(s, e.id), e) && HasRoom(s, e)
    ensures WorkersOk(s.jobs[e.id := e.job], NextWorkers(s.workers, e))
  {
    var j := JobIn(s.jobs, e.id);
    if e.queue.Pop? {
      assert JobIn(s.jobs, s.queue[0]).InQueue?;
      WorkerChanges(s.jobs, s.workers, e.id, e.job, e.queue.w, Some(e.id));
    } else if e.queue.Rest? {
      WorkerChanges(s.jobs, s.workers, e.id, e.job, e.queue.w, None);
    } else {
      WorkerStays(s.jobs, s.workers, e.id, e.job);
    }
  }

  lemma WorkerStays(jobs: map<string, Job>, workers: seq<Option<string>>, id: string, job: Job)
    requires WorkersOk(jobs, workers) && WorkerOf(JobIn(jobs, id)) == WorkerOf(job)
    ensures WorkersOk(jobs[id := job], workers)
  {
    var after := jobs[id := job];
    forall w | 0 <= w < |workers| && workers[w].Some?
      ensures WorkerOf(JobIn(after, workers[w].value)) == Some(w)
    {
      assert WorkerOf(JobIn(jobs, workers[w].value)) == Some(w);
    }
    forall x | WorkerOf(JobIn(after, x)).Some?
      ensures WorkerOf(JobIn(after, x)).value < |workers| && workers[WorkerOf(JobIn(after, x)).value] == Some(x)
    {
      assert WorkerOf(JobIn(after, x)) == WorkerOf(JobIn(jobs, x));
    }
  }

  /** Worker `w` takes up a job that no worker has, or lays down the job it has. */
  lemma WorkerChanges(jobs: map<string, Job>, workers: seq<Option<string>>, id: string, job: Job, w: nat, next: Option<string>)
    requires WorkersOk(jobs, workers) && w < |workers|
    requires (next == Some(id) && workers[w].None? && WorkerOf(JobIn(jobs, id)).None? && WorkerOf(job) == Some(w))
             || (next.None? && workers[w] == Some(id) && WorkerOf(job).None?)
    ensures WorkersOk(jobs[id := job], workers[w := next])
  {
    var after, seats := jobs[id := job], workers[w := next];
    forall v | 0 <= v < |seats| && seats[v].Some?
      ensures WorkerOf(JobIn(after, seats[v].value)) == Some(v)
    {
      assert v != w ==> WorkerOf(JobIn(jobs, workers[v].value)) == Some(v);
    }
    forall x | WorkerOf(JobIn(after, x)).Some?
      ensures WorkerOf(JobIn(after, x)).value < |seats| && seats[WorkerOf(JobIn(after, x)).value] == Some(x)
    {
      assert x != id ==> JobIn(after, x) == JobIn(jobs, x);
    }
  }

  predicate SourceFits(j: Job, e: Effect) {
    && (j.Gone? ==> e.job.Gone? || e.source.Some?)
    && (e.job.Registered? ==> j.Registered? || e.source.Some?)
  }

  lemma RosterKept(s: State, e: Effect)
    requires RosterOk(s.jobs, s.roster, s.origin) && SourceFits(JobOf(s, e.id), e) && HasRoom(s, e)
    ensures RosterOk(s.jobs[e.id := e.job], Apply(s, e).roster, Apply(s, e).origin)
  {
  }

  // ---- the records ----

  /** What another operation may see of a step: its finished record dropped, more audit events. */
  predicate Later(v: View, u: View) {
    && u.id == v.id && u.job == v.job && u.source == v.source && u.finished == v.finished && u.began == v.began
    && u.withdrawn == v.withdrawn && u.canceled == v.canceled && u.control == v.control
    && (u.rec == v.rec || (u.rec.None? && !Unfinished(v.rec)))
    && (v.submitted ==> u.submitted) && (v.succeeded ==> u.succeeded) && (v.cancelMark ==> u.cancelMark)
  }

  lemma OpStays(v: View, u: View, before: bool, after: bool)
    requires OpOk(v, before) && Later(v, u) && (before ==> after)
    ensures OpOk(u, after)
  {
  }

  ghost predicate CallFits(d: Data, e: Effect) {
    e.call.Call? && e.call.next.Ok? ==>
      var next := e.call.next.value;
      && (|d.auditEvents| <= MAX_STORED_AUDIT_EVENTS ==> |next.auditEvents| <= MAX_STORED_AUDIT_EVENTS)
      && if e.call.writes.Some? then e.call.writes.value.id == e.id && Writes(d, next, e.call.writes.value)
         else next.operations == d.operations
  }

  lemma CallSparesOthers(d: Data, e: Effect, finished: set<string>, id: string)
    requires CallFits(d, e) && id != e.id
    ensures var next := NextData(d, e.call); Rec(next, id) == Rec(d, id) || (Rec(next, id).None? && !Unfinished(Rec(d, id)))
    ensures id in NextFinished(finished, e.call) <==> id in finished
  {
  }

  lemma OthersSeeLater(s: State, e: Effect, t: State, id: string)
    requires CallFits(s.data, e) && id != e.id && t == Apply(s, e)
    ensures Later(ViewOf(s, id), ViewOf(t, id))
  {
    CallSparesOthers(s.data, e, s.finished, id);
    assert JobOf(t, id) == JobOf(s, id) && Get(t.origin, id) == Get(s.origin, id);
  }

  lemma OpsFromOne(s: State, t: State, one: string)
    requires OpsOk(s) && (s.stopped ==> t.stopped) && OpOk(ViewOf(t, one), t.stopped)
    requires forall id :: id != one ==> Later(ViewOf(s, id), ViewOf(t, id))
    ensures OpsOk(t)
  {
    forall id
      ensures OpOk(ViewOf(t, id), t.stopped)
    {
      if id != one {
        OpStays(ViewOf(s, id), ViewOf(t, id), s.stopped, t.stopped);
      }
    }
  }

  lemma OpsKept(s: State, e: Effect, t: State)
    requires OpsOk(s) && CallFits(s.data, e) && t == Apply(s, e) && OpOk(ViewOf(t, e.id), t.stopped)
    ensures OpsOk(t)
  {
    forall id | id != e.id
      ensures Later(ViewOf(s, id), ViewOf(t, id))
    {
      OthersSeeLater(s, e, t, id);
    }
    OpsFromOne(s, t, e.id);
  }

  // ---- what a crash may restore ----

  lemma MemoryIsRestorable(v: View, stopped: bool, rec: Option<Operation>, cancelMark: bool)
    requires OpOk(v, stopped) && (rec == v.rec || (rec.None? && !Unfinished(v.rec)))
    ensures RestorableOk(v, rec, cancelMark, false)
  {
  }

  /** A step that commits nothing: the record stands, and only a new operation is registered. */
  predicate Uncommitted(v: View, u: View) {
    && (v.source.Some? ==> u.source == v.source) && u.rec == v.rec && u.finished == v.finished && (u.job.Registered? ==> v.job.Registered? || v.source.None?)
    && (v.submitted ==> u.submitted) && (v.succeeded ==> u.succeeded) && (v.cancelMark ==> u.cancelMark)
  }

  lemma OldFileStays(s: State, t: State, d: Data)
    requires FileOk(s, d) && (s.unsynced ==> t.unsynced) && forall id :: Uncommitted(ViewOf(s, id), ViewOf(t, id))
    ensures FileOk(t, d)
  {
    forall id
      ensures RestorableOk(ViewOf(t, id), Rec(d, id), CancelMarkIn(d, id), t.unsynced)
    {
      assert Uncommitted(ViewOf(s, id), ViewOf(t, id));
      assert RestorableOk(ViewOf(s, id), Rec(d, id), CancelMarkIn(d, id), s.unsynced);
    }
  }

  lemma NewFileFits(t: State, one: string, d: Data)
    requires OpsOk(t) && WellKept(d) && RestorableOk(ViewOf(t, one), Rec(d, one), CancelMarkIn(d, one), false)
    requires forall id :: id != one ==> Rec(d, id) == Rec(t.data, id) || (Rec(d, id).None? && !Unfinished(Rec(t.data, id)))
    ensures FileOk(t, d)
  {
    forall id
      ensures RestorableOk(ViewOf(t, id), Rec(d, id), CancelMarkIn(d, id), t.unsynced)
    {
      if id != one {
        MemoryIsRestorable(ViewOf(t, id), t.stopped, Rec(d, id), CancelMarkIn(d, id));
      }
    }
  }

  predicate FileFits(u: View, e: Effect) {
    e.call.Call? && e.call.next.Ok? && e.call.io.Broken? ==>
      RestorableOk(u, Rec(e.call.next.value, u.id), CancelMarkIn(e.call.next.value, u.id), false)
  }

  lemma MissIsUncommitted(s: State, e: Effect, t: State, id: string)
    requires t == Apply(s, e) && CallFits(s.data, e) && SourceFits(JobOf(s, e.id), e) && HasRoom(s, e) && !Lands(e.call)
    ensures Uncommitted(ViewOf(s, id), ViewOf(t, id))
  {
    if id != e.id {
      OthersSeeLater(s, e, t, id);
    }
  }

  lemma FilesKept(s: State, e: Effect, t: State)
    requires FilesOk(s) && OpsOk(t) && t == Apply(s, e) && CallFits(s.data, e) && FileFits(ViewOf(t, e.id), e)
    requires SourceFits(JobOf(s, e.id), e) && HasRoom(s, e)
    ensures FilesOk(t)
  {
    if Lands(e.call) {
      assert WellKept(t.data) by { assert FileOk(s, s.data); }
      MemoryIsRestorable(ViewOf(t, e.id), t.stopped, Rec(t.data, e.id), CancelMarkIn(t.data, e.id));
      NewFileFits(t, e.id, t.data);
    } else {
      assert t.data == s.data && t.marks == s.marks;
      forall id { MissIsUncommitted(s, e, t, id); }
      forall d | d in t.restorable
        ensures FileOk(t, d)
      {
        if d in s.restorable {
          OldFileStays(s, t, d);
        } else {
          assert WellKept(d) by { assert FileOk(s, s.data); }
          NewFileFits(t, e.id, d);
        }
      }
    }
  }
}
