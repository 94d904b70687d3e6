/** The state each store method asks to commit, as a function of the current state.
    An error means that nothing is committed. */
module StoreSteps {
  import Decimal
  import opened Common
  import opened Records
  import opened Retention

  function CreateNext(d: Data, op: Operation): Result<Data> {
    if Find(d.operations, op.id) < |d.operations| then Err(Conflict)
    else Ok(d.(operations := TrimOperations(d.operations + [op])))
  }

  function UpdateNext(d: Data, op: Operation): Result<Data> {
    var k := Find(d.operations, op.id);
    if k == |d.operations| then Err(NotFound) else Ok(d.(operations := d.operations[k := op]))
  }

  predicate AuditIdTaken(d: Data, id: string) {
    exists i :: 0 <= i < |d.auditEvents| && d.auditEvents[i].id == id
  }

  function AppendAudit(d: Data, e: AuditEvent): Data {
    d.(auditEvents := TrimAudits(d.auditEvents + [e]))
  }

  function AuditNext(d: Data, e: AuditEvent): Result<Data> {
    if AuditIdTaken(d, e.id) then Err(Conflict) else Ok(AppendAudit(d, e))
  }

  function TransitionNext(d: Data, expected: OperationState, op: Operation, audit: Option<AuditEvent>): Result<Data> {
    var k := Find(d.operations, op.id);
    if op.id == "" || (audit.Some? && (audit.value.id == "" || audit.value.operationId != op.id)) then Err(Malformed)
    else if k == |d.operations| then Err(NotFound)
    else if d.operations[k].state != expected then Err(InvalidState)
    else if audit.Some? && AuditIdTaken(d, audit.value.id) then Err(Conflict)
    else
      var next := d.(operations := d.operations[k := op]);
      Ok(if audit.Some? then AppendAudit(next, audit.value) else next)
  }

  function FindCluster(clusters: seq<Cluster>, id: string): (k: nat)
    ensures k <= |clusters|
    ensures forall i :: 0 <= i < k ==> clusters[i].id != id
    ensures k < |clusters| ==> clusters[k].id == id
  {
    if clusters == [] || clusters[0].id == id then 0 else 1 + FindCluster(clusters[1..], id)
  }

  function RotateNext(d: Data, expected: Cluster, updated: Cluster, audit: AuditEvent): Result<Data> {
    var k := FindCluster(d.clusters, expected.id);
    if expected.id == "" || updated.id != expected.id || audit.id == "" || audit.clusterId != updated.id then Err(Malformed)
    else if k == |d.clusters| then Err(NotFound)
    else if d.clusters[k] != expected || AuditIdTaken(d, audit.id) then Err(Conflict)
    else Ok(AppendAudit(d.(clusters := d.clusters[k := updated]), audit))
  }

  /** Credential rotation is a compare-and-set: it commits exactly when the stored cluster is still
      the one that was validated, and then changes that cluster and adds its audit event together. */
  lemma RotationIsCompareAndSet(d: Data, expected: Cluster, updated: Cluster, audit: AuditEvent)
    requires expected.id != "" && updated.id == expected.id && audit.id != "" && audit.clusterId == updated.id
    ensures var k := FindCluster(d.clusters, expected.id);
            var r := RotateNext(d, expected, updated, audit);
            && (r.Ok? <==> k < |d.clusters| && d.clusters[k] == expected && !AuditIdTaken(d, audit.id))
            && (r.Ok? ==>
                  && |r.value.clusters| == |d.clusters| && r.value.clusters[k] == updated
                  && (forall i :: 0 <= i < |d.clusters| && i != k ==> r.value.clusters[i] == d.clusters[i])
                  && r.value.operations == d.operations && r.value.repositories == d.repositories
                  && |r.value.auditEvents| > 0 && r.value.auditEvents[|r.value.auditEvents| - 1] == audit)
  {
  }

  function Interrupt(op: Operation, now: int): Operation {
    if InFlight(op) then
      op.(state := Unknown, errorCode := "process_restarted", errorMessage := "interrupted", updatedAt := now, finishedAt := now)
    else op
  }

  function InterruptAll(ops: seq<Operation>, now: int): (r: seq<Operation>)
    ensures |r| == |ops| && forall i :: 0 <= i < |ops| ==> r[i] == Interrupt(ops[i], now)
  {
    if ops == [] then [] else [Interrupt(ops[0], now)] + InterruptAll(ops[1..], now)
  }

  function Trimmed(d: Data): Data {
    d.(operations := TrimOperations(d.operations), auditEvents := TrimAudits(d.auditEvents))
  }

  /** What Open makes of a decoded file: trim first, then close what was interrupted. */
  function Reopened(d: Data, now: int): Data {
    Trimmed(d).(operations := InterruptAll(TrimOperations(d.operations), now))
  }

  /** Reopening interrupts what the trim leaves, record by record. */
  lemma ReopenedIsInterrupted(d: Data, now: int, id: string)
    ensures Lookup(Reopened(d, now).operations, id)
            == match Lookup(Trimmed(d).operations, id) case None => None case Some(op) => Some(Interrupt(op, now))
  {
    var kept, ops := TrimOperations(d.operations), Reopened(d, now).operations;
    FindIs(ops, id, Find(kept, id));
    LookupIsFind(ops, id);
    LookupIsFind(kept, id);
  }

  /** Reopening leaves no operation queued or running, loses no interrupted one, and changes no finished one. */
  lemma ReopenSettlesEverything(d: Data, now: int)
    requires UniqueIds(d.operations)
    ensures var ops := Reopened(d, now).operations;
            && UniqueIds(ops)
            && (forall op :: op in ops ==> !InFlight(op))
            && forall id :: match Lookup(d.operations, id)
                 case None => Lookup(ops, id) == None
                 case Some(op) => Lookup(ops, id) == Some(Interrupt(op, now)) || (!InFlight(op) && Lookup(ops, id) == None)
  {
    LookupAfterTrim(d.operations);
    forall id { ReopenedIsInterrupted(d, now, id); }
  }

  /** A second open changes nothing exactly when at most 2000 operations were in flight: trimming
      runs before the interrupted operations become finished, so a larger backlog survives one open. */
  lemma ReopenIsIdempotentIff(d: Data, now: int, later: int)
    ensures Reopened(Reopened(d, now), later) == Reopened(d, now)
            <==> |Select(d.operations, true)| <= MAX_STORED_OPERATIONS
  {
    var kept := TrimOperations(d.operations);
    var ops := Reopened(d, now).operations;
    RetentionIsExact(d.operations);
    SelectSplits(d.operations);
    SelectSplits(kept);
    NothingToInterrupt(ops, later);
    if |kept| <= MAX_STORED_OPERATIONS {
    } else {
      NoneInFlight(ops);
      RetentionIsExact(ops);
    }
  }

  function Backlog(n: nat): seq<Operation> {
    if n == 0 then []
    else [Operation(Decimal.Format(n), "", "", Queued, "", "", "", "", "", "", "", 0, 0, 0, 0)] + Backlog(n - 1)
  }

  lemma {:induction false} BacklogIsInFlight(n: nat)
    ensures Select(Backlog(n), true) == Backlog(n) && |Backlog(n)| == n
  {
    if n > 0 { BacklogIsInFlight(n - 1); }
  }

  /** A file with 2001 queued operations: the first open keeps 2001 records, the second drops one. */
  lemma ReopenOfLargeBacklog(now: int, later: int)
    ensures var d := EMPTY.(operations := Backlog(2001));
            && Reopened(Reopened(d, now), later) != Reopened(d, now)
            && |Reopened(d, now).operations| == 2001
  {
    var d := EMPTY.(operations := Backlog(2001));
    BacklogIsInFlight(2001);
    ReopenIsIdempotentIff(d, now, later);
    RetentionIsExact(d.operations);
  }

  lemma {:induction false} NothingToInterrupt(ops: seq<Operation>, now: int)
    requires forall op :: op in ops ==> !InFlight(op)
    ensures InterruptAll(ops, now) == ops
  {
  }

  lemma {:induction false} NoneInFlight(ops: seq<Operation>)
    requires forall op :: op in ops ==> !InFlight(op)
    ensures Select(ops, true) == []
  {
    if ops != [] {
      NoneInFlight(ops[1..]);
    }
  }
}

/** The directory that holds the store file, seen through process crashes and power loss. */
module Disk {
  import opened Common
  import opened Records

  /** `Torn` stands for bytes that do not decode to the state written. */
  datatype Contents = Whole(state: Data) | Torn

  datatype Inode = Inode(contents: Contents, synced: bool)

  /** `entry` is what the store path names now. `unsettled` holds what it may name after a power
      loss, because the directory was not synced since. */
  datatype Directory = Directory(entry: Option<Inode>, unsettled: set<Option<Inode>>, temp: Option<Inode>)

  datatype Syscall =
    | MakeDirectory | CreateTemp | ChmodTemp | WriteTemp(state: Data) | SyncTemp | CloseTemp
    | RenameTemp | ChmodStore | OpenDirectory | SyncDirectory | RemoveTemp

  function Perform(d: Directory, call: Syscall): Directory {
    match call
    case CreateTemp => d.(temp := Some(Inode(Torn, false)))
    case WriteTemp(state) => d.(temp := Some(Inode(Whole(state), false)))
    case SyncTemp => if d.temp.Some? then d.(temp := Some(d.temp.value.(synced := true))) else d
    case RenameTemp => d.(entry := d.temp, unsettled := d.unsettled + {d.temp}, temp := None)
    case SyncDirectory => d.(unsettled := {d.entry})
    case RemoveTemp => d.(temp := None)
    case _ => d
  }

  /** A call that reports an error, or that is cut short. */
  function Break(d: Directory, call: Syscall): Directory {
    if call.WriteTemp? then d.(temp := Some(Inode(Torn, false))) else d
  }

  const STEPS := 10

  function Step(next: Data, k: nat): Syscall
    requires k < STEPS
  {
    [MakeDirectory, CreateTemp, ChmodTemp, WriteTemp(next), SyncTemp, CloseTemp,
     RenameTemp, ChmodStore, OpenDirectory, SyncDirectory][k]
  }

  /** The directory after the first `k` calls of persist. */
  function After(d: Directory, next: Data, k: nat): Directory
    requires k <= STEPS
  {
    if k == 0 then d else Perform(After(d, next, k - 1), Step(next, k - 1))
  }

  /** The directory when persist returns, with the call numbered `failAt` failing; a number that is
      not a call means success. */
  function Persisted(d: Directory, next: Data, failAt: nat): Directory {
    if failAt < STEPS then Perform(Break(After(d, next, failAt), Step(next, failAt)), RemoveTemp)
    else Perform(After(d, next, STEPS), RemoveTemp)
  }

  function Surviving(entry: Option<Inode>): Option<Contents> {
    match entry
    case None => None
    case Some(inode) => Some(if inode.synced then inode.contents else Torn)
  }

  /** Everything the store path may hold when the process next reads it. */
  function Readable(d: Directory): set<Option<Contents>> {
    {if d.entry.Some? then Some(d.entry.value.contents) else None} + set e | e in d.unsettled :: Surviving(e)
  }

  /** The entry that a power loss leaves behind. */
  function PowerLoss(entry: Option<Inode>): Directory { Directory(entry, {entry}, None) }

  ghost predicate WellFormed(d: Directory) {
    && d.entry in d.unsettled
    && forall e :: e in d.unsettled && e.Some? ==> e.value.synced && e.value.contents.Whole?
  }

  lemma AfterEachCall(d: Directory, next: Data)
    ensures After(d, next, 1) == d
    ensures var torn := d.(temp := Some(Inode(Torn, false)));
            After(d, next, 2) == torn && After(d, next, 3) == torn
    ensures After(d, next, 4) == d.(temp := Some(Inode(Whole(next), false)))
    ensures var ready := d.(temp := Some(Inode(Whole(next), true)));
            After(d, next, 5) == ready && After(d, next, 6) == ready
    ensures var file := Some(Inode(Whole(next), true));
            var renamed := Directory(file, d.unsettled + {file}, None);
            && After(d, next, 7) == renamed && After(d, next, 8) == renamed && After(d, next, 9) == renamed
            && After(d, next, 10) == Directory(file, {file}, None)
  {
    assert After(d, next, 3) == After(d, next, 2) == Perform(After(d, next, 1), CreateTemp);
    assert After(d, next, 4) == Perform(After(d, next, 3), WriteTemp(next));
    assert After(d, next, 6) == After(d, next, 5) == Perform(After(d, next, 4), SyncTemp);
    assert After(d, next, 7) == Perform(After(d, next, 6), RenameTemp);
    assert After(d, next, 9) == After(d, next, 8) == After(d, next, 7);
    assert After(d, next, 10) == Perform(After(d, next, 9), SyncDirectory);
  }

  /** At every point of persist, a crash or a power loss leaves a whole earlier state or the whole new one. */
  lemma PersistIsAtomic(d: Directory, next: Data, k: nat)
    requires WellFormed(d) && k <= STEPS
    ensures WellFormed(After(d, next, k))
    ensures Readable(After(d, next, k)) <= Readable(d) + {Some(Whole(next))}
    ensures k < STEPS ==> WellFormed(Break(After(d, next, k), Step(next, k)))
    ensures k < STEPS ==> Readable(Break(After(d, next, k), Step(next, k))) <= Readable(d) + {Some(Whole(next))}
    ensures k < 7 ==> Readable(After(d, next, k)) == Readable(d)
  {
    AfterEachCall(d, next);
    assert k == 0 ==> After(d, next, k) == d;
    var a := After(d, next, k);
    forall c | c in Readable(a)
      ensures c in Readable(d) + {Some(Whole(next))}
    {
    }
  }

  /** A persist that reports success leaves the new state and nothing else to be read, even after
      a power loss; a persist that fails adds at most the new state. */
  lemma PersistOutcome(d: Directory, next: Data, failAt: nat)
    requires WellFormed(d)
    ensures var r := Persisted(d, next, failAt);
            && WellFormed(r) && r.temp == None
            && (failAt >= STEPS ==> Readable(r) == {Some(Whole(next))})
            && (failAt < STEPS ==> Readable(r) <= Readable(d) + {Some(Whole(next))})
            && (failAt < 7 ==> Readable(r) == Readable(d))
  {
    AfterEachCall(d, next);
    if failAt < STEPS {
      PersistIsAtomic(d, next, failAt);
      var b := Break(After(d, next, failAt), Step(next, failAt));
      assert Readable(Persisted(d, next, failAt)) == Readable(b);
      if failAt < 7 {
        assert b.entry == d.entry && b.unsettled == d.unsettled;
      }
    } else {
      assert forall c :: c in Readable(Persisted(d, next, failAt)) ==> c == Some(Whole(next));
    }
  }
}

/** Memory, disk and the other states that the disk may hold: those whose commit reported failure since
    the last success, and those that an opened directory was not synced against. */
module StoreRuns {
  import opened Common
  import opened Records
  import opened StoreSteps
  import opened Disk

  datatype Store = Store(data: Data, directory: Directory, others: set<Data>)

  datatype Attempt = Attempt(next: Data, failAt: nat)

  function Commit(s: Store, a: Attempt): Store {
    var directory := Persisted(s.directory, a.next, a.failAt);
    if a.failAt >= STEPS then Store(a.next, directory, {})
    else Store(s.data, directory, s.others + {a.next})
  }

  function Commits(s: Store, run: seq<Attempt>): Store
    decreases |run|
  {
    if run == [] then s else Commits(Commit(s, run[0]), run[1..])
  }

  /** The state a reader starts from: a missing file is the empty store. */
  ghost predicate Restores(c: Option<Contents>, d: Data) {
    if c.None? then d == EMPTY else c.value == Whole(d)
  }

  /** What can be restored is memory or one of the others. */
  ghost predicate Sound(s: Store) {
    && WellFormed(s.directory)
    && forall c :: c in Readable(s.directory) ==> Restores(c, s.data) || exists d :: d in s.others && Restores(c, d)
  }

  lemma {:induction false} EveryRunIsSound(s: Store, run: seq<Attempt>)
    requires Sound(s)
    ensures Sound(Commits(s, run))
    decreases |run|
  {
    if run != [] {
      CommitIsSound(s, run[0]);
      EveryRunIsSound(Commit(s, run[0]), run[1..]);
    }
  }

  lemma CommitIsSound(s: Store, a: Attempt)
    requires Sound(s)
    ensures Sound(Commit(s, a))
    ensures a.failAt >= STEPS ==> Commit(s, a).data == a.next && Readable(Commit(s, a).directory) == {Some(Whole(a.next))}
    ensures a.failAt < STEPS ==> Commit(s, a).data == s.data
  {
    PersistOutcome(s.directory, a.next, a.failAt);
    var t := Commit(s, a);
    forall c | c in Readable(t.directory)
      ensures Restores(c, t.data) || exists d :: d in t.others && Restores(c, d)
    {
      if a.failAt < STEPS {
        if c in Readable(s.directory) {
          if !Restores(c, s.data) {
            var d :| d in s.others && Restores(c, d);
            assert d in t.others && Restores(c, d);
          }
        } else {
          assert a.next in t.others && Restores(c, a.next);
        }
      }
    }
  }

  /** At every system call of a further commit, after any run, what a crash leaves behind restores
      memory, a state that could be read before, or the state being committed. */
  lemma CrashAnywhereRestores(s: Store, run: seq<Attempt>, next: Data, k: nat, c: Option<Contents>)
    requires Sound(s) && k <= STEPS
    requires c in Readable(After(Commits(s, run).directory, next, k))
    ensures exists d :: d in {Commits(s, run).data, next} + Commits(s, run).others && Restores(c, d)
  {
    var t := Commits(s, run);
    EveryRunIsSound(s, run);
    PersistIsAtomic(t.directory, next, k);
    if c == Some(Whole(next)) {
      assert next in {t.data, next} && Restores(c, next);
    } else if Restores(c, t.data) {
      assert t.data in {t.data, next};
    } else {
      var d :| d in t.others && Restores(c, d);
      assert d in {t.data, next} + t.others;
    }
  }

  // ---- crashes and new processes ----

  /** The state a process starts from. */
  function StateOf(c: Option<Contents>): Data { if c.Some? && c.value.Whole? then c.value.state else EMPTY }

  function Found(d: Directory): Data { StateOf(if d.entry.Some? then Some(d.entry.value.contents) else None) }

  /** Everything that may be read from the directory, now or after a power loss. */
  function Kept(d: Directory): set<Data> { set c | c in Readable(d) :: StateOf(c) }

  /** The directory after a persist that reported success. */
  function Synced(data: Data): Directory { PowerLoss(Some(Inode(Whole(data), true))) }

  /** What a successful Open makes of a directory. It writes, and so syncs the directory, only if it
      trims or interrupts something; otherwise whatever could be read before still can. */
  function Opened(d: Directory, now: int): Store {
    var data := Reopened(Found(d), now);
    if data == Found(d) then Store(data, d, Kept(d)) else Store(data, Synced(data), {})
  }

  lemma ReadableIsKept(d: Directory, c: Option<Contents>)
    requires WellFormed(d) && c in Readable(d)
    ensures Restores(c, StateOf(c)) && StateOf(c) in Kept(d)
  {
  }

  lemma FoundIsKept(d: Directory)
    requires WellFormed(d)
    ensures Found(d) in Kept(d)
  {
  }

  lemma OpenedIsSound(d: Directory, now: int)
    requires WellFormed(d)
    ensures Sound(Opened(d, now)) && Sound(Store(Found(d), d, Kept(d)))
  {
    forall c | c in Readable(d)
      ensures exists x :: x in Kept(d) && Restores(c, x)
    {
      ReadableIsKept(d, c);
    }
  }

  lemma PowerLossIsReadable(d: Directory, entry: Option<Inode>)
    requires WellFormed(d) && entry in d.unsettled
    ensures WellFormed(PowerLoss(entry)) && Readable(PowerLoss(entry)) <= Readable(d)
  {
    assert Surviving(entry) in Readable(d);
  }

  /** A crash during the commit of `next`, after `k` system calls: of the process, or of the machine. */
  datatype Crash = Crash(next: Data, k: nat, power: Option<Option<Inode>>)

  predicate Possible(s: Store, crash: Crash) {
    crash.k <= STEPS && (crash.power.Some? ==> crash.power.value in After(s.directory, crash.next, crash.k).unsettled)
  }

  function Crashed(s: Store, crash: Crash): Directory
    requires Possible(s, crash)
  {
    if crash.power.Some? then PowerLoss(crash.power.value) else After(s.directory, crash.next, crash.k)
  }

  /** Whatever is read after the crash restores memory, one of the others, or the state being committed. */
  lemma CrashKeeps(s: Store, crash: Crash)
    requires Sound(s) && Possible(s, crash)
    ensures WellFormed(Crashed(s, crash)) && Kept(Crashed(s, crash)) <= {s.data, crash.next} + s.others
  {
    var d := After(s.directory, crash.next, crash.k);
    PersistIsAtomic(s.directory, crash.next, crash.k);
    if crash.power.Some? {
      PowerLossIsReadable(d, crash.power.value);
    }
    forall c | c in Readable(Crashed(s, crash))
      ensures StateOf(c) in {s.data, crash.next} + s.others
    {
      CrashAnywhereRestores(s, [], crash.next, crash.k, c);
      var x :| x in {s.data, crash.next} + s.others && Restores(c, x);
      assert x == StateOf(c);
    }
  }

  /** The life of a store through many processes. */
  datatype Event = Try(attempt: Attempt) | Restart(crash: Crash, now: int)

  ghost predicate IsLife(s: Store, events: seq<Event>)
    decreases |events|
  {
    events != [] ==> (events[0].Restart? ==> Possible(s, events[0].crash)) && IsLife(Next(s, events[0]), events[1..])
  }

  function Next(s: Store, e: Event): Store
    requires e.Restart? ==> Possible(s, e.crash)
  {
    match e
    case Try(a) => Commit(s, a)
    case Restart(crash, now) => Opened(Crashed(s, crash), now)
  }

  ghost function AfterLife(s: Store, events: seq<Event>): Store
    requires IsLife(s, events)
    decreases |events|
  {
    if events == [] then s else AfterLife(Next(s, events[0]), events[1..])
  }

  /** Through any commits, failures, crashes, power losses and restarts, the file is one complete state:
      memory, or one of the others. */
  lemma {:induction false} EveryLifeIsSound(s: Store, events: seq<Event>)
    requires Sound(s) && IsLife(s, events)
    ensures Sound(AfterLife(s, events))
    decreases |events|
  {
    if events != [] {
      match events[0] {
        case Try(a) => CommitIsSound(s, a);
        case Restart(crash, now) =>
          CrashKeeps(s, crash);
          OpenedIsSound(Crashed(s, crash), now);
      }
      EveryLifeIsSound(Next(s, events[0]), events[1..]);
    }
  }

  /** A process that dies between the rename and the sync of the directory leaves a file that the next
      one reads and a power loss takes back. If opening it writes nothing, it is still not synced. */
  lemma UnsyncedStateIsTakenBack(previous: Data, next: Data, now: int, later: int)
    requires Reopened(next, now) == next
    ensures var crashed := After(Synced(previous), next, 7);
            var before := Some(Inode(Whole(previous), true));
            && Opened(crashed, now).data == next && Opened(crashed, now).directory == crashed && before in crashed.unsettled
            && Opened(PowerLoss(before), later).data == Reopened(previous, later)
  {
    AfterEachCall(Synced(previous), next);
  }
}

/** internal/store/file.go as an object: every method either commits one new state or changes nothing. */
module FileStore {
  import opened Common
  import opened Records
  import opened Retention
  import opened StoreSteps
  import opened Disk
  import opened StoreRuns

  class File {
    var data: Data
    var directory: Directory
    ghost var others: set<Data>

    ghost function View(): Store
      reads this
    {
      Store(data, directory, others)
    }

    ghost predicate Valid()
      reads this
    {
      Sound(View())
    }

    constructor (directory: Directory)
      requires WellFormed(directory)
      ensures View() == Store(Found(directory), directory, Kept(directory)) && Valid()
    {
      data := Found(directory);
      this.directory := directory;
      others := Kept(directory);
      new;
      OpenedIsSound(directory, 0);
    }

    /** Open: load the file, trim its history, then close interrupted operations. Either write may fail.
        `left` is the directory it leaves behind. */
    static method Open(directory: Directory, now: int, failTrim: nat, failClose: nat) returns (r: Result<File>, left: Directory)
      requires Unreadable(directory) || WellFormed(directory)
      ensures r == Err(Malformed) <==> Unreadable(directory)
      ensures r.Ok? ==> fresh(r.value) && r.value.Valid() && r.value.View() == Opened(directory, now) && left == r.value.directory
      ensures Unreadable(directory) ==> left == directory
      ensures !Unreadable(directory) && r.Err? ==>
                var found := Found(directory);
                WellFormed(left) && Kept(left) <= Kept(directory) + {Trimmed(found), Reopened(found, now)}
      ensures failTrim >= STEPS && failClose >= STEPS ==> r.Ok? || Unreadable(directory)
      ensures r.Ok? ==>
                var found := Found(directory);
                r.value.data.schemaVersion == found.schemaVersion && r.value.data.clusters == found.clusters && r.value.data.repositories == found.repositories
    {
      if directory.entry.Some? {
        if directory.entry.value.contents.Torn? || directory.entry.value.contents.state.schemaVersion != SCHEMA_VERSION {
          return Err(Malformed), directory;
        }
      }
      var store := new File(directory);
      var ok := store.ReconcileHistoryRetention(failTrim);
      if !ok {
        FailedCommitKeeps(directory, Trimmed(Found(directory)), failTrim);
        return Err(Io), store.directory;
      }
      ghost var trimmed := store.View();
      ok := store.ReconcileInterruptedOperations(now, failClose);
      OpeningCommits(directory, now, failTrim, failClose);
      if !ok {
        FailedCommitKeeps(trimmed.directory, Reopened(Found(directory), now), failClose);
        return Err(Io), store.directory;
      }
      return Ok(store), store.directory;
    }

    method ReconcileHistoryRetention(failAt: nat) returns (ok: bool)
      requires Valid()
      modifies this
      ensures Valid()
      ensures (View(), ok) == CommitUnlessSame(old(View()), Trimmed(old(data)), failAt)
    {
      var operations := TrimOperationHistory(data.operations);
      var audits := TrimAuditHistory(data.auditEvents);
      RetentionIsExact(data.operations);
      if |operations| == |data.operations| && |audits| == |data.auditEvents| {
        TrimOfEqualLength(data.operations);
        return true;
      }
      ok := Commit(data.(operations := operations, auditEvents := audits), failAt);
    }

    method ReconcileInterruptedOperations(now: int, failAt: nat) returns (ok: bool)
      requires Valid()
      modifies this
      ensures Valid()
      ensures (View(), ok) == CommitUnlessSame(old(View()), old(data).(operations := InterruptAll(old(data).operations, now)), failAt)
    {
      var operations := data.operations;
      var changed := false;
      for i := 0 to |operations|
        invariant |operations| == |data.operations|
        invariant data == old(data) && View() == old(View())
        invariant forall j :: 0 <= j < i ==> operations[j] == Interrupt(data.operations[j], now)
        invariant forall j :: i <= j < |operations| ==> operations[j] == data.operations[j]
        invariant changed <==> exists j :: 0 <= j < i && InFlight(data.operations[j])
      {
        if operations[i].state != Running && operations[i].state != Queued {
          continue;
        }
        operations := operations[i := operations[i].(
          state := Unknown, errorCode := "process_restarted", errorMessage := "interrupted", updatedAt := now, finishedAt := now)];
        changed := true;
      }
      assert operations == InterruptAll(data.operations, now);
      if !changed {
        assert operations == data.operations;
        return true;
      }
      assert operations != data.operations;
      ok := Commit(data.(operations := operations), failAt);
    }

    method GetOperation(id: string) returns (r: Result<Operation>)
      ensures r == match Lookup(data.operations, id) case None => Err(NotFound) case Some(op) => Ok(op)
    {
      LookupIsFind(data.operations, id);
      for i := 0 to |data.operations|
        invariant forall j :: 0 <= j < i ==> data.operations[j].id != id
      {
        if data.operations[i].id == id {
          FindIs(data.operations, id, i);
          return Ok(data.operations[i]);
        }
      }
      return Err(NotFound);
    }

    method CreateOperation(op: Operation, failAt: nat) returns (r: Result<()>)
      requires Valid()
      modifies this
      ensures Valid() && Committed(old(View()), CreateNext(old(data), op), failAt, View(), r)
      ensures data.schemaVersion == old(data.schemaVersion) && data.clusters == old(data.clusters) && data.repositories == old(data.repositories)
      ensures data.auditEvents == old(data.auditEvents)
    {
      for i := 0 to |data.operations|
        invariant View() == old(View())
        invariant forall j :: 0 <= j < i ==> data.operations[j].id != op.id
      {
        if data.operations[i].id == op.id {
          FindIs(data.operations, op.id, i);
          return Err(Conflict);
        }
      }
      var operations := TrimOperationHistory(data.operations + [op]);
      var ok := Commit(data.(operations := operations), failAt);
      r := if ok then Ok(()) else Err(Io);
    }

    method UpdateOperation(op: Operation, failAt: nat) returns (r: Result<()>)
      requires Valid()
      modifies this
      ensures Valid() && Committed(old(View()), UpdateNext(old(data), op), failAt, View(), r)
      ensures data.schemaVersion == old(data.schemaVersion) && data.clusters == old(data.clusters) && data.repositories == old(data.repositories)
      ensures data.auditEvents == old(data.auditEvents)
    {
      for i := 0 to |data.operations|
        invariant View() == old(View())
        invariant forall j :: 0 <= j < i ==> data.operations[j].id != op.id
      {
        if data.operations[i].id != op.id {
          continue;
        }
        FindIs(data.operations, op.id, i);
        var ok := Commit(data.(operations := data.operations[i := op]), failAt);
        return if ok then Ok(()) else Err(Io);
      }
      return Err(NotFound);
    }

    method FindAudit(id: string) returns (taken: bool)
      ensures taken == AuditIdTaken(data, id)
    {
      for i := 0 to |data.auditEvents|
        invariant forall j :: 0 <= j < i ==> data.auditEvents[j].id != id
      {
        if data.auditEvents[i].id == id {
          return true;
        }
      }
      return false;
    }

    method TransitionOperation(expected: OperationState, op: Operation, audit: Option<AuditEvent>, failAt: nat)
      returns (r: Result<()>)
      requires Valid()
      modifies this
      ensures Valid() && Committed(old(View()), TransitionNext(old(data), expected, op, audit), failAt, View(), r)
      ensures data.schemaVersion == old(data.schemaVersion) && data.clusters == old(data.clusters) && data.repositories == old(data.repositories)
    {
      if op.id == "" || (audit.Some? && (audit.value.id == "" || audit.value.operationId != op.id)) {
        return Err(Malformed);
      }
      var index := 0;
      while index < |data.operations| && data.operations[index].id != op.id
        invariant index <= |data.operations| && View() == old(View())
        invariant forall j :: 0 <= j < index ==> data.operations[j].id != op.id
      {
        index := index + 1;
      }
      FindIs(data.operations, op.id, index);
      if index == |data.operations| {
        return Err(NotFound);
      }
      if data.operations[index].state != expected {
        return Err(InvalidState);
      }
      if audit.Some? {
        var taken := FindAudit(audit.value.id);
        if taken {
          return Err(Conflict);
        }
      }
      var next := data.(operations := data.operations[index := op]);
      if audit.Some? {
        var audits := TrimAuditHistory(next.auditEvents + [audit.value]);
        next := next.(auditEvents := audits);
      }
      var ok := Commit(next, failAt);
      r := if ok then Ok(()) else Err(Io);
    }

    method CreateAuditEvent(event: AuditEvent, failAt: nat) returns (r: Result<()>)
      requires Valid()
      modifies this
      ensures Valid() && Committed(old(View()), AuditNext(old(data), event), failAt, View(), r)
      ensures data.schemaVersion == old(data.schemaVersion) && data.clusters == old(data.clusters) && data.repositories == old(data.repositories)
      ensures data.operations == old(data.operations)
    {
      var taken := FindAudit(event.id);
      if taken {
        return Err(Conflict);
      }
      var audits := TrimAuditHistory(data.auditEvents + [event]);
      var ok := Commit(data.(auditEvents := audits), failAt);
      r := if ok then Ok(()) else Err(Io);
    }

    method RotateClusterCredentials(expected: Cluster, updated: Cluster, audit: AuditEvent, failAt: nat)
      returns (r: Result<()>)
      requires Valid()
      modifies this
      ensures Valid() && Committed(old(View()), RotateNext(old(data), expected, updated, audit), failAt, View(), r)
      ensures data.schemaVersion == old(data.schemaVersion) && data.repositories == old(data.repositories) && data.operations == old(data.operations)
    {
      if expected.id == "" || updated.id != expected.id || audit.id == "" || audit.clusterId != updated.id {
        return Err(Malformed);
      }
      var index := 0;
      while index < |data.clusters| && data.clusters[index].id != expected.id
        invariant index <= |data.clusters| && View() == old(View())
        invariant forall j :: 0 <= j < index ==> data.clusters[j].id != expected.id
      {
        index := index + 1;
      }
      if index < |data.clusters| && data.clusters[index] != expected {
        return Err(Conflict);
      }
      if index == |data.clusters| {
        return Err(NotFound);
      }
      var taken := FindAudit(audit.id);
      if taken {
        return Err(Conflict);
      }
      var audits := TrimAuditHistory(data.auditEvents + [audit]);
      var ok := Commit(data.(clusters := data.clusters[index := updated], auditEvents := audits), failAt);
      r := if ok then Ok(()) else Err(Io);
    }

    method Commit(next: Data, failAt: nat) returns (ok: bool)
      requires Valid()
      modifies this
      ensures View() == StoreRuns.Commit(old(View()), Attempt(next, failAt)) && Valid()
      ensures ok <==> failAt >= STEPS
    {
      CommitIsSound(View(), Attempt(next, failAt));
      ok := Persist(next, failAt);
      if !ok {
        others := others + {next};
        return false;
      }
      data, others := next, {};
    }

    /** The system calls of persist in order; the one numbered `failAt` fails. */
    method Persist(next: Data, failAt: nat) returns (ok: bool)
      modifies this`directory
      ensures directory == Persisted(old(directory), next, failAt)
      ensures ok <==> failAt >= STEPS
    {
      ghost var before := directory;
      ok := Call(MakeDirectory, failAt != 0);
      if ok { ok := Call(CreateTemp, failAt != 1); }
      if ok { ok := Call(ChmodTemp, failAt != 2); }
      if ok { ok := Call(WriteTemp(next), failAt != 3); }
      if ok { ok := Call(SyncTemp, failAt != 4); }
      if ok { ok := Call(CloseTemp, failAt != 5); }
      if ok { ok := Call(RenameTemp, failAt != 6); }
      if ok { ok := Call(ChmodStore, failAt != 7); }
      if ok { ok := Call(OpenDirectory, failAt != 8); }
      if ok { ok := Call(SyncDirectory, failAt != 9); }
      AfterEachCall(before, next);
      assert failAt == 0 ==> After(before, next, 0) == before;
      directory := Perform(directory, RemoveTemp);
    }

    method Call(call: Syscall, works: bool) returns (ok: bool)
      modifies this`directory
      ensures directory == if works then Perform(old(directory), call) else Break(old(directory), call)
      ensures ok == works
    {
      directory := if works then Perform(directory, call) else Break(directory, call);
      ok := works;
    }
  }

  /** The file does not decode, or has another schema. */
  predicate Unreadable(d: Directory) {
    d.entry.Some? && (d.entry.value.contents.Torn? || d.entry.value.contents.state.schemaVersion != SCHEMA_VERSION)
  }

  /** A commit that is skipped when it would change nothing. */
  function CommitUnlessSame(s: Store, next: Data, failAt: nat): (Store, bool) {
    if next == s.data then (s, true) else (StoreRuns.Commit(s, Attempt(next, failAt)), failAt >= STEPS)
  }

  lemma SuccessIsSynced(s: Store, next: Data, failAt: nat)
    requires failAt >= STEPS
    ensures StoreRuns.Commit(s, Attempt(next, failAt)) == Store(next, Synced(next), {})
  {
    AfterEachCall(s.directory, next);
  }

  /** The two writes of Open, each skipped when it would change nothing. */
  lemma OpeningCommits(d: Directory, now: int, failTrim: nat, failClose: nat)
    ensures var (s, ok) := CommitUnlessSame(Store(Found(d), d, Kept(d)), Trimmed(Found(d)), failTrim);
            var (t, done) := CommitUnlessSame(s, Reopened(Found(d), now), failClose);
            ok && done ==> t == Opened(d, now)
  {
    var found := Found(d);
    var start := Store(found, d, Kept(d));
    TrimIsKept(found, now);
    SuccessIsSynced(start, Trimmed(found), STEPS);
    if failTrim >= STEPS { SuccessIsSynced(start, Trimmed(found), failTrim); }
    if failClose >= STEPS {
      SuccessIsSynced(start, Reopened(found, now), failClose);
      SuccessIsSynced(Store(Trimmed(found), Synced(Trimmed(found)), {}), Reopened(found, now), failClose);
    }
  }

  /** What the trim drops does not come back. */
  lemma TrimIsKept(d: Data, now: int)
    ensures Reopened(d, now) == d ==> Trimmed(d) == d
  {
    if Reopened(d, now) == d {
      TrimOfEqualLength(d.operations);
      assert Trimmed(d).auditEvents == d.auditEvents;
    }
  }

  lemma FailedCommitKeeps(d: Directory, next: Data, failAt: nat)
    requires WellFormed(d)
    ensures WellFormed(Persisted(d, next, failAt)) && Kept(Persisted(d, next, failAt)) <= Kept(d) + {next}
  {
    PersistOutcome(d, next, failAt);
  }

  /** A method's effect: an error of the request leaves everything alone; otherwise exactly one
      attempt to commit `next` is made, and the caller learns whether it succeeded. */
  ghost predicate Committed(before: Store, next: Result<Data>, failAt: nat, after: Store, r: Result<()>) {
    match next
    case Err(error) => after == before && r == Err(error)
    case Ok(state) => after == StoreRuns.Commit(before, Attempt(state, failAt)) && r == if failAt >= STEPS then Ok(()) else Err(Io)
  }

  lemma TrimOfEqualLength(ops: seq<Operation>)
    requires |TrimOperations(ops)| == |ops|
    ensures TrimOperations(ops) == ops
  {
    if |ops| > MAX_STORED_OPERATIONS {
      RetentionIsExact(ops);
      SelectSplits(ops);
      DropOldestWithoutOverflow(ops, |ops| - MAX_STORED_OPERATIONS);
    }
  }
}
