/** The persisted records of internal/domain/models.go and the store's in-memory state. */
module Records {
  import opened Common

  datatype OperationState = Queued | Running | Succeeded | Failed | Canceled | Unknown

  datatype Operation = Operation(
    id: string, requestId: string, kind: string, state: OperationState,
    clusterId: string, namespace: string, target: string, submittedBy: string, summary: string,
    errorCode: string, errorMessage: string,
    createdAt: int, startedAt: int, finishedAt: int, updatedAt: int)

  datatype AuditEvent = AuditEvent(
    id: string, requestId: string, operationId: string, actor: string, action: string, result: string,
    clusterId: string, namespace: string, target: string, summary: string, createdAt: int)

  datatype Cluster = Cluster(
    id: string, name: string, environment: string, server: string, status: string, version: string,
    lastErrorCode: string, caCertCiphertext: string, bearerTokenCiphertext: string,
    lastCheckedAt: int, createdAt: int, updatedAt: int)

  datatype Repository = Repository(id: string, name: string, url: string)

  datatype Data = Data(
    schemaVersion: int, clusters: seq<Cluster>, repositories: seq<Repository>,
    operations: seq<Operation>, auditEvents: seq<AuditEvent>)

  const SCHEMA_VERSION := 1
  const MAX_STORED_OPERATIONS := 2000
  const MAX_STORED_AUDIT_EVENTS := 5000

  const EMPTY: Data := Data(SCHEMA_VERSION, [], [], [], [])

  predicate InFlight(op: Operation) { op.state == Queued || op.state == Running }

  /** The position of the first record with this ID, or the length when there is none. */
  function Find(ops: seq<Operation>, id: string): (k: nat)
    ensures k <= |ops|
    ensures forall i :: 0 <= i < k ==> ops[i].id != id
    ensures k < |ops| ==> ops[k].id == id
  {
    if ops == [] || ops[0].id == id then 0 else 1 + Find(ops[1..], id)
  }

  function Lookup(ops: seq<Operation>, id: string): Option<Operation> {
    if ops == [] then None else if ops[0].id == id then Some(ops[0]) else Lookup(ops[1..], id)
  }

  lemma {:induction false} LookupIsFind(ops: seq<Operation>, id: string)
    ensures Lookup(ops, id) == if Find(ops, id) < |ops| then Some(ops[Find(ops, id)]) else None
  {
    if ops != [] { LookupIsFind(ops[1..], id); }
  }

  ghost predicate UniqueIds(ops: seq<Operation>) {
    forall i, j :: 0 <= i < j < |ops| ==> ops[i].id != ops[j].id
  }

  /** `Find` is determined by what it promises. */
  lemma FindIs(ops: seq<Operation>, id: string, k: nat)
    requires k <= |ops| && (k < |ops| ==> ops[k].id == id)
    requires forall i :: 0 <= i < k ==> ops[i].id != id
    ensures Find(ops, id) == k
  {
  }

  lemma LookupAfterReplace(ops: seq<Operation>, op: Operation)
    requires UniqueIds(ops) && Find(ops, op.id) < |ops|
    ensures var next := ops[Find(ops, op.id) := op];
            && UniqueIds(next)
            && forall id :: Lookup(next, id) == if id == op.id then Some(op) else Lookup(ops, id)
  {
    var next := ops[Find(ops, op.id) := op];
    forall id
      ensures Lookup(next, id) == if id == op.id then Some(op) else Lookup(ops, id)
    {
      FindIs(next, id, Find(ops, id));
      LookupIsFind(next, id);
      LookupIsFind(ops, id);
    }
  }

  lemma LookupAfterAppend(ops: seq<Operation>, op: Operation)
    requires UniqueIds(ops) && Find(ops, op.id) == |ops|
    ensures UniqueIds(ops + [op])
    ensures forall id :: Lookup(ops + [op], id) == if id == op.id then Some(op) else Lookup(ops, id)
  {
    var next := ops + [op];
    forall id
      ensures Lookup(next, id) == if id == op.id then Some(op) else Lookup(ops, id)
    {
      var k := Find(ops, id);
      FindIs(next, id, if k == |ops| && id != op.id then k + 1 else k);
      LookupIsFind(next, id);
      LookupIsFind(ops, id);
    }
  }

  lemma LookupOfMember(ops: seq<Operation>, op: Operation)
    requires UniqueIds(ops) && op in ops
    ensures Lookup(ops, op.id) == Some(op)
  {
    var i :| 0 <= i < |ops| && ops[i] == op;
    FindIs(ops, op.id, i);
    LookupIsFind(ops, op.id);
  }
}

/** History retention: trimOperationHistory and trimAuditHistory. */
module Retention {
  import opened Common
  import opened Records

  /** Drops the first `overflow` records that are not in flight. */
  function DropOldest(ops: seq<Operation>, overflow: int): seq<Operation> {
    if ops == [] then []
    else if overflow > 0 && !InFlight(ops[0]) then DropOldest(ops[1..], overflow - 1)
    else [ops[0]] + DropOldest(ops[1..], overflow)
  }

  function TrimOperations(ops: seq<Operation>): seq<Operation> {
    if |ops| <= MAX_STORED_OPERATIONS then ops else DropOldest(ops, |ops| - MAX_STORED_OPERATIONS)
  }

  function TrimAudits(events: seq<AuditEvent>): (r: seq<AuditEvent>)
    ensures |r| == Min(|events|, MAX_STORED_AUDIT_EVENTS)
    ensures r == events[|events| - |r|..]
  {
    if |events| <= MAX_STORED_AUDIT_EVENTS then events else events[|events| - MAX_STORED_AUDIT_EVENTS..]
  }

  function Select(ops: seq<Operation>, inFlight: bool): seq<Operation> {
    if ops == [] then []
    else (if InFlight(ops[0]) == inFlight then [ops[0]] else []) + Select(ops[1..], inFlight)
  }

  /** `a` is obtained from `b` by deleting elements. */
  ghost predicate Subsequence(a: seq<Operation>, b: seq<Operation>) {
    a == [] || (b != [] && ((a[0] == b[0] && Subsequence(a[1..], b[1..])) || Subsequence(a, b[1..])))
  }

  lemma {:induction false} DropOldestIsSubsequence(ops: seq<Operation>, overflow: int)
    ensures Subsequence(DropOldest(ops, overflow), ops)
  {
    if ops != [] {
      if overflow > 0 && !InFlight(ops[0]) {
        DropOldestIsSubsequence(ops[1..], overflow - 1);
      } else {
        DropOldestIsSubsequence(ops[1..], overflow);
        assert DropOldest(ops, overflow)[1..] == DropOldest(ops[1..], overflow);
      }
    }
  }

  lemma {:induction false} SelectSplits(ops: seq<Operation>)
    ensures |ops| == |Select(ops, true)| + |Select(ops, false)|
  {
    if ops != [] { SelectSplits(ops[1..]); }
  }

  lemma {:induction false} DropOldestIsExact(ops: seq<Operation>, overflow: int)
    ensures Select(DropOldest(ops, overflow), true) == Select(ops, true)
    ensures var done := Select(ops, false);
            Select(DropOldest(ops, overflow), false) == done[Min(Max(overflow, 0), |done|)..]
  {
    if ops != [] {
      if overflow > 0 && !InFlight(ops[0]) {
        DropOldestIsExact(ops[1..], overflow - 1);
        var rest := Select(ops[1..], false);
        assert Select(ops, false) == [ops[0]] + rest;
        var k := Min(overflow - 1, |rest|);
        assert ([ops[0]] + rest)[k + 1..] == rest[k..];
      } else {
        DropOldestIsExact(ops[1..], overflow);
        var kept := DropOldest(ops[1..], overflow);
        assert ([ops[0]] + kept)[1..] == kept;
        if !InFlight(ops[0]) {
          assert Select(ops, false) == [ops[0]] + Select(ops[1..], false);
        }
      }
    }
  }

  /** How many records a trim drops. */
  function Overflow(ops: seq<Operation>): nat { Max(|ops| - MAX_STORED_OPERATIONS, 0) }

  /** What retention promises of `kept`: every in-flight record is there, exactly the `overflow` oldest
      finished ones are not, and the order is kept. */
  ghost predicate Retains(ops: seq<Operation>, overflow: nat, kept: seq<Operation>) {
    && Select(kept, true) == Select(ops, true)
    && (var done := Select(ops, false); Select(kept, false) == done[Min(overflow, |done|)..])
    && Subsequence(kept, ops)
  }

  lemma DropOldestRetains(ops: seq<Operation>, overflow: nat)
    ensures Retains(ops, overflow, DropOldest(ops, overflow))
  {
    DropOldestIsExact(ops, overflow);
    DropOldestIsSubsequence(ops, overflow);
  }

  lemma RetainedCount(ops: seq<Operation>, overflow: nat, kept: seq<Operation>)
    requires Retains(ops, overflow, kept)
    ensures |kept| == |Select(ops, true)| + Max(|Select(ops, false)| - overflow, 0)
  {
    SelectSplits(kept);
  }

  /** Retention keeps every in-flight record, drops exactly the oldest finished ones, keeps the
      order, and leaves max(2000, in-flight) records when it drops anything. */
  lemma RetentionIsExact(ops: seq<Operation>)
    ensures Retains(ops, Overflow(ops), TrimOperations(ops))
    ensures |TrimOperations(ops)| == if Overflow(ops) == 0 then |ops| else Max(MAX_STORED_OPERATIONS, |Select(ops, true)|)
  {
    if |ops| <= MAX_STORED_OPERATIONS {
      DropOldestRetains(ops, 0);
      DropOldestWithoutOverflow(ops, 0);
    } else {
      DropOldestRetains(ops, Overflow(ops));
      RetainedCount(ops, Overflow(ops), TrimOperations(ops));
      SelectSplits(ops);
    }
  }

  lemma {:induction false} DropOldestWithoutOverflow(ops: seq<Operation>, overflow: int)
    requires overflow <= 0 || Select(ops, false) == []
    ensures DropOldest(ops, overflow) == ops
  {
    if ops != [] {
      DropOldestWithoutOverflow(ops[1..], overflow);
    }
  }

  lemma RetentionIsIdempotent(ops: seq<Operation>)
    ensures TrimOperations(TrimOperations(ops)) == TrimOperations(ops)
  {
    var kept := TrimOperations(ops);
    RetentionIsExact(ops);
    if |kept| > MAX_STORED_OPERATIONS {
      SelectSplits(ops);
      DropOldestWithoutOverflow(kept, |kept| - MAX_STORED_OPERATIONS);
    }
  }

  lemma {:induction false} DropOldestMembers(ops: seq<Operation>, overflow: int)
    ensures forall op :: op in DropOldest(ops, overflow) ==> op in ops
    ensures forall op :: op in ops && InFlight(op) ==> op in DropOldest(ops, overflow)
    ensures UniqueIds(ops) ==> UniqueIds(DropOldest(ops, overflow))
  {
    if ops != [] {
      var o := if overflow > 0 && !InFlight(ops[0]) then overflow - 1 else overflow;
      DropOldestMembers(ops[1..], o);
      var rest := DropOldest(ops[1..], o);
      forall i | 0 <= i < |rest| && UniqueIds(ops)
        ensures rest[i].id != ops[0].id
      {
        assert rest[i] in ops[1..];
      }
    }
  }

  /** What a reader of the store sees of a trim: each ID finds what it found, or nothing
      if its record was finished. */
  lemma LookupAfterTrim(ops: seq<Operation>)
    requires UniqueIds(ops)
    ensures UniqueIds(TrimOperations(ops))
    ensures forall id :: Lookup(TrimOperations(ops), id) == Lookup(ops, id)
                         || (Lookup(TrimOperations(ops), id) == None && Lookup(ops, id).Some? && !InFlight(Lookup(ops, id).value))
  {
    DropOldestMembers(ops, |ops| - MAX_STORED_OPERATIONS);
    var kept := TrimOperations(ops);
    forall id
      ensures Lookup(kept, id) == Lookup(ops, id)
              || (Lookup(kept, id) == None && Lookup(ops, id).Some? && !InFlight(Lookup(ops, id).value))
    {
      var k, k' := Find(ops, id), Find(kept, id);
      LookupIsFind(ops, id);
      LookupIsFind(kept, id);
      if k' < |kept| {
        assert kept[k'] in kept;
        LookupOfMember(ops, kept[k']);
      } else if k < |ops| && InFlight(ops[k]) {
        assert ops[k] in kept;
        LookupOfMember(kept, ops[k]);
        assert false;
      }
    }
  }

  method TrimOperationHistory(ops: seq<Operation>) returns (trimmed: seq<Operation>)
    ensures trimmed == TrimOperations(ops)
  {
    var overflow := |ops| - MAX_STORED_OPERATIONS;
    if overflow <= 0 {
      return ops;
    }
    trimmed := [];
    ghost var all := DropOldest(ops, overflow);
    for i := 0 to |ops|
      invariant trimmed + DropOldest(ops[i..], overflow) == all
    {
      assert ops[i..][1..] == ops[i + 1..];
      if overflow > 0 && !InFlight(ops[i]) {
        overflow := overflow - 1;
      } else {
        assert trimmed + ([ops[i]] + DropOldest(ops[i + 1..], overflow)) == trimmed + [ops[i]] + DropOldest(ops[i + 1..], overflow);
        trimmed := trimmed + [ops[i]];
      }
    }
  }

  method TrimAuditHistory(events: seq<AuditEvent>) returns (trimmed: seq<AuditEvent>)
    ensures trimmed == TrimAudits(events)
  {
    if |events| <= MAX_STORED_AUDIT_EVENTS {
      return events;
    }
    trimmed := events[|events| - MAX_STORED_AUDIT_EVENTS..];
  }
}
