/** What each store method asks to commit, field by field, and what it leaves alone. */
module StoreAnswers {
  import opened Common
  import opened Records
  import opened Retention
  import opened StoreSteps

  predicate SameElsewhere(a: Data, b: Data) {
    a.schemaVersion == b.schemaVersion && a.clusters == b.clusters && a.repositories == b.repositories
  }

  /** The place of the record with this ID, if any. */
  predicate IsAt(ops: seq<Operation>, id: string, k: int) {
    0 <= k < |ops| && ops[k].id == id && forall i :: 0 <= i < k ==> ops[i].id != id
  }

  predicate HasId(ops: seq<Operation>, id: string) { exists i :: 0 <= i < |ops| && ops[i].id == id }

  predicate HasEvent(events: seq<AuditEvent>, id: string) { exists i :: 0 <= i < |events| && events[i].id == id }

  /** `after` is `before` with one event more, or the newest 5000 of that. */
  predicate Logs(before: seq<AuditEvent>, event: AuditEvent, after: seq<AuditEvent>) {
    if |before| < 5000 then after == before + [event] else after == before[|before| - 4999..] + [event]
  }

  predicate Unsettled(op: Operation) { op.state == Queued || op.state == Running }

  lemma FoundAt(ops: seq<Operation>, id: string)
    ensures IsAt(ops, id, Find(ops, id)) <==> HasId(ops, id)
    ensures Find(ops, id) == |ops| <==> !HasId(ops, id)
  {
  }

  lemma LogsAppended(d: Data, e: AuditEvent)
    ensures Logs(d.auditEvents, e, AppendAudit(d, e).auditEvents)
  {
    var all, n := d.auditEvents + [e], |d.auditEvents|;
    if n >= 5000 {
      assert all[n + 1 - 5000..] == d.auditEvents[n - 4999..] + [e];
    }
  }

  /** A new operation is stored behind the others exactly if its ID is new. Nothing else changes, and no
      queued or running operation is dropped for it. */
  lemma CreateAppends(d: Data, op: Operation)
    ensures CreateNext(d, op).Ok? <==> !HasId(d.operations, op.id)
    ensures CreateNext(d, op).Err? ==> CreateNext(d, op) == Err(Conflict)
    ensures CreateNext(d, op).Ok? ==>
              var next := CreateNext(d, op).value;
              && SameElsewhere(next, d) && next.auditEvents == d.auditEvents
              && (|d.operations| < 2000 ==> next.operations == d.operations + [op])
              && (forall x :: x in next.operations ==> x in d.operations || x == op)
              && (forall x :: (x in d.operations || x == op) && Unsettled(x) ==> x in next.operations)
  {
    FoundAt(d.operations, op.id);
    DropOldestMembers(d.operations + [op], |d.operations| + 1 - MAX_STORED_OPERATIONS);
  }

  /** An update replaces the record with this ID, and nothing else. */
  lemma UpdateReplaces(d: Data, op: Operation)
    ensures UpdateNext(d, op).Ok? <==> HasId(d.operations, op.id)
    ensures UpdateNext(d, op).Err? ==> UpdateNext(d, op) == Err(NotFound)
    ensures UpdateNext(d, op).Ok? ==>
              var next := UpdateNext(d, op).value;
              && SameElsewhere(next, d) && next.auditEvents == d.auditEvents
              && forall k :: IsAt(d.operations, op.id, k) ==> next.operations == d.operations[k := op]
  {
    FoundAt(d.operations, op.id);
    forall k | IsAt(d.operations, op.id, k) { FindIs(d.operations, op.id, k); }
  }

  /** What a transition request must name. */
  predicate WellPosed(op: Operation, audit: Option<AuditEvent>) {
    op.id != "" && (audit.Some? ==> audit.value.id != "" && audit.value.operationId == op.id)
  }

  lemma TransitionRefuses(d: Data, expected: OperationState, op: Operation, audit: Option<AuditEvent>)
    ensures TransitionNext(d, expected, op, audit) == Err(Malformed) <==> !WellPosed(op, audit)
    ensures TransitionNext(d, expected, op, audit) == Err(NotFound) <==> WellPosed(op, audit) && !HasId(d.operations, op.id)
  {
    FoundAt(d.operations, op.id);
  }

  /** A transition is a compare-and-set: it replaces the record exactly if that is in the expected state,
      and logs its audit event together with it. */
  lemma TransitionSwaps(d: Data, expected: OperationState, op: Operation, audit: Option<AuditEvent>, k: nat)
    requires WellPosed(op, audit) && IsAt(d.operations, op.id, k)
    ensures var r, matches := TransitionNext(d, expected, op, audit), d.operations[k].state == expected;
            && (r.Ok? <==> matches && (audit.Some? ==> !HasEvent(d.auditEvents, audit.value.id)))
            && (r.Err? ==> r == Err(if matches then Conflict else InvalidState))
    ensures TransitionNext(d, expected, op, audit).Ok? ==>
              var next := TransitionNext(d, expected, op, audit).value;
              && SameElsewhere(next, d) && next.operations == d.operations[k := op]
              && if audit.None? then next.auditEvents == d.auditEvents else Logs(d.auditEvents, audit.value, next.auditEvents)
  {
    FindIs(d.operations, op.id, k);
    if audit.Some? { LogsAppended(d.(operations := d.operations[k := op]), audit.value); }
  }

  lemma AuditLogs(d: Data, e: AuditEvent)
    ensures AuditNext(d, e).Ok? <==> !HasEvent(d.auditEvents, e.id)
    ensures AuditNext(d, e).Err? ==> AuditNext(d, e) == Err(Conflict)
    ensures AuditNext(d, e).Ok? ==>
              var next := AuditNext(d, e).value;
              SameElsewhere(next, d) && next.operations == d.operations && Logs(d.auditEvents, e, next.auditEvents)
  {
    LogsAppended(d, e);
  }

  /** Rotation touches one cluster and the audit log. */
  lemma RotationTouchesOneCluster(d: Data, expected: Cluster, updated: Cluster, audit: AuditEvent)
    ensures var r := RotateNext(d, expected, updated, audit);
            r.Ok? ==>
              && r.value.schemaVersion == d.schemaVersion && r.value.repositories == d.repositories && r.value.operations == d.operations
              && Logs(d.auditEvents, audit, r.value.auditEvents)
              && exists k :: 0 <= k < |d.clusters| && d.clusters[k] == expected && r.value.clusters == d.clusters[k := updated]
  {
    if RotateNext(d, expected, updated, audit).Ok? {
      var k := FindCluster(d.clusters, expected.id);
      LogsAppended(d.(clusters := d.clusters[k := updated]), audit);
      assert d.clusters[k] == expected;
    }
  }

  /** Opening a file changes its operations and its audit log only: the newest 5000 events stay, every
      operation that was queued or running becomes unknown, and every other stays or is dropped. */
  lemma OpenChangesOperationsOnly(d: Data, now: int, id: string)
    requires UniqueIds(d.operations)
    ensures var next := Reopened(d, now);
            && SameElsewhere(next, d)
            && next.auditEvents == d.auditEvents[Max(|d.auditEvents| - 5000, 0)..]
            && (|d.operations| <= 2000 ==> |next.operations| == |d.operations|)
            && match Lookup(d.operations, id)
               case None => Lookup(next.operations, id) == None
               case Some(op) =>
                 if Unsettled(op)
                 then Lookup(next.operations, id)
                      == Some(op.(state := Unknown, errorCode := "process_restarted", errorMessage := "interrupted",
                                  updatedAt := now, finishedAt := now))
                 else Lookup(next.operations, id) == Some(op) || (Lookup(next.operations, id) == None && |d.operations| > 2000)
  {
    ReopenSettlesEverything(d, now);
    if |d.operations| <= 2000 {
      ReopenedIsInterrupted(d, now, id);
    }
  }
}
