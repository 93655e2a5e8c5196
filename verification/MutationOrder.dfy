/**
 Revisions keep their order: each operation's result lies between its own
 provider write and the next, and rows that no operation made are older than
 every write. So no two rows of one file ever want the same revision, and the
 unique index on it refuses no marked operation.
 */
module MutationOrder {
  import opened Wrappers
  import opened FileHistory
  import opened FileMutation
  import opened MutationInvariant
  import opened MutationAdmission

  ghost predicate WriteOrdered(s: State, i: nat)
    requires i < |s.writes|
  {
    && s.writes[i].operation in s.db.operations && s.writes[i].revision <= s.revision
    && var operation := s.db.operations[s.writes[i].operation];
    && (operation.previous.Some? ==> operation.previous.value < s.writes[i].revision)
    && (operation.result.Some? ==> s.writes[i].revision <= operation.result.value <= s.revision)
    && (i + 1 < |s.writes| ==>
          && operation.status.Completed?
          && (operation.result.Some? ==> operation.result.value < s.writes[i + 1].revision))
  }

  /** A row that no operation made is older than every write. */
  ghost predicate RowOrdered(s: State, row: Row) {
    row.operation.None? ==>
      row.revision <= s.revision && forall i | 0 <= i < |s.writes| :: row.revision < s.writes[i].revision
  }

  ghost predicate RequestOrdered(s: State, q: Request) {
    && (q.phase.Ready? ==> q.phase.previous <= s.revision)
    && (q.phase.Replaced? || q.phase.Observed? ==>
          s.writes != [] && s.writes[|s.writes| - 1].operation == q.operation)
    && (q.phase.Observed? ==> s.writes != [] && s.writes[|s.writes| - 1].revision <= q.phase.final <= s.revision)
  }

  ghost predicate OperationOrdered(s: State, operation: Operation) {
    && (operation.previous.Some? ==> operation.previous.value <= s.revision)
    && (operation.result.Some? ==> Settled(operation.status))
  }

  ghost predicate Ordered(s: State) {
    && s.unrecoverable == {}
    && (forall op | op in s.db.operations :: OperationOrdered(s, s.db.operations[op]))
    && (forall i: nat | i < |s.writes| :: WriteOrdered(s, i))
    && (forall k | 0 <= k < |s.db.created| :: RowOrdered(s, s.db.created[k]))
    && (forall id | id in s.requests :: RequestOrdered(s, s.requests[id]))
  }

  ghost predicate SafetyInv(s: State) {
    Admission(s) && Ordered(s)
  }

  // ------------------------------------------------------------ nothing is refused

  /** Two written operations never have the same result. */
  lemma ResultsDiffer(s: State, i: nat, j: nat)
    requires Ordered(s) && WritesValid(s) && i < j < |s.writes|
    requires WriteOrdered(s, i) && WriteOrdered(s, j)
    ensures var a, b := s.db.operations[s.writes[i].operation], s.db.operations[s.writes[j].operation];
      a.result.Some? && b.result.Some? ==> a.result.value < b.result.value
  {
  }

  lemma RowsDiffer(s: State, op: OperationId, k: nat)
    requires SafetyInv(s) && op in s.db.operations && s.db.operations[op].result.Some?
    requires k < |s.db.created| && s.db.created[k].operation != Some(op)
    ensures s.db.created[k].revision != s.db.operations[op].result.value
  {
    assert OperationValid(s, op);
    var i: nat :| i < |s.writes| && s.writes[i].operation == op;
    var row := s.db.created[k];
    assert WriteOrdered(s, i) && RowOrdered(s, row);
    if row.operation.Some? {
      var other := row.operation.value;
      assert OperationValid(s, other);
      var j: nat :| j < |s.writes| && s.writes[j].operation == other;
      assert WriteOrdered(s, j);
      if i < j { ResultsDiffer(s, i, j); } else { ResultsDiffer(s, j, i); }
    }
  }

  lemma NothingTaken(s: State, op: OperationId)
    requires SafetyInv(s) && op in s.db.operations && s.db.operations[op].result.Some?
    ensures !RevisionTaken(s.db, op)
  {
    forall k | k in s.db.rows && !HasRow(s.db.rows, op)
      ensures s.db.rows[k].revision != s.db.operations[op].result.value
    {
      assert !IsRowOf(s.db.rows, k, op);
      RowsDiffer(s, op, k - 1);
    }
    assert OperationValid(s, op);
    var i: nat :| i < |s.writes| && s.writes[i].operation == op;
    assert WriteOrdered(s, i);
  }

  lemma SafeIsNeverRefused(s: State)
    requires SafetyInv(s)
    ensures NeverRefused(s)
  {
    forall op | op in s.db.operations && s.db.operations[op].result.Some?
      ensures Settled(s.db.operations[op].status) && !RevisionTaken(s.db, op)
    {
      assert OperationOrdered(s, s.db.operations[op]);
      NothingTaken(s, op);
    }
  }

  // ------------------------------------------------------------ preservation

  /** Steps that change no record, no row and no write; the revision may have grown. */
  lemma SameOrder(s: State, t: State)
    requires Ordered(s) && t.unrecoverable == {}
    requires t.writes == s.writes && t.db.operations == s.db.operations && t.db.created == s.db.created
    requires s.revision <= t.revision
    requires forall id | id in t.requests :: RequestOrdered(t, t.requests[id])
    ensures Ordered(t)
  {
    forall op | op in t.db.operations ensures OperationOrdered(t, t.db.operations[op]) {
      assert OperationOrdered(s, s.db.operations[op]);
    }
    forall i: nat | i < |t.writes| ensures WriteOrdered(t, i) { assert WriteOrdered(s, i); }
    forall k | 0 <= k < |t.db.created| ensures RowOrdered(t, t.db.created[k]) { assert RowOrdered(s, s.db.created[k]); }
  }

  predicate Reads(phase: Phase) {
    !phase.Checked? && !phase.Observed? && !phase.Marked? && !phase.Adopting? && !phase.Ready? && !phase.Conflicted?
  }

  lemma ReadChangesNothing(s: State, id: RequestId)
    requires id in s.requests && Reads(s.requests[id].phase)
    ensures Advanced(s, id).db.operations == s.db.operations && Advanced(s, id).db.created == s.db.created
  {
  }

  lemma ReadRequestOrdered(s: State, id: RequestId)
    requires Admission(s) && id in s.requests && Reads(s.requests[id].phase)
    requires RequestOrdered(s, s.requests[id]) && forall i: nat | i < |s.writes| :: WriteOrdered(s, i)
    ensures RequestOrdered(Advanced(s, id), Advanced(s, id).requests[id])
  {
    assert RequestValid(s, s.requests[id]);
    if s.writes != [] { assert WriteOrdered(s, |s.writes| - 1); }
  }

  lemma ReadKeepsOrder(s: State, id: RequestId)
    requires SafetyInv(s) && id in s.requests && Reads(s.requests[id].phase)
    ensures Ordered(Advanced(s, id))
  {
    var t := Advanced(s, id);
    ReadChangesNothing(s, id);
    assert RequestOrdered(s, s.requests[id]);
    ReadRequestOrdered(s, id);
    forall other | other in t.requests ensures RequestOrdered(t, t.requests[other]) {
      if other != id { assert RequestOrdered(s, s.requests[other]); }
    }
    hide Admission;
    SameOrder(s, t);
  }

  lemma CreateKeepsOrder(s: State, id: RequestId)
    requires SafetyInv(s) && id in s.requests && s.requests[id].phase.Ready?
    ensures Ordered(Create(s, id, s.requests[id].phase.previous))
  {
    var q := s.requests[id];
    var t := Create(s, id, q.phase.previous);
    assert RequestOrdered(s, q);
    forall other | other in t.requests ensures RequestOrdered(t, t.requests[other]) {
      assert RequestOrdered(s, s.requests[other]);
    }
    forall i: nat | i < |t.writes| ensures WriteOrdered(t, i) { assert WriteOrdered(s, i); }
    forall op | op in t.db.operations ensures OperationOrdered(t, t.db.operations[op]) {
      if op in s.db.operations { assert OperationOrdered(s, s.db.operations[op]); }
    }
    forall k | 0 <= k < |t.db.created| ensures RowOrdered(t, t.db.created[k]) { assert RowOrdered(s, s.db.created[k]); }
  }

  lemma WriteKeepsOrder(s: State, id: RequestId)
    requires SafetyInv(s) && id in s.requests && s.requests[id].phase.Checked?
    requires s.revision == s.requests[id].expected
    ensures Ordered(Replace(s, id))
  {
    var q := s.requests[id];
    var t := Replace(s, id);
    NoOpenWrite(s, id);
    assert RequestValid(s, q);
    assert OperationOrdered(s, s.db.operations[q.operation]);
    forall i: nat | i < |t.writes| ensures WriteOrdered(t, i) {
      if i < |s.writes| { assert WriteOrdered(s, i); }
    }
    forall op | op in t.db.operations ensures OperationOrdered(t, t.db.operations[op]) {
      assert OperationOrdered(s, s.db.operations[op]);
    }
    forall k | 0 <= k < |t.db.created| ensures RowOrdered(t, t.db.created[k]) { assert RowOrdered(s, s.db.created[k]); }
    forall other | other in t.requests ensures RequestOrdered(t, t.requests[other]) {
      assert RequestOrdered(s, s.requests[other]);
    }
  }

  /** Marking, or failing, the record its owner holds. */
  lemma StoreKeepsOrder(s: State, id: RequestId, operation: Operation, phase: Phase)
    requires SafetyInv(s) && id in s.requests && s.requests[id].operation in s.db.operations
    requires var q, before := s.requests[id], s.db.operations[s.requests[id].operation];
      || (q.phase.Observed? && operation == before.(status := ProviderWritten, result := Some(q.phase.final))
          && phase == Marked(q.phase.final))
      || (q.phase.Conflicted? && operation == before.(status := Failed) && phase == Rejected)
    ensures Ordered(At(SetOperation(s, s.requests[id].operation, operation), id, phase))
  {
    var q := s.requests[id];
    var t := At(SetOperation(s, q.operation, operation), id, phase);
    assert RequestValid(s, q) && RequestOrdered(s, q) && OperationValid(s, q.operation);
    forall i: nat | i < |t.writes| ensures WriteOrdered(t, i) {
      assert WriteOrdered(s, i);
      if s.writes[i].operation == q.operation { assert Wrote(s.writes, q.operation); }
    }
    forall op | op in t.db.operations ensures OperationOrdered(t, t.db.operations[op]) {
      assert OperationOrdered(s, s.db.operations[op]);
    }
    forall k | 0 <= k < |t.db.created| ensures RowOrdered(t, t.db.created[k]) { assert RowOrdered(s, s.db.created[k]); }
    forall other | other in t.requests ensures RequestOrdered(t, t.requests[other]) {
      assert RequestOrdered(s, s.requests[other]);
    }
  }

  /** The INITIAL row is inserted while the operation it is inserted for is the only one written. */
  lemma FirstIsOnlyWrite(s: State, op: OperationId)
    requires SafetyInv(s) && op in s.db.operations && Settled(s.db.operations[op].status) && s.db.created == []
    ensures |s.writes| == 1 && s.writes[0].operation == op
  {
    assert OperationValid(s, op);
    var i: nat :| i < |s.writes| && s.writes[i].operation == op;
    var first: nat := 0;
    assert WriteOrdered(s, first);
    assert |s.writes| > 1 ==> s.writes[first].operation in s.db.audits;
    assert |s.writes| > 1 ==> InHistory(s.db.created, s.writes[first].operation);
  }

  lemma RowsAfterFinalize(s: State, op: OperationId, k: nat)
    requires SafetyInv(s) && Refusal(s.db, op).None? && k < |Finalized(s.db, op).created|
    ensures RowOrdered(s, Finalized(s.db, op).created[k])
  {
    if k < |s.db.created| {
      assert RowOrdered(s, s.db.created[k]);
    } else if Finalized(s.db, op).created[k].operation.None? {
      EmptyOnlyBeforeFirstRow(s.db, s.limit);
      FirstIsOnlyWrite(s, op);
      assert WriteOrdered(s, 0) && OperationOrdered(s, s.db.operations[op]);
    }
  }

  lemma FinalizeKeepsOrder(s: State, op: OperationId)
    requires SafetyInv(s)
    ensures Ordered(s.(db := Finalized(s.db, op)))
  {
    if Refusal(s.db, op).Some? { return; }
    var t := s.(db := Finalized(s.db, op));
    forall k | 0 <= k < |t.db.created| ensures RowOrdered(t, t.db.created[k]) { RowsAfterFinalize(s, op, k); }
    assert t.db.operations == s.db.operations[op := s.db.operations[op].(status := Completed)];
    assert s.unrecoverable == {};
    hide Finalized, Refusal, Admission, RowOrdered;
    forall i: nat | i < |t.writes| ensures WriteOrdered(t, i) { assert WriteOrdered(s, i); }
    forall o | o in t.db.operations ensures OperationOrdered(t, t.db.operations[o]) {
      assert OperationOrdered(s, s.db.operations[o]);
    }
    forall id | id in t.requests ensures RequestOrdered(t, t.requests[id]) { assert RequestOrdered(s, s.requests[id]); }
  }

  /** Moving a request to a phase that remembers nothing about revisions. */
  lemma PhaseKeepsOrder(s: State, id: RequestId, phase: Phase)
    requires Ordered(s) && id in s.requests
    requires !phase.Ready? && !phase.Replaced? && !phase.Observed?
    ensures Ordered(At(s, id, phase))
  {
    var t := At(s, id, phase);
    forall other | other in t.requests ensures RequestOrdered(t, t.requests[other]) {
      assert RequestOrdered(s, s.requests[other]);
    }
    SameOrder(s, t);
  }

  lemma CommitKeepsOrder(s: State, id: RequestId)
    requires SafetyInv(s) && id in s.requests && (s.requests[id].phase.Marked? || s.requests[id].phase.Adopting?)
    ensures Ordered(Advanced(s, id))
  {
    var q := s.requests[id];
    var next := if q.phase.Marked? then Recorded(q.phase.final) else Adopted;
    assert Advanced(s, id) == Commit(s, id, next);
    hide Advanced;
    if Refusal(s.db, q.operation).Some? {
      PhaseKeepsOrder(s, id, Rejected);
    } else {
      FinalizeKeepsOrder(s, q.operation);
      PhaseKeepsOrder(s.(db := Finalized(s.db, q.operation)), id, next);
    }
  }

  lemma AdvanceKeepsOrder(s: State, id: RequestId)
    requires SafetyInv(s) && id in s.requests && Holds(AtomicReplaces, s, Advance(id))
    ensures Ordered(Advanced(s, id))
  {
    var q := s.requests[id];
    assert RequestValid(s, q);
    hide Ordered, Admission;
    match q.phase
    case Checked => WriteKeepsOrder(s, id);
    case Ready(_) => CreateKeepsOrder(s, id);
    case Observed(final) =>
      StoreKeepsOrder(s, id, s.db.operations[q.operation].(status := ProviderWritten, result := Some(final)), Marked(final));
    case Conflicted => StoreKeepsOrder(s, id, s.db.operations[q.operation].(status := Failed), Rejected);
    case Marked(_) => CommitKeepsOrder(s, id);
    case Adopting => CommitKeepsOrder(s, id);
    case _ => ReadKeepsOrder(s, id);
  }

  lemma OtherStepKeepsOrder(s: State, step: Step)
    requires SafetyInv(s) && !step.Advance? && !step.Reconcile? && !step.GiveUp?
    ensures Ordered(Apply(s, step))
  {
    var t := Apply(s, step);
    assert s.unrecoverable == {} && s.revision < s.minted;
    hide Admission, WriteOrdered, RowOrdered, OperationOrdered;
    forall id | id in t.requests ensures RequestOrdered(t, t.requests[id]) {
      if id in s.requests { assert RequestOrdered(s, s.requests[id]); }
    }
    SameOrder(s, t);
  }

  lemma StepKeepsOrder(s: State, step: Step)
    requires SafetyInv(s) && HoldsAll(ONE_WRITER, s, step)
    ensures SafetyInv(Apply(s, step))
  {
    assert Holds(AtomicReplaces, s, step);
    SafeIsNeverRefused(s);
    StepKeepsSafe(s, step);
    hide Admission, Ordered, NeverRefused;
    match step
    case Advance(id) => if id in s.requests { AdvanceKeepsOrder(s, id); }
    case Reconcile(op) => ReconcileKeepsOrder(s, op);
    case GiveUp(op) => ReconcileKeepsOrder(s, op);
    case _ => OtherStepKeepsOrder(s, step);
  }

  lemma ReconcileKeepsOrder(s: State, op: OperationId)
    requires SafetyInv(s)
    ensures Ordered(Apply(s, Reconcile(op))) && Apply(s, GiveUp(op)) == s
  {
    SafeIsNeverRefused(s);
    RefusedIffTaken(s, op);
    FinalizeKeepsOrder(s, op);
  }
}
