/**
 What every run of the mutation protocol keeps, whatever the provider, other
 writers and crashes do: one request owns each open operation record, each
 operation is written to the provider at most once, its result is fixed when
 it is set, and every success answers with that result.
 */
module MutationInvariant {
  import opened Collections
  import opened Wrappers
  import opened FileHistory
  import opened FileMutation

  ghost predicate Wrote(writes: seq<Write>, op: OperationId) {
    exists i | 0 <= i < |writes| :: writes[i].operation == op
  }

  predicate BeforeWrite(phase: Phase) {
    phase.Registered? || phase.Checked? || phase.Conflicted?
  }

  /** The request created the record and has not yet closed or marked it. */
  predicate Owns(phase: Phase) {
    BeforeWrite(phase) || phase.Replaced? || phase.Observed?
  }

  predicate HasFinal(phase: Phase) {
    phase.Marked? || phase.Recorded? || phase.Pruning?
  }

  predicate Settled(status: Status) {
    status.ProviderWritten? || status.Completed?
  }

  ghost predicate RequestValid(s: State, q: Request) {
    var ops := s.db.operations;
    && (Owns(q.phase) ==>
          && q.operation in ops && ops[q.operation].status.Pending?
          && ops[q.operation].kind == q.kind && ops[q.operation].expected == q.expected)
    && (BeforeWrite(q.phase) ==> !Wrote(s.writes, q.operation))
    && (q.phase.Replaced? || q.phase.Observed? ==> Wrote(s.writes, q.operation))
    && (HasFinal(q.phase) ==>
          q.operation in ops && ops[q.operation].result == Some(q.phase.final))
    && (q.phase.Responded? ==> q.operation in ops && ops[q.operation].result == Some(q.phase.revision))
    && (q.phase == Replaying(AfterDuplicate) ==> q.operation in ops)
    && (q.phase.Pruning? ==>
          forall i | 0 <= i < |q.phase.todo| :: q.phase.todo[i] + s.limit <= |s.db.created|)
  }

  ghost predicate OperationValid(s: State, op: OperationId)
    requires op in s.db.operations
  {
    var operation := s.db.operations[op];
    && (Settled(operation.status) ==> operation.result.Some?)
    && (operation.status.Pending? ==> operation.result.None?)
    && (operation.result.Some? ==> Wrote(s.writes, op))
    && (operation.status.Failed? && operation.result.None? ==> !Wrote(s.writes, op))
    && (operation.kind.Save? ==> operation.previous.Some?)
  }

  ghost predicate WritesValid(s: State) {
    && s.revision < s.minted
    && (forall i | 0 <= i < |s.writes| ::
          s.writes[i].revision < s.minted && s.writes[i].operation in s.db.operations)
    && (forall i, j | 0 <= i < j < |s.writes| ::
          s.writes[i].operation != s.writes[j].operation && s.writes[i].revision < s.writes[j].revision)
  }

  /**
   The finalizer went through for this operation. It is COMPLETED, unless the
   worker stored FAILED later for an error it had met before.
   */
  predicate IsFinalized(db: Database, op: OperationId) {
    op in db.audits
  }

  /** A finalized operation has its audit row and its event, and no other has. */
  ghost predicate EffectsValid(db: Database) {
    && NoRepeats(db.audits) && NoRepeats(db.events)
    && (forall op :: op in db.audits <==> op in db.events)
    && (forall op | op in db.audits :: op in db.operations && db.operations[op].result.Some?
          && (db.operations[op].status.Completed? || db.operations[op].status.Failed?))
    && (forall op | op in db.operations && db.operations[op].status.Completed? :: op in db.audits)
  }

  ghost predicate OwnersDistinct(s: State) {
    forall a, b | a in s.requests && b in s.requests && a != b
      && Owns(s.requests[a].phase) && Owns(s.requests[b].phase) ::
      s.requests[a].operation != s.requests[b].operation
  }

  ghost predicate RowsOfFinalized(db: Database) {
    forall i | 0 <= i < |db.created| && db.created[i].operation.Some? ::
      var op := db.created[i].operation.value;
      && IsFinalized(db, op) && op in db.operations
      && db.operations[op].result == Some(db.created[i].revision)
      && db.created[i].source == SourceOf(db.operations[op].kind)
  }

  ghost predicate InHistory(created: seq<Row>, op: OperationId) {
    exists i | 0 <= i < |created| :: created[i].operation == Some(op)
  }

  ghost predicate FinalizedInHistory(db: Database) {
    forall op | op in db.audits :: InHistory(db.created, op)
  }

  ghost predicate Inv(s: State) {
    && s.limit >= 1
    && HistoryValid(s.db, s.limit)
    && WritesValid(s)
    && EffectsValid(s.db)
    && RowsOfFinalized(s.db)
    && FinalizedInHistory(s.db)
    && OwnersDistinct(s)
    && (forall op | op in s.unrecoverable :: op in s.db.operations && s.db.operations[op].result.Some?)
    && (forall op | op in s.db.operations :: OperationValid(s, op))
    && (forall id | id in s.requests :: RequestValid(s, s.requests[id]))
  }

  lemma StartInv(limit: nat, initial: Revision, uploaded: bool)
    requires limit >= 1
    ensures Inv(Start(limit, initial, uploaded))
  {
  }

  // ------------------------------------------------------------ one step each

  lemma AtKeepsInv(s: State, id: RequestId, phase: Phase)
    requires Inv(s) && id in s.requests
    requires RequestValid(s, s.requests[id].(phase := phase))
    requires Owns(phase) ==> Owns(s.requests[id].phase)
    ensures Inv(At(s, id, phase))
  {
    var t := At(s, id, phase);
    forall r | r in t.requests ensures RequestValid(t, t.requests[r]) {
      assert RequestValid(s, t.requests[r]);
    }
    forall op | op in t.db.operations ensures OperationValid(t, op) {
      assert OperationValid(s, op);
    }
  }

  lemma ReplayKeepsInv(s: State, id: RequestId)
    requires Inv(s) && id in s.requests
    requires !Owns(s.requests[id].phase) && !HasFinal(s.requests[id].phase)
    ensures Inv(Replay(s, id))
  {
    var q := s.requests[id];
    assert RequestValid(s, q);
    if q.operation in s.db.operations {
      assert OperationValid(s, q.operation);
    }
    var t := Replay(s, id);
    AtKeepsInv(s, id, t.requests[id].phase);
    assert t == At(s, id, t.requests[id].phase);
  }

  lemma CreateKeepsInv(s: State, id: RequestId, previous: Revision)
    requires Inv(s) && id in s.requests && !Owns(s.requests[id].phase)
    ensures Inv(Create(s, id, previous))
  {
    var q := s.requests[id];
    if q.operation in s.db.operations {
      AtKeepsInv(s, id, Replaying(AfterDuplicate));
    } else {
      var t := Create(s, id, previous);
      assert !Wrote(s.writes, q.operation);
      forall r | r in t.requests ensures RequestValid(t, t.requests[r]) {
        assert RequestValid(s, s.requests[r]);
      }
      forall op | op in t.db.operations ensures OperationValid(t, op) {
        assert op != q.operation ==> OperationValid(s, op);
      }
      forall r | r in s.requests && Owns(s.requests[r].phase) ensures s.requests[r].operation != q.operation {
        assert RequestValid(s, s.requests[r]);
      }
    }
  }

  lemma ReplaceKeepsInv(s: State, id: RequestId)
    requires Inv(s) && id in s.requests && s.requests[id].phase.Checked?
    ensures Inv(Replace(s, id))
  {
    var q := s.requests[id];
    assert RequestValid(s, q);
    var t := Replace(s, id);
    assert t.writes[|s.writes|].operation == q.operation;
    forall op ensures Wrote(t.writes, op) <==> Wrote(s.writes, op) || op == q.operation {
      if Wrote(s.writes, op) {
        var i :| 0 <= i < |s.writes| && s.writes[i].operation == op;
        assert t.writes[i].operation == op;
      }
    }
    forall r | r in t.requests ensures RequestValid(t, t.requests[r]) {
      assert RequestValid(s, s.requests[r]);
    }
    forall op | op in t.db.operations ensures OperationValid(t, op) {
      assert OperationValid(s, op);
    }
  }

  /** Closing or marking the record its owner holds. */
  lemma OwnerUpdateKeepsInv(s: State, id: RequestId, operation: Operation, phase: Phase)
    requires Inv(s) && id in s.requests && Owns(s.requests[id].phase) && !Owns(phase)
    requires var op := s.requests[id].operation;
      op in s.db.operations && operation.kind == s.db.operations[op].kind
      && operation.previous == s.db.operations[op].previous && !operation.status.Completed?
    requires OperationValid(SetOperation(s, s.requests[id].operation, operation), s.requests[id].operation)
    requires RequestValid(SetOperation(s, s.requests[id].operation, operation), s.requests[id].(phase := phase))
    ensures Inv(At(SetOperation(s, s.requests[id].operation, operation), id, phase))
  {
    var q := s.requests[id];
    var t := At(SetOperation(s, q.operation, operation), id, phase);
    assert RequestValid(s, q) && OperationValid(s, q.operation);
    forall r | r in t.requests ensures RequestValid(t, t.requests[r]) {
      assert RequestValid(s, s.requests[r]);
    }
    forall op | op in t.db.operations ensures OperationValid(t, op) {
      assert op != q.operation ==> OperationValid(s, op);
    }
  }

  lemma MarkKeepsInv(s: State, id: RequestId, final: Revision)
    requires Inv(s) && id in s.requests && s.requests[id].phase.Observed?
    ensures Inv(Mark(s, id, final))
  {
    var q := s.requests[id];
    assert RequestValid(s, q) && OperationValid(s, q.operation);
    OwnerUpdateKeepsInv(s, id, s.db.operations[q.operation].(status := ProviderWritten, result := Some(final)), Marked(final));
  }

  lemma ConflictKeepsInv(s: State, id: RequestId)
    requires Inv(s) && id in s.requests && s.requests[id].phase.Conflicted?
    ensures Inv(Advanced(s, id))
  {
    var q := s.requests[id];
    assert RequestValid(s, q) && OperationValid(s, q.operation);
    OwnerUpdateKeepsInv(s, id, s.db.operations[q.operation].(status := Failed), Rejected);
  }

  lemma UpsertOnce(log: seq<OperationId>, op: OperationId)
    requires NoRepeats(log)
    ensures NoRepeats(Upsert(log, op))
    ensures forall other :: other in Upsert(log, op) <==> other in log || other == op
  {
  }

  lemma EnsureRowKeepsRows(db: Database, op: OperationId)
    requires Refusal(db, op).None? && RowsOfFinalized(db)
    ensures RowsOfFinalized(Finalized(db, op))
  {
  }

  lemma EnsureRowRecords(db: Database, op: OperationId, limit: nat)
    requires Refusal(db, op).None? && HistoryValid(db, limit) && FinalizedInHistory(db)
    ensures FinalizedInHistory(Finalized(db, op))
  {
    var t := Finalized(db, op);
    if HasRow(db.rows, op) {
      var k :| k in db.rows && IsRowOf(db.rows, k, op);
      assert db.created[k - 1].operation == Some(op);
    } else {
      assert t.created[|t.created| - 1].operation == Some(op);
    }
    assert InHistory(t.created, op);
    forall other | other in db.audits ensures InHistory(t.created, other) {
      var i :| 0 <= i < |db.created| && db.created[i].operation == Some(other);
      assert t.created[i].operation == Some(other);
    }
  }

  lemma FinalizedKeepsInv(s: State, op: OperationId)
    requires Inv(s)
    ensures Inv(s.(db := Finalized(s.db, op)))
  {
    if Refusal(s.db, op).Some? { return; }
    var t := s.(db := Finalized(s.db, op));
    FinalizedKeepsHistory(s.db, op, s.limit);
    EnsureRowKeepsRows(s.db, op);
    EnsureRowRecords(s.db, op, s.limit);
    UpsertOnce(s.db.audits, op);
    UpsertOnce(s.db.events, op);
    assert OperationValid(s, op);
    assert t.db.operations == s.db.operations[op := s.db.operations[op].(status := Completed)];
    forall other | other in t.db.operations ensures OperationValid(t, other) {
      assert OperationValid(s, other);
    }
    forall r | r in t.requests ensures RequestValid(t, t.requests[r]) {
      assert RequestValid(s, s.requests[r]);
      assert |s.db.created| <= |t.db.created|;
    }
  }

  /** The finalizer goes through for a marked operation unless the unique index refuses its row. */
  lemma RefusedIffTaken(s: State, op: OperationId)
    requires Inv(s)
    ensures Refusal(s.db, op).None? <==>
      op in s.db.operations && Settled(s.db.operations[op].status) && !RevisionTaken(s.db, op)
    ensures op in s.db.operations && Settled(s.db.operations[op].status) && RevisionTaken(s.db, op) ==>
      Refusal(s.db, op) == Some(DuplicateRevision)
  {
    if op in s.db.operations {
      assert OperationValid(s, op);
    }
  }

  lemma CommitKeepsInv(s: State, id: RequestId, next: Phase)
    requires Inv(s) && id in s.requests
    requires (s.requests[id].phase.Adopting? && next == Adopted)
      || (s.requests[id].phase.Marked? && next == Recorded(s.requests[id].phase.final))
    ensures Inv(Commit(s, id, next))
  {
    var q := s.requests[id];
    if Refusal(s.db, q.operation).Some? {
      AtKeepsInv(s, id, Rejected);
    } else {
      FinalizedKeepsInv(s, q.operation);
      var t := s.(db := Finalized(s.db, q.operation));
      assert RequestValid(t, t.requests[id]);
      AtKeepsInv(t, id, next);
    }
  }

  lemma DeleteKeepsInv(s: State, id: RequestId)
    requires Inv(s) && id in s.requests && s.requests[id].phase.Pruning? && s.requests[id].phase.todo != []
    ensures Inv(s.(db := DeleteRow(s.db, s.requests[id].phase.todo[0])))
  {
    var k := s.requests[id].phase.todo[0];
    assert RequestValid(s, s.requests[id]);
    DeleteKeepsHistory(s.db, k, s.limit);
    var t := s.(db := DeleteRow(s.db, k));
    forall op | op in t.db.operations ensures OperationValid(t, op) {
      assert OperationValid(s, op);
    }
    forall r | r in t.requests ensures RequestValid(t, t.requests[r]) {
      assert RequestValid(s, s.requests[r]);
    }
  }

  lemma PruneKeepsInv(s: State, id: RequestId, deletes: bool)
    requires Inv(s) && id in s.requests && s.requests[id].phase.Pruning? && s.requests[id].phase.todo != []
    ensures var q := s.requests[id];
      var t := if deletes then s.(db := DeleteRow(s.db, q.phase.todo[0])) else s;
      Inv(At(t, id, Pruning(q.phase.final, q.phase.todo[1..])))
  {
    var q := s.requests[id];
    var t := if deletes then s.(db := DeleteRow(s.db, q.phase.todo[0])) else s;
    if deletes { DeleteKeepsInv(s, id); }
    assert RequestValid(t, t.requests[id]);
    AtKeepsInv(t, id, Pruning(q.phase.final, q.phase.todo[1..]));
  }

  lemma PruneNextKeepsInv(s: State, id: RequestId)
    requires Inv(s) && id in s.requests && s.requests[id].phase.Pruning?
    ensures Inv(Advanced(s, id))
  {
    hide Replay, Create, Mark, Commit, Replace, Removable, OperationValid, HistoryValid;
    var q := s.requests[id];
    assert RequestValid(s, q);
    if q.phase.todo == [] {
      assert RequestValid(s, q.(phase := Responded(q.phase.final)));
      hide Inv, RequestValid;
      AtKeepsInv(s, id, Responded(q.phase.final));
    } else {
      hide Inv, RequestValid;
      PruneKeepsInv(s, id, true);
    }
  }

  lemma PlanKeepsInv(s: State, id: RequestId)
    requires Inv(s) && id in s.requests && s.requests[id].phase.Recorded?
    ensures Inv(Advanced(s, id))
  {
    assert RequestValid(s, s.requests[id]);
    forall i: nat | i < |Removable(s.db.rows, s.limit)|
      ensures Removable(s.db.rows, s.limit)[i] + s.limit <= |s.db.created|
    {
      RemovableIsOld(s.db, s.limit, i);
    }
    AtKeepsInv(s, id, Pruning(s.requests[id].phase.final, Removable(s.db.rows, s.limit)));
  }

  /** The phases in which a request only reads. */
  lemma ReadKeepsInv(s: State, id: RequestId)
    requires Inv(s) && id in s.requests
    requires var phase := s.requests[id].phase;
      phase.NotReplayed? || phase.Unblocked? || phase.Current? || phase.Registered? || phase.Replaced? || phase.Adopted?
    ensures Inv(Advanced(s, id))
  {
    assert RequestValid(s, s.requests[id]);
    AtKeepsInv(s, id, Advanced(s, id).requests[id].phase);
  }

  predicate Stores(phase: Phase) {
    || phase.Ready? || phase.Checked? || phase.Observed? || phase.Marked? || phase.Adopting? || phase.Conflicted?
  }

  lemma StoringKeepsInv(s: State, id: RequestId)
    requires Inv(s) && id in s.requests && Stores(s.requests[id].phase)
    ensures Inv(Advanced(s, id))
  {
    hide Inv, RequestValid, Create, Replace, Mark, Commit;
    match s.requests[id].phase
    case Ready(previous) => CreateKeepsInv(s, id, previous);
    case Checked => ReplaceKeepsInv(s, id);
    case Observed(final) => MarkKeepsInv(s, id, final);
    case Marked(final) => CommitKeepsInv(s, id, Recorded(final));
    case Adopting => CommitKeepsInv(s, id, Adopted);
    case Conflicted => ConflictKeepsInv(s, id);
  }

  lemma AdvanceKeepsInv(s: State, id: RequestId)
    requires Inv(s) && id in s.requests
    ensures Inv(Advanced(s, id))
  {
    if Stores(s.requests[id].phase) {
      StoringKeepsInv(s, id);
      return;
    }
    hide Inv;
    match s.requests[id].phase
    case Arrived => ReplayKeepsInv(s, id);
    case Replaying(_) => ReplayKeepsInv(s, id);
    case Recorded(_) => PlanKeepsInv(s, id);
    case Pruning(_, _) => PruneNextKeepsInv(s, id);
    case Responded(_) =>
    case Rejected =>
    case _ => ReadKeepsInv(s, id);
  }

  lemma RefusedKeepsInv(s: State, op: OperationId)
    requires Inv(s) && op in s.db.operations && s.db.operations[op].result.Some?
    ensures Inv(s.(unrecoverable := s.unrecoverable + {op}))
  {
    var t := s.(unrecoverable := s.unrecoverable + {op});
    forall r | r in t.requests ensures RequestValid(t, t.requests[r]) { assert RequestValid(s, s.requests[r]); }
    forall o | o in t.db.operations ensures OperationValid(t, o) { assert OperationValid(s, o); }
  }

  lemma ReconciledKeepsInv(s: State, op: OperationId)
    requires Inv(s)
    ensures Inv(Reconciled(s, op))
  {
    FinalizedKeepsInv(s, op);
    if op in s.db.operations && s.db.operations[op].result.Some? { RefusedKeepsInv(s, op); }
  }

  lemma GiveUpKeepsInv(s: State, op: OperationId)
    requires Inv(s)
    ensures Inv(Apply(s, GiveUp(op)))
  {
    var t := Apply(s, GiveUp(op));
    forall r | r in t.requests ensures RequestValid(t, t.requests[r]) {
      assert RequestValid(s, s.requests[r]);
      if op in s.db.operations { assert OperationValid(s, op); }
    }
    forall o | o in t.db.operations ensures OperationValid(t, o) { assert OperationValid(s, o); }
  }

  lemma ApplyKeepsInv(s: State, step: Step)
    requires Inv(s)
    ensures Inv(Apply(s, step))
  {
    match step
    case Advance(id) => if id in s.requests { AdvanceKeepsInv(s, id); }
    case ReleaseFails(id) =>
      if id in s.requests && s.requests[id].phase.Pruning? && s.requests[id].phase.todo != [] {
        PruneKeepsInv(s, id, false);
      }
    case Abandon(id) =>
      if id in s.requests && !s.requests[id].phase.Responded? { AtKeepsInv(s, id, Rejected); }
    case Reconcile(op) => ReconciledKeepsInv(s, op);
    case GiveUp(op) => GiveUpKeepsInv(s, op);
    case Arrive(id, op, kind, expected) =>
      var t := Apply(s, step);
      forall r | r in t.requests ensures RequestValid(t, t.requests[r]) {
        assert r in s.requests ==> RequestValid(s, s.requests[r]);
      }
      forall op | op in t.db.operations ensures OperationValid(t, op) { assert OperationValid(s, op); }
    case OutsideWrite =>
      var t := Apply(s, step);
      forall r | r in t.requests ensures RequestValid(t, t.requests[r]) { assert RequestValid(s, s.requests[r]); }
      forall op | op in t.db.operations ensures OperationValid(t, op) { assert OperationValid(s, op); }
  }

  lemma {:induction false} RunKeepsInv(s: State, steps: seq<Step>)
    requires Inv(s)
    ensures Inv(Run(s, steps))
    decreases |steps|
  {
    if steps != [] {
      RunKeepsInv(s, steps[..|steps| - 1]);
      ApplyKeepsInv(Run(s, steps[..|steps| - 1]), steps[|steps| - 1]);
    }
  }
}
