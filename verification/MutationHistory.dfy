/**
 With no outside writer the history of a file is its provider writes: the rows
 appear in provider order, each carries the revision its own write produced,
 each write replaced the revision of the row before it, and the first row is
 the revision from before the first write.
 */
module MutationHistory {
  import opened Wrappers
  import opened FileHistory
  import opened FileMutation
  import opened MutationInvariant
  import opened MutationAdmission
  import opened MutationOrder
  import opened MutationSafety
  import opened MutationIdempotence

  const QUIET := {KnownRevisions, AtomicReplaces, NoOutsideWrites, RowsKept}

  /** The revision the provider shows after its `j`-th mutation write. */
  function Produced(s: State, j: nat): Revision
    requires j <= |s.writes|
  {
    if j == 0 then s.initial else s.writes[j - 1].revision
  }

  ghost predicate Done(s: State, op: OperationId) {
    op in s.db.operations && s.db.operations[op].status.Completed?
  }

  /** How many writes are complete: all of them, or all but the last. */
  ghost function Finished(s: State): nat {
    if s.writes != [] && !Done(s, s.writes[|s.writes| - 1].operation) then |s.writes| - 1 else |s.writes|
  }

  ghost predicate WriteTracked(s: State, j: nat)
    requires j < |s.writes|
  {
    && s.writes[j].operation in s.db.operations
    && var operation := s.db.operations[s.writes[j].operation];
    && operation.expected == Produced(s, j) && Produced(s, j) < s.writes[j].revision
    && (Settled(operation.status) ==> operation.result == Some(s.writes[j].revision))
    && (operation.kind.Save? ==> operation.previous == Some(operation.expected))
    && (j < |s.writes| - 1 ==> operation.status.Completed?)
  }

  /** Row `j + 1` is the `j`-th write, and row 0 is what was there before. */
  ghost predicate RowsFollowWrites(s: State) {
    var created := s.db.created;
    if created == [] then Finished(s) == 0
    else
      && |created| == Finished(s) + 1
      && created[0] == Row(s.initial, Initial, None)
      && forall j | 0 <= j < Finished(s) ::
           created[j + 1].revision == s.writes[j].revision && created[j + 1].operation == Some(s.writes[j].operation)
  }

  ghost predicate RequestTracked(s: State, q: Request) {
    && (q.kind.Restore? && !q.phase.Rejected? ==> s.db.created != [])
    && (q.phase.Current? || q.phase.Ready? ==> q.expected <= s.revision)
    && (q.phase.Ready? ==> q.phase.previous == q.expected || q.expected < s.revision)
    && (BeforeWrite(q.phase) && q.kind.Save? && q.operation in s.db.operations ==>
          s.db.operations[q.operation].previous == Some(q.expected) || q.expected < s.revision)
    && (q.phase.Replaced? || q.phase.Observed? ==>
          s.writes != [] && s.writes[|s.writes| - 1].operation == q.operation)
    && (q.phase.Observed? ==> q.phase.final == s.revision)
  }

  ghost predicate HistoryCore(s: State) {
    && s.revision == Produced(s, |s.writes|)
    && (forall j: nat | j < |s.writes| :: WriteTracked(s, j))
    && RowsFollowWrites(s)
    && (forall op | op in s.db.operations && s.db.operations[op].kind.Restore? :: s.db.created != [])
    && (forall id | id in s.requests :: RequestTracked(s, s.requests[id]))
  }

  ghost predicate HistoryInv(s: State) {
    SafetyInv(s) && HistoryCore(s)
  }

  lemma StartHistory(limit: nat, initial: Revision, uploaded: bool)
    requires limit >= 1
    ensures HistoryInv(Start(limit, initial, uploaded))
  {
    StartSafe(limit, initial, uploaded);
  }

  // --------------------------------------------------------- steps that read

  /** A step that only moves requests keeps the history. */
  lemma SameHistory(s: State, t: State)
    requires HistoryCore(s)
    requires t.writes == s.writes && t.initial == s.initial && t.revision == s.revision
    requires t.db.operations == s.db.operations && t.db.created == s.db.created
    requires forall id | id in t.requests :: RequestTracked(t, t.requests[id])
    ensures HistoryCore(t)
  {
    forall j: nat | j < |t.writes| ensures WriteTracked(t, j) {
      assert WriteTracked(s, j);
    }
  }

  lemma ReplayTracked(s: State, id: RequestId)
    requires id in s.requests && RequestTracked(s, s.requests[id]) && RequestValid(s, s.requests[id])
    requires s.requests[id].phase.Arrived? || s.requests[id].phase.Replaying?
    ensures RequestTracked(Replay(s, id), Replay(s, id).requests[id])
  {
  }

  lemma ReadTracked(s: State, id: RequestId)
    requires id in s.requests && RequestTracked(s, s.requests[id]) && RequestValid(s, s.requests[id])
    requires Reads(s.requests[id].phase)
    ensures RequestTracked(Advanced(s, id), Advanced(s, id).requests[id])
  {
    ReadChangesNothing(s, id);
    if s.requests[id].phase.Arrived? || s.requests[id].phase.Replaying? {
      ReplayTracked(s, id);
    }
  }

  lemma ReadKeepsHistory(s: State, id: RequestId)
    requires HistoryInv(s) && id in s.requests && Reads(s.requests[id].phase)
    ensures HistoryCore(Advanced(s, id))
  {
    ReadChangesNothing(s, id);
    ReadTracked(s, id);
    var t := Advanced(s, id);
    forall other | other in t.requests ensures RequestTracked(t, t.requests[other]) {
      assert other != id ==> RequestTracked(s, s.requests[other]);
    }
    SameHistory(s, t);
  }

  // -------------------------------------------------------- steps that write

  /** Changing records without completing one keeps the rows in step. */
  lemma RecordsChanged(s: State, t: State)
    requires HistoryCore(s)
    requires t.writes == s.writes && t.initial == s.initial && t.revision == s.revision
    requires t.db.created == s.db.created
    requires forall op :: Done(t, op) <==> Done(s, op)
    requires forall j: nat | j < |t.writes| :: WriteTracked(t, j)
    requires forall op | op in t.db.operations && t.db.operations[op].kind.Restore? :: t.db.created != []
    requires forall id | id in t.requests :: RequestTracked(t, t.requests[id])
    ensures HistoryCore(t)
  {
    assert Finished(t) == Finished(s);
  }

  lemma CreateTracked(s: State, id: RequestId)
    requires HistoryInv(s) && id in s.requests && s.requests[id].phase.Ready?
    requires s.requests[id].operation !in s.db.operations
    ensures var t := Create(s, id, s.requests[id].phase.previous);
      forall other | other in t.requests :: RequestTracked(t, t.requests[other])
  {
    var q := s.requests[id];
    var t := Create(s, id, q.phase.previous);
    forall other | other in t.requests ensures RequestTracked(t, t.requests[other]) {
      assert RequestTracked(s, s.requests[other]) && RequestValid(s, s.requests[other]);
    }
  }

  lemma CreateKeepsHistory(s: State, id: RequestId)
    requires HistoryInv(s) && id in s.requests && s.requests[id].phase.Ready?
    ensures HistoryCore(Create(s, id, s.requests[id].phase.previous))
  {
    var t := Create(s, id, s.requests[id].phase.previous);
    if s.requests[id].operation in s.db.operations {
      forall other | other in t.requests ensures RequestTracked(t, t.requests[other]) {
        assert RequestTracked(s, s.requests[other]);
      }
      SameHistory(s, t);
    } else {
      NewRecordKeepsHistory(s, id);
    }
  }

  lemma NewRecordKeepsHistory(s: State, id: RequestId)
    requires HistoryInv(s) && id in s.requests && s.requests[id].phase.Ready?
    requires s.requests[id].operation !in s.db.operations
    ensures HistoryCore(Create(s, id, s.requests[id].phase.previous))
  {
    var t := Create(s, id, s.requests[id].phase.previous);
    CreateTracked(s, id);
    assert RequestTracked(s, s.requests[id]);
    forall j: nat | j < |t.writes| ensures WriteTracked(t, j) {
      assert WriteTracked(s, j);
    }
    hide SafetyInv;
    RecordsChanged(s, t);
  }

  lemma AllWritesFinished(s: State, id: RequestId)
    requires HistoryInv(s) && id in s.requests && s.requests[id].phase.Checked?
    requires s.revision == s.requests[id].expected
    ensures Finished(s) == |s.writes|
  {
    NoOpenWrite(s, id);
    if s.writes != [] {
      var last: nat := |s.writes| - 1;
      assert s.db.operations[s.writes[last].operation].status.Completed?;
    }
  }

  lemma WriteKeepsHistory(s: State, id: RequestId)
    requires HistoryInv(s) && id in s.requests && s.requests[id].phase.Checked?
    requires s.revision == s.requests[id].expected
    ensures HistoryCore(Replace(s, id))
  {
    var q := s.requests[id];
    var t := Replace(s, id);
    NoOpenWrite(s, id);
    AllWritesFinished(s, id);
    assert RequestValid(s, q) && RequestTracked(s, q);
    forall j: nat | j < |t.writes| ensures WriteTracked(t, j) {
      if j < |s.writes| { assert WriteTracked(s, j); }
    }
    forall other | other in t.requests ensures RequestTracked(t, t.requests[other]) {
      assert RequestTracked(s, s.requests[other]);
    }
  }

  predicate StoresOutcome(q: Request, operation: Operation, phase: Phase) {
    || (q.phase.Observed? && operation.status.ProviderWritten? && operation.result == Some(q.phase.final)
        && phase == Marked(q.phase.final))
    || (q.phase.Conflicted? && operation.status.Failed? && phase == Rejected)
  }

  lemma UpdateTracked(s: State, id: RequestId, operation: Operation, phase: Phase)
    requires HistoryInv(s) && id in s.requests && s.requests[id].operation in s.db.operations
    requires operation == s.db.operations[s.requests[id].operation].(status := operation.status, result := operation.result)
    requires StoresOutcome(s.requests[id], operation, phase)
    ensures var t := At(SetOperation(s, s.requests[id].operation, operation), id, phase);
      forall other | other in t.requests :: RequestTracked(t, t.requests[other])
  {
    var q := s.requests[id];
    var t := At(SetOperation(s, q.operation, operation), id, phase);
    assert RequestTracked(s, q);
    forall other | other in t.requests ensures RequestTracked(t, t.requests[other]) {
      assert RequestTracked(s, s.requests[other]);
    }
  }

  lemma UpdateTracksWrites(s: State, id: RequestId, operation: Operation, phase: Phase)
    requires HistoryInv(s) && id in s.requests && s.requests[id].operation in s.db.operations
    requires operation == s.db.operations[s.requests[id].operation].(status := operation.status, result := operation.result)
    requires StoresOutcome(s.requests[id], operation, phase)
    ensures var t := At(SetOperation(s, s.requests[id].operation, operation), id, phase);
      forall j: nat | j < |t.writes| :: WriteTracked(t, j)
  {
    var q := s.requests[id];
    var t := At(SetOperation(s, q.operation, operation), id, phase);
    assert RequestValid(s, q) && RequestTracked(s, q);
    forall j: nat | j < |t.writes| ensures WriteTracked(t, j) {
      assert WriteTracked(s, j);
      if s.writes[j].operation == q.operation { assert Wrote(s.writes, q.operation); }
    }
  }

  /** Storing the result, or FAILED, in the record its owner holds. */
  lemma UpdateKeepsHistory(s: State, id: RequestId, operation: Operation, phase: Phase)
    requires HistoryInv(s) && id in s.requests && s.requests[id].operation in s.db.operations
    requires operation == s.db.operations[s.requests[id].operation].(status := operation.status, result := operation.result)
    requires StoresOutcome(s.requests[id], operation, phase)
    ensures HistoryCore(At(SetOperation(s, s.requests[id].operation, operation), id, phase))
  {
    assert RequestValid(s, s.requests[id]);
    UpdateTracked(s, id, operation, phase);
    UpdateTracksWrites(s, id, operation, phase);
    RecordsChanged(s, At(SetOperation(s, s.requests[id].operation, operation), id, phase));
  }

  // ----------------------------------------------------------- finalization

  /** An operation that is marked and not completed made the last write. */
  lemma MarkedIsLast(s: State, op: OperationId)
    requires HistoryInv(s) && op in s.db.operations && s.db.operations[op].status.ProviderWritten?
    ensures s.writes != [] && s.writes[|s.writes| - 1].operation == op && Finished(s) == |s.writes| - 1
    ensures s.db.operations[op].result == Some(s.writes[|s.writes| - 1].revision)
    ensures !HasRow(s.db.rows, op)
  {
    assert OperationValid(s, op);
    var i: nat :| i < |s.writes| && s.writes[i].operation == op;
    assert WriteTracked(s, i);
  }

  /** The rows a first finalization adds. */
  lemma FirstFinalization(s: State, op: OperationId)
    requires HistoryInv(s) && op in s.db.operations && s.db.operations[op].status.ProviderWritten?
    ensures Refusal(s.db, op).None?
    ensures var operation := s.db.operations[op];
      var row := Row(s.writes[|s.writes| - 1].revision, SourceOf(operation.kind), Some(op));
      Finalized(s.db, op).created ==
        if s.db.created == [] then [Row(s.initial, Initial, None), row] else s.db.created + [row]
  {
    MarkedIsLast(s, op);
    SafeIsNeverRefused(s);
    RefusedIffTaken(s, op);
    EmptyOnlyBeforeFirstRow(s.db, s.limit);
    var last: nat := |s.writes| - 1;
    assert WriteTracked(s, last);
  }

  lemma FinalizedRows(s: State, op: OperationId)
    requires HistoryInv(s) && op in s.db.operations && s.db.operations[op].status.ProviderWritten?
    ensures RowsFollowWrites(s.(db := Finalized(s.db, op)))
  {
    MarkedIsLast(s, op);
    FirstFinalization(s, op);
    var t := s.(db := Finalized(s.db, op));
    assert Done(t, op);
    assert Finished(t) == |s.writes|;
    var last: nat := |s.writes| - 1;
    forall j | 0 <= j < |s.writes|
      ensures t.db.created[j + 1].revision == s.writes[j].revision
      ensures t.db.created[j + 1].operation == Some(s.writes[j].operation)
    {
      if j < last { assert t.db.created[j + 1] == s.db.created[j + 1]; }
    }
  }

  lemma FinalizeKeepsHistory(s: State, op: OperationId)
    requires HistoryInv(s)
    requires Done(s, op) ==> HasRow(s.db.rows, op)
    ensures HistoryCore(s.(db := Finalized(s.db, op)))
  {
    RefusedIffTaken(s, op);
    if Refusal(s.db, op).Some? { return; }
    if Done(s, op) {
      RefinalizeCreatesIffPruned(s, op);
      return;
    }
    FinalizedRows(s, op);
    FinalizedTracked(s, op);
  }

  lemma FinalizedTracked(s: State, op: OperationId)
    requires HistoryInv(s) && op in s.db.operations && s.db.operations[op].status.ProviderWritten?
    ensures var t := s.(db := Finalized(s.db, op));
      && (forall j: nat | j < |t.writes| :: WriteTracked(t, j))
      && (forall id | id in t.requests :: RequestTracked(t, t.requests[id]))
  {
    FirstFinalization(s, op);
    MarkedIsLast(s, op);
    var t := s.(db := Finalized(s.db, op));
    forall j: nat | j < |t.writes| ensures WriteTracked(t, j) { assert WriteTracked(s, j); }
    forall id | id in t.requests ensures RequestTracked(t, t.requests[id]) {
      assert RequestTracked(s, s.requests[id]) && RequestValid(s, s.requests[id]);
    }
  }

  // -------------------------------------------------------------- whole runs

  /** Moving one request to a phase that remembers nothing keeps the core. */
  lemma PhaseKeepsCore(s: State, id: RequestId, phase: Phase)
    requires HistoryCore(s) && id in s.requests
    requires phase.Rejected? ||
      ((phase.Recorded? || phase.Adopted? || phase.Pruning?) && !s.requests[id].phase.Rejected?)
    ensures HistoryCore(At(s, id, phase))
  {
    var t := At(s, id, phase);
    forall other | other in t.requests ensures RequestTracked(t, t.requests[other]) {
      assert RequestTracked(s, s.requests[other]);
    }
    SameHistory(s, t);
  }

  lemma CommitKeepsHistory(s: State, id: RequestId)
    requires HistoryInv(s) && id in s.requests
    requires s.requests[id].phase.Marked? || s.requests[id].phase.Adopting?
    requires Done(s, s.requests[id].operation) ==> HasRow(s.db.rows, s.requests[id].operation)
    ensures HistoryCore(Advanced(s, id))
  {
    var q := s.requests[id];
    var next := if q.phase.Marked? then Recorded(q.phase.final) else Adopted;
    assert Advanced(s, id) == Commit(s, id, next);
    assert HistoryCore(s);
    hide Advanced, HistoryInv, HistoryCore;
    if Refusal(s.db, q.operation).Some? {
      PhaseKeepsCore(s, id, Rejected);
    } else {
      FinalizeKeepsHistory(s, q.operation);
      PhaseKeepsCore(s.(db := Finalized(s.db, q.operation)), id, next);
    }
  }

  lemma MarkingKeepsHistory(s: State, id: RequestId)
    requires HistoryInv(s) && id in s.requests && s.requests[id].phase.Observed?
    ensures HistoryCore(Advanced(s, id))
  {
    var q := s.requests[id];
    assert RequestValid(s, q);
    var operation := s.db.operations[q.operation].(status := ProviderWritten, result := Some(q.phase.final));
    assert Advanced(s, id) == At(SetOperation(s, q.operation, operation), id, Marked(q.phase.final));
    hide HistoryInv, HistoryCore, RequestValid, Advanced;
    UpdateKeepsHistory(s, id, operation, Marked(q.phase.final));
  }

  lemma FailingKeepsHistory(s: State, id: RequestId)
    requires HistoryInv(s) && id in s.requests && s.requests[id].phase.Conflicted?
    ensures HistoryCore(Advanced(s, id))
  {
    var q := s.requests[id];
    assert RequestValid(s, q);
    var operation := s.db.operations[q.operation].(status := Failed);
    assert Advanced(s, id) == At(SetOperation(s, q.operation, operation), id, Rejected);
    hide HistoryInv, HistoryCore, RequestValid, Advanced;
    UpdateKeepsHistory(s, id, operation, Rejected);
  }

  lemma AdvanceKeepsHistory(s: State, id: RequestId)
    requires HistoryInv(s) && id in s.requests && HoldsAll(QUIET, s, Advance(id))
    ensures HistoryCore(Advanced(s, id))
  {
    assert Holds(AtomicReplaces, s, Advance(id)) && Holds(RowsKept, s, Advance(id));
    match s.requests[id].phase
    case Checked => WriteKeepsHistory(s, id);
    case Ready(_) => CreateKeepsHistory(s, id);
    case Observed(_) => MarkingKeepsHistory(s, id);
    case Conflicted => FailingKeepsHistory(s, id);
    case Marked(_) => CommitKeepsHistory(s, id);
    case Adopting => CommitKeepsHistory(s, id);
    case _ => ReadKeepsHistory(s, id);
  }

  lemma ArriveKeepsHistory(s: State, step: Step)
    requires HistoryInv(s) && step.Arrive?
    ensures HistoryCore(Apply(s, step))
  {
    var t := Apply(s, step);
    EmptyOnlyBeforeFirstRow(s.db, s.limit);
    assert HistoryCore(s);
    hide HistoryInv, WriteTracked, RowsFollowWrites;
    forall id | id in t.requests ensures RequestTracked(t, t.requests[id]) {
      assert id in s.requests ==> RequestTracked(s, s.requests[id]);
    }
    SameHistory(s, t);
  }

  lemma OtherStepKeepsHistory(s: State, step: Step)
    requires HistoryInv(s) && (step.Arrive? || step.ReleaseFails? || step.Abandon?)
    ensures HistoryCore(Apply(s, step))
  {
    match step
    case Arrive(_, _, _, _) => ArriveKeepsHistory(s, step);
    case ReleaseFails(id) =>
      if Apply(s, step) != s {
        PhaseKeepsCore(s, id, Pruning(s.requests[id].phase.final, s.requests[id].phase.todo[1..]));
      }
    case Abandon(id) => if Apply(s, step) != s { PhaseKeepsCore(s, id, Rejected); }
  }

  lemma ReconcileKeepsHistory(s: State, op: OperationId)
    requires HistoryInv(s) && Holds(RowsKept, s, Reconcile(op))
    ensures HistoryCore(Apply(s, Reconcile(op)))
  {
    SafeIsNeverRefused(s);
    RefusedIffTaken(s, op);
    FinalizeKeepsHistory(s, op);
  }

  lemma StepKeepsHistory(s: State, step: Step)
    requires HistoryInv(s) && HoldsAll(QUIET, s, step)
    ensures HistoryInv(Apply(s, step))
  {
    assert Holds(NoOutsideWrites, s, step) && Holds(KnownRevisions, s, step);
    assert Holds(RowsKept, s, step) && Holds(AtomicReplaces, s, step);
    StepKeepsOrder(s, step);
    match step
    case Advance(id) => if id in s.requests { AdvanceKeepsHistory(s, id); }
    case Reconcile(op) => ReconcileKeepsHistory(s, op);
    case GiveUp(op) => ReconcileKeepsOrder(s, op);
    case _ => OtherStepKeepsHistory(s, step);
  }

  lemma {:induction false} RunKeepsHistory(s: State, steps: seq<Step>)
    requires HistoryInv(s) && Always(QUIET, s, steps)
    ensures HistoryInv(Run(s, steps))
    decreases |steps|
  {
    if steps != [] {
      AlwaysPrefix(QUIET, s, steps);
      RunKeepsHistory(s, steps[..|steps| - 1]);
      StepKeepsHistory(Run(s, steps[..|steps| - 1]), steps[|steps| - 1]);
    }
  }

  /** The rows ever created form one unbroken chain of provider writes. */
  ghost predicate ChainedHistory(db: Database, initial: Revision) {
    var created := db.created;
    created != [] ==>
      && created[0] == Row(initial, Initial, None)
      && forall j | 1 <= j < |created| ::
           && created[j].operation.Some? && created[j].operation.value in db.operations
           && db.operations[created[j].operation.value].result == Some(created[j].revision)
           && db.operations[created[j].operation.value].expected == created[j - 1].revision
           && created[j - 1].revision < created[j].revision
  }

  lemma HistoryIsChained(s: State)
    requires HistoryInv(s)
    ensures ChainedHistory(s.db, s.initial)
  {
    var created := s.db.created;
    forall j | 1 <= j < |created|
      ensures created[j].operation.Some? && created[j].operation.value in s.db.operations
      ensures s.db.operations[created[j].operation.value].result == Some(created[j].revision)
      ensures s.db.operations[created[j].operation.value].expected == created[j - 1].revision
      ensures created[j - 1].revision < created[j].revision
    {
      var i: nat := j - 1;
      assert created[i + 1].operation == Some(s.writes[i].operation);
      assert WriteTracked(s, i);
      if i > 0 { assert created[(i - 1) + 1].revision == s.writes[i - 1].revision; }
      else { InitialIsOlder(s); }
    }
  }

  lemma InitialIsOlder(s: State)
    requires HistoryInv(s) && s.writes != []
    ensures s.initial < s.writes[0].revision
  {
    var zero: nat := 0;
    assert WriteTracked(s, zero);
  }

  /**
   Over every interleaving without outside writers: row order is provider-write
   order, every completed mutation records the revision of its own write, every
   managed row replaced the row before it, and a file without history gets an
   INITIAL row for the revision from before its first save.
   */
  lemma HistoryIsProviderOrder(limit: nat, initial: Revision, uploaded: bool, steps: seq<Step>)
    requires limit >= 1 && Always(QUIET, Start(limit, initial, uploaded), steps)
    ensures var s := Run(Start(limit, initial, uploaded), steps);
      && RowsFollowWrites(s)
      && ChainedHistory(s.db, initial)
  {
    StartHistory(limit, initial, uploaded);
    RunKeepsHistory(Start(limit, initial, uploaded), steps);
    HistoryIsChained(Run(Start(limit, initial, uploaded), steps));
    LimitFixed(Start(limit, initial, uploaded), steps);
  }
}
