/**
 A request that dies after its record was created and before its result was
 stored leaves a PENDING record that nobody owns. Nothing takes it out of
 PENDING, not even the reconciliation worker, and from then on no request that
 arrives writes to the file, whatever else happens.
 */
module MutationOrphans {
  import opened Wrappers
  import opened FileHistory
  import opened FileMutation
  import opened MutationInvariant

  /** PENDING, and no request is left that would move it on. */
  ghost predicate Orphaned(s: State, op: OperationId) {
    && op in s.db.operations && s.db.operations[op].status.Pending?
    && forall id | id in s.requests && s.requests[id].operation == op :: !Owns(s.requests[id].phase)
  }

  /** Dying on the way from the record to the stored result is how it comes about. */
  lemma CrashOrphans(s: State, id: RequestId)
    requires Inv(s) && id in s.requests && Owns(s.requests[id].phase)
    ensures Orphaned(Apply(s, Abandon(id)), s.requests[id].operation)
  {
    assert RequestValid(s, s.requests[id]);
  }

  lemma FinalizerKeepsOthers(db: Database, op: OperationId, other: OperationId)
    requires other in db.operations && (other == op ==> db.operations[op].result.None?)
    ensures other in Finalized(db, op).operations && Finalized(db, op).operations[other] == db.operations[other]
    ensures Refusal(db, op).None? ==> op != other
  {
  }

  /** Another operation's request leaves the record alone. */
  lemma OtherKeepsRecord(s: State, id: RequestId, op: OperationId)
    requires id in s.requests && s.requests[id].operation != op && op in s.db.operations
    ensures var t := Advanced(s, id); op in t.db.operations && t.db.operations[op] == s.db.operations[op]
  {
    FinalizerKeepsOthers(s.db, s.requests[id].operation, op);
    hide Finalized, Refusal;
  }

  /** And so does a request under its own id that is not its owner. */
  lemma RepeatKeepsRecord(s: State, id: RequestId, op: OperationId)
    requires id in s.requests && s.requests[id].operation == op && op in s.db.operations
    requires s.db.operations[op].status.Pending? && s.db.operations[op].result.None?
    requires !Owns(s.requests[id].phase) && !HasFinal(s.requests[id].phase)
    ensures var t := Advanced(s, id);
      op in t.db.operations && t.db.operations[op] == s.db.operations[op] && !Owns(t.requests[id].phase)
  {
    FinalizerKeepsOthers(s.db, op, op);
    hide Finalized, Refusal;
  }

  /** A PENDING record is moved on by its owner or not at all. */
  lemma OnlyOwnerMovesOn(s: State, step: Step, op: OperationId)
    requires Inv(s) && op in s.db.operations && s.db.operations[op].status.Pending?
    ensures op in Apply(s, step).db.operations
    ensures Apply(s, step).db.operations[op] == s.db.operations[op]
      || (step.Advance? && step.id in s.requests && s.requests[step.id].operation == op && Owns(s.requests[step.id].phase))
  {
    assert OperationValid(s, op) && op !in s.unrecoverable;
    if step.Advance? && step.id in s.requests {
      assert RequestValid(s, s.requests[step.id]);
      if s.requests[step.id].operation != op {
        OtherKeepsRecord(s, step.id, op);
      } else if !Owns(s.requests[step.id].phase) {
        RepeatKeepsRecord(s, step.id, op);
      }
    }
    if step.Reconcile? { FinalizerKeepsOthers(s.db, step.operation, op); }
    if step.Advance? { hide Inv, OperationValid, Advanced, Finalized, Refusal, Wrote; } else { hide Inv, OperationValid, Finalized; }
  }

  lemma AdvanceKeepsOrphan(s: State, id: RequestId, op: OperationId)
    requires Inv(s) && Orphaned(s, op) && id in s.requests
    ensures Orphaned(Advanced(s, id), op) && Advanced(s, id).db.operations[op] == s.db.operations[op]
  {
    assert OperationValid(s, op) && RequestValid(s, s.requests[id]);
    hide Inv, Advanced, Wrote;
    if s.requests[id].operation == op { RepeatKeepsRecord(s, id, op); } else { OtherKeepsRecord(s, id, op); }
  }

  lemma StepKeepsOrphan(s: State, step: Step, op: OperationId)
    requires Inv(s) && Orphaned(s, op)
    ensures Orphaned(Apply(s, step), op) && Apply(s, step).db.operations[op] == s.db.operations[op]
  {
    assert OperationValid(s, op);
    assert op !in s.unrecoverable;
    if step.Advance? && step.id in s.requests { AdvanceKeepsOrphan(s, step.id, op); }
    if step.Reconcile? { FinalizerKeepsOthers(s.db, step.operation, op); }
    hide Inv, Advanced, Finalized, Refusal, OperationValid;
  }

  /** Not on its way to a write; under the orphan's own operation id not even on its way to an answer. */
  predicate TurnedAway(q: Request, op: OperationId) {
    if q.operation == op then q.phase.Arrived? || q.phase.Rejected?
    else
      || q.phase.Arrived? || q.phase.NotReplayed? || q.phase.Adopting? || q.phase.Adopted?
      || q.phase.Responded? || q.phase.Rejected?
  }

  /** Whoever has arrived since `from` is not on the way to a write. */
  ghost predicate NewcomersTurnedAway(from: State, s: State, op: OperationId) {
    forall id | id in s.requests && id !in from.requests :: TurnedAway(s.requests[id], op)
  }

  lemma AdvanceTurnsAway(s: State, id: RequestId, op: OperationId)
    requires Orphaned(s, op) && id in s.requests && TurnedAway(s.requests[id], op)
    ensures TurnedAway(Advanced(s, id).requests[id], op)
  {
    hide Finalized, Refusal;
  }

  lemma StepTurnsAway(from: State, s: State, step: Step, op: OperationId)
    requires Orphaned(s, op) && from.requests.Keys <= s.requests.Keys && NewcomersTurnedAway(from, s, op)
    ensures NewcomersTurnedAway(from, Apply(s, step), op) && from.requests.Keys <= Apply(s, step).requests.Keys
  {
    if step.Advance? && step.id in s.requests && step.id !in from.requests { AdvanceTurnsAway(s, step.id, op); }
    hide Advanced, Finalized, Refusal, Orphaned;
  }

  /**
   In every run from such a state the record stays as it is, and no request that
   arrives gets past the check for unresolved mutations: it ends with the stored
   result of another operation, which it repeats, or with an error.
   */
  lemma {:induction false} OrphanBlocksForever(s: State, steps: seq<Step>, op: OperationId)
    requires Inv(s) && Orphaned(s, op)
    ensures Orphaned(Run(s, steps), op) && Run(s, steps).db.operations[op] == s.db.operations[op]
    ensures NewcomersTurnedAway(s, Run(s, steps), op) && s.requests.Keys <= Run(s, steps).requests.Keys
    decreases |steps|
  {
    if steps != [] {
      var before, step := Run(s, steps[..|steps| - 1]), steps[|steps| - 1];
      OrphanBlocksForever(s, steps[..|steps| - 1], op);
      RunKeepsInv(s, steps[..|steps| - 1]);
      assert Run(s, steps) == Apply(before, step);
      hide Inv, Run, Apply, Orphaned, NewcomersTurnedAway;
      StepKeepsOrphan(before, step, op);
      StepTurnsAway(s, before, step, op);
    }
  }
}
