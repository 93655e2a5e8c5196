/**
 One operation id, any number of requests: at most one provider write, one
 result, the same answer for every success, and a status that only moves
 PENDING to PROVIDER_WRITTEN to COMPLETED, or PENDING to FAILED, unless the
 reconciliation worker gives up on it. Nothing is assumed of the run here,
 outside writers, stale provider writes, guessed revisions, crashes and pruning
 are all allowed; only the count of revision rows assumes that the finalizer is
 not run again for an operation whose row is gone.
 */
module MutationIdempotence {
  import opened Collections
  import opened Wrappers
  import opened FileHistory
  import opened FileMutation
  import opened MutationInvariant

  predicate LegalMove(before: Status, after: Status) {
    || before == after
    || (before.Pending? && (after.ProviderWritten? || after.Failed?))
    || (before.ProviderWritten? && after.Completed?)
  }

  /** What one step may do to an operation record. */
  predicate Moves(before: Operation, after: Operation) {
    && after == before.(status := after.status, result := after.result)
    && LegalMove(before.status, after.status)
    && (before.result.Some? ==> after.result == before.result)
  }

  lemma AdvanceMoves(s: State, id: RequestId, op: OperationId)
    requires Inv(s) && id in s.requests && op in s.db.operations
    ensures op in Advanced(s, id).db.operations
    ensures Moves(s.db.operations[op], Advanced(s, id).db.operations[op])
  {
    assert RequestValid(s, s.requests[id]);
    assert OperationValid(s, op);
  }

  /**
   No single step of any request or outsider breaks the lifecycle. The one
   other move is the worker's FAILED, after the finalizer threw for good.
   */
  lemma StepMoves(s: State, step: Step, op: OperationId)
    requires Inv(s) && op in s.db.operations
    ensures op in Apply(s, step).db.operations
    ensures var before, after := s.db.operations[op], Apply(s, step).db.operations[op];
      if step == GiveUp(op) && op in s.unrecoverable then after == before.(status := Failed) else Moves(before, after)
  {
    if step.Advance? && step.id in s.requests {
      AdvanceMoves(s, step.id, op);
    }
  }

  /** The result of an operation, once set, is the same in every later state. */
  lemma {:induction false} ResultFixed(s: State, steps: seq<Step>, op: OperationId)
    requires Inv(s) && op in s.db.operations && s.db.operations[op].result.Some?
    ensures op in Run(s, steps).db.operations
    ensures Run(s, steps).db.operations[op].result == s.db.operations[op].result
    decreases |steps|
  {
    if steps != [] {
      var prefix := steps[..|steps| - 1];
      ResultFixed(s, prefix, op);
      RunKeepsInv(s, prefix);
      StepMoves(Run(s, prefix), steps[|steps| - 1], op);
    }
  }

  /**
   Two requests with one operation id that both succeed, now or after any
   further run, answer with the same revision.
   */
  lemma AnswersAgree(limit: nat, initial: Revision, uploaded: bool, steps: seq<Step>, more: seq<Step>,
                     a: RequestId, b: RequestId)
    requires limit >= 1
    requires var s := Run(Start(limit, initial, uploaded), steps);
      var t := Run(s, more);
      && a in s.requests && s.requests[a].phase.Responded?
      && b in t.requests && t.requests[b].phase.Responded?
      && s.requests[a].operation == t.requests[b].operation
    ensures var s := Run(Start(limit, initial, uploaded), steps);
      s.requests[a].phase.revision == Run(s, more).requests[b].phase.revision
  {
    StartInv(limit, initial, uploaded);
    RunKeepsInv(Start(limit, initial, uploaded), steps);
    var s := Run(Start(limit, initial, uploaded), steps);
    RunKeepsInv(s, more);
    assert RequestValid(s, s.requests[a]);
    assert RequestValid(Run(s, more), Run(s, more).requests[b]);
    ResultFixed(s, more, s.requests[a].operation);
  }

  function WritesOf(writes: seq<Write>, op: OperationId): nat {
    if writes == [] then 0
    else WritesOf(writes[..|writes| - 1], op) + if writes[|writes| - 1].operation == op then 1 else 0
  }

  lemma {:induction false} DistinctWrites(writes: seq<Write>, op: OperationId)
    requires forall i, j | 0 <= i < j < |writes| :: writes[i].operation != writes[j].operation
    ensures WritesOf(writes, op) == if Wrote(writes, op) then 1 else 0
  {
    if writes != [] {
      var last := |writes| - 1;
      DistinctWrites(writes[..last], op);
      if Wrote(writes[..last], op) {
        var i :| 0 <= i < last && writes[..last][i].operation == op;
        assert writes[i].operation == op;
      }
    }
  }

  /**
   The provider is written at most once for one operation id: exactly once when
   it has a result, and never when it FAILED without one.
   */
  lemma WrittenAtMostOnce(limit: nat, initial: Revision, uploaded: bool, steps: seq<Step>, op: OperationId)
    requires limit >= 1
    ensures WritesOf(Run(Start(limit, initial, uploaded), steps).writes, op) <= 1
    ensures var s := Run(Start(limit, initial, uploaded), steps);
      op in s.db.operations && (Settled(s.db.operations[op].status) || s.db.operations[op].result.Some?) ==>
        WritesOf(s.writes, op) == 1
    ensures var s := Run(Start(limit, initial, uploaded), steps);
      op in s.db.operations && s.db.operations[op].status.Failed? && s.db.operations[op].result.None? ==>
        WritesOf(s.writes, op) == 0
  {
    StartInv(limit, initial, uploaded);
    RunKeepsInv(Start(limit, initial, uploaded), steps);
    var s := Run(Start(limit, initial, uploaded), steps);
    DistinctWrites(s.writes, op);
    if op in s.db.operations {
      assert OperationValid(s, op);
    }
  }

  lemma {:induction false} OnceIsOne(log: seq<OperationId>, op: OperationId)
    requires NoRepeats(log)
    ensures multiset(log)[op] == if op in log then 1 else 0
  {
    if log != [] {
      var last := |log| - 1;
      assert log == log[..last] + [log[last]];
      OnceIsOne(log[..last], op);
    }
  }

  /**
   However often and by whomever an operation is finalized, it has exactly one
   audit row and one outbox event once it is COMPLETED, and none before; if the
   worker gives up on it, it keeps what it had.
   */
  lemma OneAuditOneEvent(limit: nat, initial: Revision, uploaded: bool, steps: seq<Step>, op: OperationId)
    requires limit >= 1
    ensures var s := Run(Start(limit, initial, uploaded), steps);
      && multiset(s.db.audits)[op] == multiset(s.db.events)[op] <= 1
      && (op in s.db.operations && s.db.operations[op].status.Completed? ==> multiset(s.db.audits)[op] == 1)
      && (op !in s.db.operations || s.db.operations[op].status.Pending? || s.db.operations[op].status.ProviderWritten?
          ==> multiset(s.db.audits)[op] == 0)
  {
    StartInv(limit, initial, uploaded);
    RunKeepsInv(Start(limit, initial, uploaded), steps);
    var s := Run(Start(limit, initial, uploaded), steps);
    OnceIsOne(s.db.audits, op);
    OnceIsOne(s.db.events, op);
  }

  /**
   A second finalization of a COMPLETED operation creates a second revision row
   exactly when the operation's row has been pruned and no live row has its
   revision; otherwise it changes nothing at all.
   */
  lemma RefinalizeCreatesIffPruned(s: State, op: OperationId)
    requires Inv(s) && op in s.db.operations && s.db.operations[op].status.Completed?
    ensures Finalized(s.db, op) == s.db <==> HasRow(s.db.rows, op) || RevisionTaken(s.db, op)
    ensures Finalized(s.db, op) != s.db ==>
      var again := Finalized(s.db, op);
      again.created == s.db.created + [Row(s.db.operations[op].result.value, SourceOf(s.db.operations[op].kind), Some(op))]
  {
    assert OperationValid(s, op);
    var again := Finalized(s.db, op);
    assert s.db.operations[op := s.db.operations[op].(status := Completed)] == s.db.operations;
    RefusedIffTaken(s, op);
    assert InHistory(s.db.created, op);
    EmptyOnlyBeforeFirstRow(s.db, s.limit);
  }

  // ------------------------------------------------------------ one row each

  const ROWS_KEPT := {RowsKept}

  /** No two rows ever created belong to one operation. */
  ghost predicate OneRowEach(created: seq<Row>) {
    forall i, j | 0 <= i < j < |created| && created[i].operation.Some? :: created[i].operation != created[j].operation
  }

  function RowsFor(created: seq<Row>, op: OperationId): nat {
    if created == [] then 0
    else RowsFor(created[..|created| - 1], op) + if created[|created| - 1].operation == Some(op) then 1 else 0
  }

  lemma {:induction false} CountIsOne(created: seq<Row>, op: OperationId)
    requires OneRowEach(created)
    ensures RowsFor(created, op) == if InHistory(created, op) then 1 else 0
    decreases |created|
  {
    if created != [] {
      var last := |created| - 1;
      CountIsOne(created[..last], op);
      if InHistory(created[..last], op) {
        var i :| 0 <= i < last && created[..last][i].operation == Some(op);
        assert created[i].operation == Some(op);
      }
    }
  }

  /** Only the finalizer creates rows. */
  lemma CreatedByFinalizer(s: State, step: Step)
    ensures var t := Apply(s, step);
      t.db.created == s.db.created
      || (Finalizing(s, step).Some? && t.db.created == Finalized(s.db, Finalizing(s, step).value).created)
  {
    hide Finalized, Refusal;
  }

  lemma FinalizedKeepsOneRow(s: State, op: OperationId)
    requires Inv(s) && OneRowEach(s.db.created)
    requires op in s.db.operations && s.db.operations[op].status.Completed? ==> HasRow(s.db.rows, op)
    ensures OneRowEach(Finalized(s.db, op).created) && s.db.created <= Finalized(s.db, op).created
  {
    RefusedIffTaken(s, op);
    if Refusal(s.db, op).None? && !HasRow(s.db.rows, op) {
      assert op !in s.db.audits;
      assert forall i | 0 <= i < |s.db.created| :: s.db.created[i].operation != Some(op);
    }
  }

  lemma FinalizedGrows(db: Database, op: OperationId)
    ensures db.created <= Finalized(db, op).created
  {
  }

  lemma {:induction false} RunKeepsOneRow(s: State, steps: seq<Step>)
    requires Inv(s) && OneRowEach(s.db.created) && Always(ROWS_KEPT, s, steps)
    ensures Inv(Run(s, steps)) && OneRowEach(Run(s, steps).db.created)
    decreases |steps|
  {
    if steps != [] {
      var prefix, step := steps[..|steps| - 1], steps[|steps| - 1];
      AlwaysPrefix(ROWS_KEPT, s, steps);
      RunKeepsOneRow(s, prefix);
      var t := Run(s, prefix);
      assert Holds(RowsKept, t, step);
      CreatedByFinalizer(t, step);
      if Finalizing(t, step).Some? { FinalizedKeepsOneRow(t, Finalizing(t, step).value); }
      ApplyKeepsInv(t, step);
    }
  }

  lemma {:induction false} CreatedGrows(s: State, steps: seq<Step>)
    ensures s.db.created <= Run(s, steps).db.created
    decreases |steps|
  {
    if steps != [] {
      var prefix, step := steps[..|steps| - 1], steps[|steps| - 1];
      CreatedGrows(s, prefix);
      CreatedByFinalizer(Run(s, prefix), step);
      if Finalizing(Run(s, prefix), step).Some? { FinalizedGrows(Run(s, prefix).db, Finalizing(Run(s, prefix), step).value); }
      hide Apply, Finalized, Finalizing;
    }
  }

  /**
   Any number of finalizer calls, interleaved with anything, outside writers
   and stale writes included: while rows are not finalized again after they
   were pruned, a COMPLETED operation has exactly one revision row ever created
   and one that was never finalized has none.
   */
  lemma OneRevisionPerOperation(limit: nat, initial: Revision, uploaded: bool, steps: seq<Step>, op: OperationId)
    requires limit >= 1 && Always(ROWS_KEPT, Start(limit, initial, uploaded), steps)
    ensures var s := Run(Start(limit, initial, uploaded), steps);
      && RowsFor(s.db.created, op) <= 1
      && (op in s.db.operations && s.db.operations[op].status.Completed? ==> RowsFor(s.db.created, op) == 1)
      && (op !in s.db.operations || s.db.operations[op].status.Pending? || s.db.operations[op].status.ProviderWritten?
          ==> RowsFor(s.db.created, op) == 0)
  {
    StartInv(limit, initial, uploaded);
    RunKeepsOneRow(Start(limit, initial, uploaded), steps);
    CountIsOne(Run(Start(limit, initial, uploaded), steps).db.created, op);
  }

  /** And every finalizer call for it, now or after any further run, finds the same sequence. */
  lemma SequencesAgree(limit: nat, initial: Revision, uploaded: bool, steps: seq<Step>, more: seq<Step>,
                       op: OperationId, j: nat, k: nat)
    requires limit >= 1 && Always(ROWS_KEPT, Start(limit, initial, uploaded), steps)
    requires Always(ROWS_KEPT, Run(Start(limit, initial, uploaded), steps), more)
    requires var s := Run(Start(limit, initial, uploaded), steps);
      IsRowOf(s.db.rows, j, op) && IsRowOf(Run(s, more).db.rows, k, op)
    ensures j == k
  {
    StartInv(limit, initial, uploaded);
    RunKeepsOneRow(Start(limit, initial, uploaded), steps);
    var s := Run(Start(limit, initial, uploaded), steps);
    RunKeepsOneRow(s, more);
    CreatedGrows(s, more);
    var t := Run(s, more);
    hide Run, Always;
    assert t.db.created[j - 1] == s.db.created[j - 1] && s.db.rows[j] == s.db.created[j - 1];
    assert t.db.rows[k] == t.db.created[k - 1];
  }

  /**
   `revisionSequence` counts every revision ever created, sequences are gap-free
   from one, and the newest `limit` rows are never pruned, though releases may
   fail and other mutations may finalize between a prune's read and its deletes.
   */
  lemma SequencesCountCreations(limit: nat, initial: Revision, uploaded: bool, steps: seq<Step>)
    requires limit >= 1
    ensures HistoryValid(Run(Start(limit, initial, uploaded), steps).db, limit)
  {
    StartInv(limit, initial, uploaded);
    RunKeepsInv(Start(limit, initial, uploaded), steps);
    LimitFixed(Start(limit, initial, uploaded), steps);
  }

  lemma {:induction false} LimitFixed(s: State, steps: seq<Step>)
    ensures Run(s, steps).limit == s.limit && Run(s, steps).initial == s.initial
    decreases |steps|
  {
    if steps != [] {
      LimitFixed(s, steps[..|steps| - 1]);
    }
  }
}
