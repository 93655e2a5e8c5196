/**
 Two mutations are never both past their provider write and still open, even
 though the unresolved check and the record creation are separate steps: what
 admits a request to its write, and what each step does to that.
 */
module MutationAdmission {
  import opened Wrappers
  import opened FileHistory
  import opened FileMutation
  import opened MutationInvariant

  /** What safety assumes of a run; outside writers and crashes are allowed. */
  const ONE_WRITER := {KnownRevisions, AtomicReplaces}

  /** Written to the provider and not COMPLETED. */
  ghost predicate OpenWrite(s: State, op: OperationId) {
    Wrote(s.writes, op) && !(op in s.db.operations && s.db.operations[op].status.Completed?)
  }

  /** Past the unresolved check, and the provider write still ahead. */
  predicate Admitted(phase: Phase) {
    phase.Unblocked? || phase.Current? || phase.Ready? || phase.Registered? || phase.Checked?
  }

  ghost predicate Safe(s: State) {
    forall a, b | OpenWrite(s, a) && OpenWrite(s, b) :: a == b
  }

  /**
   The reason it holds: an open write of another operation happened after the
   request was admitted, so it minted a revision larger than the one the
   request expects, and the provider revision never goes back.
   */
  ghost predicate Outdated(s: State, q: Request) {
    Admitted(q.phase) ==>
      forall op | OpenWrite(s, op) && op != q.operation :: q.expected < s.revision
  }

  ghost predicate Admission(s: State) {
    && Inv(s)
    && Safe(s)
    && (forall id | id in s.requests :: s.requests[id].expected < s.minted && Outdated(s, s.requests[id]))
  }

  /** The unique index refuses no marked operation, and the worker has given up on none. */
  ghost predicate NeverRefused(s: State) {
    && s.unrecoverable == {}
    && (forall op | op in s.db.operations && s.db.operations[op].result.Some? ::
          Settled(s.db.operations[op].status) && !RevisionTaken(s.db, op))
  }

  lemma CompletedStays(s: State, id: RequestId, op: OperationId)
    requires Inv(s) && id in s.requests
    requires op in s.db.operations && s.db.operations[op].status.Completed?
    ensures op in Advanced(s, id).db.operations && Advanced(s, id).db.operations[op].status.Completed?
  {
    assert RequestValid(s, s.requests[id]);
  }

  /** Steps that write nothing only close open writes. */
  lemma NothingWritten(s: State, id: RequestId)
    requires Inv(s) && id in s.requests && !s.requests[id].phase.Checked?
    ensures forall op | OpenWrite(Advanced(s, id), op) :: OpenWrite(s, op)
  {
    forall op | OpenWrite(Advanced(s, id), op) ensures OpenWrite(s, op) {
      if op in s.db.operations && s.db.operations[op].status.Completed? {
        CompletedStays(s, id, op);
      }
    }
  }

  lemma AdmissionKeepsSafe(s: State, id: RequestId)
    requires Admission(s) && NeverRefused(s) && id in s.requests && s.requests[id].phase.NotReplayed?
    ensures Outdated(Advanced(s, id), Advanced(s, id).requests[id])
  {
    var q := s.requests[id];
    forall op | OpenWrite(s, op) && op != q.operation ensures Blocked(s.db, q.operation) {
      var i :| 0 <= i < |s.writes| && s.writes[i].operation == op;
      assert op in s.db.operations && OperationValid(s, op);
    }
  }

  /** At an atomic write nothing is open: every write so far is complete. */
  lemma NoOpenWrite(s: State, id: RequestId)
    requires Admission(s) && id in s.requests && s.requests[id].phase.Checked?
    requires s.revision == s.requests[id].expected
    ensures forall j: nat | j < |s.writes| ::
      s.writes[j].operation in s.db.operations && s.db.operations[s.writes[j].operation].status.Completed?
    ensures forall other | other in s.requests ::
      !s.requests[other].phase.Replaced? && !s.requests[other].phase.Observed?
  {
    var q := s.requests[id];
    assert RequestValid(s, q) && Outdated(s, q);
    forall j: nat | j < |s.writes|
      ensures s.writes[j].operation in s.db.operations && s.db.operations[s.writes[j].operation].status.Completed?
    {
      assert Wrote(s.writes, s.writes[j].operation);
      assert !OpenWrite(s, s.writes[j].operation);
    }
    forall other | other in s.requests
      ensures !s.requests[other].phase.Replaced? && !s.requests[other].phase.Observed?
    {
      assert RequestValid(s, s.requests[other]);
      if s.requests[other].phase.Replaced? || s.requests[other].phase.Observed? {
        assert OpenWrite(s, s.requests[other].operation);
      }
    }
  }

  lemma WriteKeepsSafe(s: State, id: RequestId)
    requires Admission(s) && id in s.requests && s.requests[id].phase.Checked?
    requires s.revision == s.requests[id].expected
    ensures Admission(Replace(s, id))
  {
    ReplaceKeepsInv(s, id);
    var q := s.requests[id];
    var t := Replace(s, id);
    assert Outdated(s, q);
    forall op | OpenWrite(t, op) ensures op == q.operation {
      var i :| 0 <= i < |t.writes| && t.writes[i].operation == op;
      if i < |s.writes| {
        assert s.writes[i].operation == op;
        assert OpenWrite(s, op);
      }
    }
  }

  /** A step admits a request only by the unresolved check. */
  lemma AdmittedBefore(s: State, id: RequestId)
    requires Inv(s) && id in s.requests && Admitted(Advanced(s, id).requests[id].phase)
    ensures Admitted(s.requests[id].phase) || s.requests[id].phase.NotReplayed?
  {
    assert RequestValid(s, s.requests[id]);
  }

  lemma AdvanceKeepsSafe(s: State, id: RequestId)
    requires Admission(s) && NeverRefused(s) && id in s.requests && !s.requests[id].phase.Checked?
    ensures Admission(Advanced(s, id))
  {
    var t := Advanced(s, id);
    AdvanceKeepsInv(s, id);
    NothingWritten(s, id);
    forall other | other in t.requests ensures Outdated(t, t.requests[other]) {
      assert Outdated(s, s.requests[other]);
      if other == id && Admitted(t.requests[id].phase) {
        AdmittedBefore(s, id);
        if s.requests[id].phase.NotReplayed? { AdmissionKeepsSafe(s, id); }
      }
    }
  }

  lemma FinalizingOpensNothing(s: State, op: OperationId)
    requires Inv(s) && NeverRefused(s)
    ensures var t := Apply(s, Reconcile(op));
      && t.unrecoverable == {} && forall other | OpenWrite(t, other) :: OpenWrite(s, other)
  {
    RefusedIffTaken(s, op);
  }

  lemma ReconcileKeepsSafe(s: State, op: OperationId)
    requires Admission(s) && NeverRefused(s)
    ensures Admission(Apply(s, Reconcile(op))) && Apply(s, Reconcile(op)).unrecoverable == {}
  {
    var t := Apply(s, Reconcile(op));
    ReconciledKeepsInv(s, op);
    FinalizingOpensNothing(s, op);
    assert t.requests == s.requests && t.minted == s.minted && Inv(t);
    hide Inv, OpenWrite, Apply, NeverRefused;
    forall id | id in t.requests ensures Outdated(t, t.requests[id]) {
      assert Outdated(s, s.requests[id]);
    }
  }

  /** Other steps admit no request and write nothing. */
  lemma OtherStepAdmitsNobody(s: State, step: Step)
    requires !step.Advance? && !step.Reconcile? && !step.GiveUp?
    ensures var t := Apply(s, step);
      && t.writes == s.writes && t.db.operations == s.db.operations && s.minted <= t.minted
      && t.unrecoverable == s.unrecoverable
      && forall id | id in t.requests && Admitted(t.requests[id].phase) ::
           id in s.requests && t.requests[id] == s.requests[id]
  {
  }

  lemma OtherStepNamesKnown(s: State, step: Step)
    requires !step.Advance? && !step.Reconcile? && !step.GiveUp? && Holds(KnownRevisions, s, step)
    requires forall id | id in s.requests :: s.requests[id].expected < s.minted
    ensures var t := Apply(s, step); forall id | id in t.requests :: t.requests[id].expected < t.minted
  {
  }

  lemma OtherStepKeepsSafe(s: State, step: Step)
    requires Admission(s) && !step.Advance? && !step.Reconcile? && !step.GiveUp?
    requires Holds(KnownRevisions, s, step)
    ensures Admission(Apply(s, step))
  {
    var t := Apply(s, step);
    ApplyKeepsInv(s, step);
    OtherStepAdmitsNobody(s, step);
    OtherStepNamesKnown(s, step);
    hide Inv, Apply, Holds;
    assert forall op :: OpenWrite(t, op) == OpenWrite(s, op);
    forall id | id in t.requests ensures Outdated(t, t.requests[id]) {
      if Admitted(t.requests[id].phase) { assert Outdated(s, s.requests[id]); }
    }
  }

  lemma StepKeepsSafe(s: State, step: Step)
    requires Admission(s) && NeverRefused(s) && HoldsAll(ONE_WRITER, s, step)
    ensures Admission(Apply(s, step)) && Apply(s, step).unrecoverable == {}
  {
    assert Holds(KnownRevisions, s, step) && Holds(AtomicReplaces, s, step);
    assert s.unrecoverable == {};
    hide Admission, NeverRefused;
    if step.GiveUp? {
    } else if step.Reconcile? {
      ReconcileKeepsSafe(s, step.operation);
    } else if !step.Advance? {
      OtherStepKeepsSafe(s, step);
    } else if step.id in s.requests {
      if s.requests[step.id].phase.Checked? {
        WriteKeepsSafe(s, step.id);
      } else {
        AdvanceKeepsSafe(s, step.id);
      }
    }
  }
}
