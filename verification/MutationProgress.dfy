/**
 What one undisturbed mutation achieves, a save or a restore: it answers, it is
 COMPLETED with the revision its own write minted, the newest row is its own,
 and its prune leaves exactly the newest `limit` rows. A repeated request is
 given the same answer; a mutation interrupted after its write is finished by
 the worker or by a repeated request. The last lemma uses two saves to show
 that a finalization repeated after pruning does create a second row.
 */
module MutationProgress {
  import opened Wrappers
  import opened FileHistory
  import opened FileMutation
  import opened MutationInvariant
  import opened MutationAdmission
  import opened MutationOrder
  import opened MutationSafety
  import opened MutationIdempotence
  import opened MutationHistory

  /** A mutation that nothing stands in the way of. */
  predicate Undisturbed(s: State, id: RequestId) {
    && id in s.requests && s.requests[id].phase.Arrived?
    && s.requests[id].operation !in s.db.operations && s.revision == s.requests[id].expected
    && forall other | other in s.db.operations ::
         s.db.operations[other].status.Completed? || s.db.operations[other].status.Failed?
  }

  /** A quiet run leads to `t`, from `start` on by steps of the request alone. */
  ghost predicate Walks(from: State, start: State, t: State, id: RequestId) {
    Reaches(QUIET, from, t) && id in start.requests && id in t.requests && Alone(start, t, id)
  }

  lemma WalksAtOnce(from: State, s: State, id: RequestId)
    requires Reaches(QUIET, from, s) && id in s.requests
    ensures Walks(from, s, s, id)
  {
    assert AdvancedTimes(s, id, 0) == s;
  }

  /** What a request does in each phase when nothing stands in its way. */
  function NextPhase(s: State, q: Request): Phase {
    match q.phase
    case Arrived => NotReplayed
    case NotReplayed => Unblocked
    case Unblocked => if q.kind.Save? then Current else Ready(s.revision)
    case Current => Ready(s.revision)
    case Registered => Checked
    case Replaced => Observed(s.revision)
    case Recorded(final) => Pruning(final, Removable(s.db.rows, s.limit))
    case _ => q.phase
  }

  predicate OnlyReads(phase: Phase) {
    || phase.Arrived? || phase.NotReplayed? || phase.Unblocked? || phase.Current? || phase.Registered?
    || phase.Replaced? || phase.Recorded?
  }

  ghost predicate Unhindered(s: State, id: RequestId)
    requires id in s.requests
  {
    var q := s.requests[id];
    && (q.phase.Arrived? ==> q.operation !in s.db.operations)
    && (q.phase.NotReplayed? ==> !Blocked(s.db, q.operation))
    && (q.phase.Unblocked? || q.phase.Registered? || q.phase.Checked? ==> s.revision == q.expected)
    && (q.phase.Marked? ==> !Done(s, q.operation))
    && !q.phase.Adopting?
  }

  lemma NextPhaseIsNext(s: State, id: RequestId)
    requires id in s.requests && OnlyReads(s.requests[id].phase) && Unhindered(s, id)
    ensures Advanced(s, id) == At(s, id, NextPhase(s, s.requests[id]))
  {
  }

  lemma Advance(from: State, start: State, s: State, id: RequestId)
    requires Walks(from, start, s, id) && Unhindered(s, id)
    ensures Walks(from, start, Advanced(s, id), id)
  {
    ReachesNext(QUIET, from, s, Step.Advance(id));
    AloneNext(start, s, id);
  }

  lemma Read(from: State, start: State, s: State, id: RequestId) returns (t: State)
    requires Walks(from, start, s, id) && OnlyReads(s.requests[id].phase) && Unhindered(s, id)
    ensures Walks(from, start, t, id)
    ensures t == s.(requests := s.requests[id := s.requests[id].(phase := NextPhase(s, s.requests[id]))])
  {
    NextPhaseIsNext(s, id);
    Advance(from, start, s, id);
    t := Advanced(s, id);
  }

  /** From arrival past both checks. */
  lemma ToReady(from: State, s: State, id: RequestId) returns (t: State)
    requires Reaches(QUIET, from, s) && Undisturbed(s, id)
    ensures Walks(from, s, t, id)
    ensures t == s.(requests := s.requests[id := s.requests[id].(phase := Ready(s.revision))])
  {
    hide Reaches, Alone;
    WalksAtOnce(from, s, id);
    t := Read(from, s, s, id);
    t := Read(from, s, t, id);
    t := Read(from, s, t, id);
    if s.requests[id].kind.Save? { t := Read(from, s, t, id); }
  }

  /** The record an undisturbed mutation has in the end. */
  function RecordOf(s: State, id: RequestId, status: Status, result: Option<Revision>): Operation
    requires id in s.requests
  {
    Operation(s.requests[id].kind, s.revision, if s.requests[id].kind.Save? then Some(s.revision) else None, status, result)
  }

  lemma CreateIsNext(s: State, id: RequestId)
    requires id in s.requests && s.requests[id].phase == Ready(s.revision)
    requires s.requests[id].operation !in s.db.operations && s.requests[id].expected == s.revision
    ensures Advanced(s, id) == s.(
      db := s.db.(operations := s.db.operations[s.requests[id].operation := RecordOf(s, id, Pending, None)]),
      requests := s.requests[id := s.requests[id].(phase := Registered)])
  {
  }

  lemma WriteIsNext(s: State, id: RequestId)
    requires id in s.requests && s.requests[id].phase.Checked?
    ensures Advanced(s, id) == s.(
      revision := s.minted, minted := s.minted + 1,
      writes := s.writes + [Write(s.requests[id].operation, s.minted)],
      requests := s.requests[id := s.requests[id].(phase := Replaced)])
  {
  }

  lemma MarkIsNext(s: State, id: RequestId)
    requires id in s.requests && s.requests[id].phase.Observed? && s.requests[id].operation in s.db.operations
    ensures var q := s.requests[id];
      Advanced(s, id) == s.(
        db := s.db.(operations := s.db.operations[q.operation :=
          s.db.operations[q.operation].(status := ProviderWritten, result := Some(q.phase.final))]),
        requests := s.requests[id := q.(phase := Marked(q.phase.final))])
  {
  }

  lemma CommitIsNext(s: State, id: RequestId)
    requires id in s.requests && s.requests[id].phase.Marked? && Refusal(s.db, s.requests[id].operation).None?
    ensures var q := s.requests[id];
      Advanced(s, id) == s.(
        db := Finalized(s.db, q.operation),
        requests := s.requests[id := q.(phase := Recorded(q.phase.final))])
  {
  }

  /** The record a mutation has opened for itself, before its write. */
  lemma ToChecked(from: State, s: State, id: RequestId) returns (t: State)
    requires Reaches(QUIET, from, s) && Undisturbed(s, id)
    ensures Walks(from, s, t, id)
    ensures t == s.(
      db := s.db.(operations := s.db.operations[s.requests[id].operation := RecordOf(s, id, Pending, None)]),
      requests := s.requests[id := s.requests[id].(phase := Checked)])
  {
    hide Reaches, Alone;
    t := ToReady(from, s, id);
    CreateIsNext(t, id);
    Advance(from, s, t, id);
    t := Read(from, s, Advanced(t, id), id);
  }

  /** A state in which the request has written, and its record is as given. */
  function WrittenTo(s: State, id: RequestId, record: Operation, phase: Phase): State
    requires id in s.requests
  {
    s.(revision := s.minted, minted := s.minted + 1,
       writes := s.writes + [Write(s.requests[id].operation, s.minted)],
       db := s.db.(operations := s.db.operations[s.requests[id].operation := record]),
       requests := s.requests[id := s.requests[id].(phase := phase)])
  }

  lemma ToReplaced(from: State, s: State, id: RequestId) returns (t: State)
    requires Reaches(QUIET, from, s) && Undisturbed(s, id)
    ensures Walks(from, s, t, id) && t == WrittenTo(s, id, RecordOf(s, id, Pending, None), Replaced)
  {
    hide Reaches, Alone;
    t := ToChecked(from, s, id);
    WriteIsNext(t, id);
    Advance(from, s, t, id);
    t := Advanced(t, id);
  }

  lemma ToObserved(from: State, s: State, id: RequestId) returns (t: State)
    requires Reaches(QUIET, from, s) && Undisturbed(s, id)
    ensures Walks(from, s, t, id) && t == WrittenTo(s, id, RecordOf(s, id, Pending, None), Observed(s.minted))
  {
    hide Reaches, Alone;
    t := ToReplaced(from, s, id);
    t := Read(from, s, t, id);
  }

  lemma ToMarked(from: State, s: State, id: RequestId) returns (t: State)
    requires Reaches(QUIET, from, s) && Undisturbed(s, id)
    ensures Walks(from, s, t, id)
    ensures t == WrittenTo(s, id, RecordOf(s, id, ProviderWritten, Some(s.minted)), Marked(s.minted))
  {
    hide Reaches, Alone;
    t := ToObserved(from, s, id);
    MarkIsNext(t, id);
    Advance(from, s, t, id);
    t := Advanced(t, id);
    hide Advanced;
  }

  lemma ReachedInv(from: State, s: State)
    requires Inv(from) && Reaches(QUIET, from, s)
    ensures Inv(s)
  {
    var steps :| Always(QUIET, from, steps) && Run(from, steps) == s;
    RunKeepsInv(from, steps);
  }

  lemma ReachedHistory(from: State, s: State)
    requires Inv(from) && Reaches(QUIET, from, s)
    ensures HistoryValid(s.db, s.limit)
  {
    ReachedInv(from, s);
  }

  /** A run that is quiet keeps the order of revisions, so nothing is refused. */
  lemma {:induction false} QuietIsSafe(s: State, steps: seq<Step>)
    requires SafetyInv(s) && Always(QUIET, s, steps)
    ensures SafetyInv(Run(s, steps))
    decreases |steps|
  {
    if steps != [] {
      AlwaysPrefix(QUIET, s, steps);
      QuietIsSafe(s, steps[..|steps| - 1]);
      var t, step := Run(s, steps[..|steps| - 1]), steps[|steps| - 1];
      assert Holds(KnownRevisions, t, step) && Holds(AtomicReplaces, t, step);
      StepKeepsOrder(t, step);
    }
  }

  lemma ReachedSafe(from: State, s: State)
    requires SafetyInv(from) && Reaches(QUIET, from, s)
    ensures SafetyInv(s) && NeverRefused(s)
  {
    var steps :| Always(QUIET, from, steps) && Run(from, steps) == s;
    QuietIsSafe(from, steps);
    SafeIsNeverRefused(s);
  }

  /** Everything a committed mutation changed, before its prune. */
  ghost predicate Committed(s: State, t: State, id: RequestId)
    requires id in s.requests
  {
    var q := s.requests[id];
    && t.limit == s.limit && t.revision == s.minted && t.minted == s.minted + 1
    && t.writes == s.writes + [Write(q.operation, s.minted)]
    && t.db.operations == s.db.operations[q.operation :=
         Operation(q.kind, s.revision, if q.kind.Save? then Some(s.revision) else None, Completed, Some(s.minted))]
    && |t.db.created| > |s.db.created|
    && t.db.created[|t.db.created| - 1]
       == Row(s.minted, if q.kind.Save? then ManualSave else RestoredVersion, Some(q.operation))
    && q.operation in t.db.audits && q.operation in t.db.events
  }

  lemma FinalizedAdds(db: Database, op: OperationId)
    requires Refusal(db, op).None? && !HasRow(db.rows, op)
    ensures var t := Finalized(db, op);
      && t.operations == db.operations[op := db.operations[op].(status := Completed)]
      && |t.created| > |db.created|
      && t.created[|t.created| - 1]
         == Row(db.operations[op].result.value, if db.operations[op].kind.Save? then ManualSave else RestoredVersion, Some(op))
      && HasRow(t.rows, op) && op in t.audits && op in t.events
  {
    var t := Finalized(db, op);
    assert IsRowOf(t.rows, t.revisionSequence, op);
  }

  lemma MarkedGoesThrough(from: State, s: State, op: OperationId)
    requires SafetyInv(from) && Reaches(QUIET, from, s)
    requires op in s.db.operations && s.db.operations[op].status.ProviderWritten?
    ensures Refusal(s.db, op).None?
  {
    ReachedSafe(from, s);
    RefusedIffTaken(s, op);
  }

  lemma ToRecorded(from: State, s: State, id: RequestId) returns (t: State)
    requires SafetyInv(from) && Reaches(QUIET, from, s) && Undisturbed(s, id)
    ensures Walks(from, s, t, id) && Committed(s, t, id)
    ensures t.requests == s.requests[id := s.requests[id].(phase := Recorded(s.minted))]
  {
    hide Reaches, Alone;
    var op := s.requests[id].operation;
    ReachedInv(from, s);
    NoRowYet(s, op);
    assert !HasRow(s.db.rows, op) && op !in s.db.operations;
    hide HasRow;
    var u := ToMarked(from, s, id);
    MarkedGoesThrough(from, u, op);
    hide SafetyInv, Inv, Undisturbed;
    FinalizedAdds(u.db, op);
    t := Commits(from, s, u, id);
  }

  lemma Commits(from: State, start: State, s: State, id: RequestId) returns (t: State)
    requires Walks(from, start, s, id) && s.requests[id].phase.Marked?
    requires Refusal(s.db, s.requests[id].operation).None? && !Done(s, s.requests[id].operation)
    ensures Walks(from, start, t, id)
    ensures t == s.(db := Finalized(s.db, s.requests[id].operation),
                    requests := s.requests[id := s.requests[id].(phase := Recorded(s.requests[id].phase.final))])
  {
    CommitIsNext(s, id);
    Advance(from, start, s, id);
    t := Advanced(s, id);
  }

  lemma NoRowYet(s: State, op: OperationId)
    requires Inv(s) && op !in s.db.operations
    ensures !HasRow(s.db.rows, op)
  {
    forall k | k in s.db.rows ensures !IsRowOf(s.db.rows, k, op) {
      assert s.db.rows[k] == s.db.created[k - 1];
    }
  }

  lemma PruneIsNext(s: State, id: RequestId)
    requires id in s.requests && s.requests[id].phase.Pruning?
    ensures var q := s.requests[id];
      Advanced(s, id) ==
        if q.phase.todo == [] then s.(requests := s.requests[id := q.(phase := Responded(q.phase.final))])
        else s.(db := s.db.(rows := s.db.rows - {q.phase.todo[0]}),
                requests := s.requests[id := q.(phase := Pruning(q.phase.final, q.phase.todo[1..]))])
  {
  }

  lemma {:induction false} PruneAll(from: State, start: State, s: State, id: RequestId) returns (t: State)
    requires Walks(from, start, s, id) && s.requests[id].phase.Pruning?
    ensures Walks(from, start, t, id)
    ensures t == s.(db := s.db.(rows := t.db.rows),
                    requests := s.requests[id := s.requests[id].(phase := Responded(s.requests[id].phase.final))])
    ensures forall k :: k in t.db.rows <==> k in s.db.rows && k !in s.requests[id].phase.todo
    ensures forall k | k in t.db.rows :: t.db.rows[k] == s.db.rows[k]
    decreases |s.requests[id].phase.todo|
  {
    hide Reaches, Alone;
    PruneIsNext(s, id);
    Advance(from, start, s, id);
    t := Advanced(s, id);
    if s.requests[id].phase.todo != [] {
      t := PruneAll(from, start, t, id);
    }
  }

  lemma OverwriteTwice(m: map<RequestId, Request>, id: RequestId, first: Request, second: Request)
    ensures m[id := first][id := second] == m[id := second]
  {
  }

  /** A prune whose releases all succeed leaves exactly the newest rows. */
  lemma PruneKeepsNewest(from: State, start: State, s: State, id: RequestId) returns (t: State)
    requires Walks(from, start, s, id) && HistoryValid(s.db, s.limit) && s.requests[id].phase.Recorded?
    ensures Walks(from, start, t, id)
    ensures t == s.(db := s.db.(rows := t.db.rows),
                    requests := s.requests[id := s.requests[id].(phase := Responded(s.requests[id].phase.final))])
    ensures forall k :: k in t.db.rows <==> k in s.db.rows && |s.db.created| < k + s.limit
  {
    hide Reaches, Alone;
    var u := Read(from, start, s, id);
    t := PruneAll(from, start, u, id);
    RemovableIffOld(s.db, s.limit);
    OverwriteTwice(s.requests, id, u.requests[id], t.requests[id]);
  }

  /**
   A mutation that names the current revision while no other is open gets
   through, whether it is a save or a restore: it answers with the revision its
   write minted, is COMPLETED with that result, its own row is the newest, and
   no row older than the newest `limit` is left behind.
   */
  lemma UndisturbedMutationSucceeds(from: State, s: State, id: RequestId) returns (t: State)
    requires SafetyInv(from) && Reaches(QUIET, from, s) && Undisturbed(s, id)
    ensures Walks(from, s, t, id) && Committed(s, t, id)
    ensures t.requests == s.requests[id := s.requests[id].(phase := Responded(s.minted))]
    ensures forall k | k in t.db.rows :: |t.db.created| < k + t.limit
  {
    hide Reaches, Alone;
    var u := ToRecorded(from, s, id);
    ReachedHistory(from, u);
    t := PruneKeepsNewest(from, s, u, id);
    OverwriteTwice(s.requests, id, s.requests[id].(phase := Recorded(s.minted)), t.requests[id]);
  }

  /** Left alone, such a mutation can end in no other way. */
  lemma UndisturbedAnswers(from: State, s: State, t: State, id: RequestId)
    requires SafetyInv(from) && Reaches(QUIET, from, s) && Undisturbed(s, id)
    requires Alone(s, t, id) && Settles(t, id)
    ensures Committed(s, t, id) && t.requests[id].phase == Responded(s.minted)
    ensures forall k | k in t.db.rows :: |t.db.created| < k + t.limit
  {
    var u := UndisturbedMutationSucceeds(from, s, id);
    AloneEndsAlike(s, t, u, id);
  }

  // ------------------------------------------------------------ arriving

  /** A request under a fresh operation id that names the current revision. */
  function WithRequest(s: State, id: RequestId, op: OperationId, kind: Kind): State {
    s.(requests := s.requests[id := Request(op, kind, s.revision, Arrived)])
  }

  predicate MayArrive(s: State, kind: Kind) {
    kind.Restore? ==> kind.sourceSequence in s.db.rows
  }

  lemma NewRequest(from: State, s: State, id: RequestId, op: OperationId, kind: Kind)
    requires SafetyInv(from) && Reaches(QUIET, from, s) && id !in s.requests && op !in s.db.operations
    requires forall other | other in s.db.operations ::
      s.db.operations[other].status.Completed? || s.db.operations[other].status.Failed?
    requires MayArrive(s, kind)
    ensures Apply(s, Arrive(id, op, kind, s.revision)) == WithRequest(s, id, op, kind)
    ensures Reaches(QUIET, from, WithRequest(s, id, op, kind)) && Undisturbed(WithRequest(s, id, op, kind), id)
  {
    ReachedInv(from, s);
    ReachesNext(QUIET, from, s, Arrive(id, op, kind, s.revision));
    hide Reaches, SafetyInv, Inv;
    assert Apply(s, Arrive(id, op, kind, s.revision)) == WithRequest(s, id, op, kind);
  }

  /**
   The restore of a live row that names the current revision answers with the
   revision of its own write; the newest row is a RestoredVersion of it.
   */
  lemma UndisturbedRestoreSucceeds(from: State, s: State, id: RequestId, op: OperationId, sequence: nat)
    returns (t: State)
    requires SafetyInv(from) && Reaches(QUIET, from, s) && id !in s.requests && op !in s.db.operations
    requires forall other | other in s.db.operations ::
      s.db.operations[other].status.Completed? || s.db.operations[other].status.Failed?
    requires sequence in s.db.rows
    ensures Reaches(QUIET, from, t) && id in t.requests && t.requests[id].phase == Responded(s.minted)
    ensures t.revision == s.minted && t.writes == s.writes + [Write(op, s.minted)]
    ensures t.db.operations == s.db.operations[op := Operation(Restore(sequence), s.revision, None, Completed, Some(s.minted))]
    ensures |t.db.created| > |s.db.created| && t.db.created[|t.db.created| - 1] == Row(s.minted, RestoredVersion, Some(op))
  {
    NewRequest(from, s, id, op, Restore(sequence));
    hide Reaches, SafetyInv, Undisturbed, Alone;
    t := UndisturbedMutationSucceeds(from, WithRequest(s, id, op, Restore(sequence)), id);
  }

  // ------------------------------------------------------------ repeated and interrupted requests

  /**
   A repeated request for a completed mutation, save or restore, gets the same
   answer at once and changes nothing; a restore only as long as the row it
   restores is live. One that names another revision or kind is refused.
   */
  lemma RepeatIsAnswered(s: State, id: RequestId, op: OperationId, kind: Kind, expected: Revision)
    requires id !in s.requests && op in s.db.operations && s.db.operations[op].status.Completed?
    requires s.db.operations[op].result.Some?
    ensures var t := Advanced(Apply(s, Arrive(id, op, kind, expected)), id);
      && t.db == s.db && t.writes == s.writes && t.revision == s.revision
      && t.requests[id].phase ==
         if MayArrive(s, kind) && kind == s.db.operations[op].kind && expected == s.db.operations[op].expected
         then Responded(s.db.operations[op].result.value) else Rejected
  {
  }

  /** The worker finishes a mutation whose request died after the write was marked. */
  lemma WorkerFinishes(s: State, op: OperationId)
    requires SafetyInv(s) && op in s.db.operations && s.db.operations[op].status.ProviderWritten?
    ensures var t := Apply(s, Reconcile(op));
      && t.writes == s.writes && t.revision == s.revision
      && t.db.operations == s.db.operations[op := s.db.operations[op].(status := Completed)]
      && HasRow(t.db.rows, op) && op in t.db.audits && op in t.db.events
  {
    SafeIsNeverRefused(s);
    RefusedIffTaken(s, op);
    assert OperationValid(s, op);
    if HasRow(s.db.rows, op) { assert Finalized(s.db, op).rows == s.db.rows; } else { FinalizedAdds(s.db, op); }
  }

  lemma AdoptingIsNext(s: State, id: RequestId, op: OperationId)
    requires id !in s.requests && op in s.db.operations && s.db.operations[op].status.ProviderWritten?
    requires MayArrive(s, s.db.operations[op].kind)
    ensures var q := Request(op, s.db.operations[op].kind, s.db.operations[op].expected, Adopting);
      Advanced(Apply(s, Arrive(id, op, q.kind, q.expected)), id) == s.(requests := s.requests[id := q])
  {
  }

  lemma AdoptedIsNext(s: State, id: RequestId)
    requires id in s.requests && s.requests[id].phase.Adopting? && Refusal(s.db, s.requests[id].operation).None?
    ensures Advanced(s, id) == At(s.(db := Finalized(s.db, s.requests[id].operation)), id, Adopted)
  {
    hide Finalized, Refusal;
  }

  lemma AnswerIsNext(s: State, id: RequestId)
    requires id in s.requests && s.requests[id].phase.Adopted? && s.requests[id].operation in s.db.operations
    requires s.db.operations[s.requests[id].operation].result.Some?
    ensures Advanced(s, id) == At(s, id, Responded(s.db.operations[s.requests[id].operation].result.value))
  {
  }

  /** And so does a repeated request, which then gives the stored answer without writing again. */
  lemma RepeatFinishes(s: State, id: RequestId, op: OperationId)
    requires SafetyInv(s) && id !in s.requests && op in s.db.operations && s.db.operations[op].status.ProviderWritten?
    requires MayArrive(s, s.db.operations[op].kind)
    ensures var operation := s.db.operations[op];
      var arrived := Apply(s, Arrive(id, op, operation.kind, operation.expected));
      var t := Advanced(Advanced(Advanced(arrived, id), id), id);
      && operation.result.Some? && t.requests[id].phase == Responded(operation.result.value)
      && t.writes == s.writes && t.db.operations == s.db.operations[op := operation.(status := Completed)]
      && HasRow(t.db.rows, op) && op in t.db.audits && op in t.db.events
  {
    WorkerFinishes(s, op);
    SafeIsNeverRefused(s);
    RefusedIffTaken(s, op);
    var operation := s.db.operations[op];
    assert operation.result.Some? by { assert OperationValid(s, op); }
    assert Apply(s, Reconcile(op)).db == Finalized(s.db, op);
    AdoptingIsNext(s, id, op);
    var first := s.(requests := s.requests[id := Request(op, operation.kind, operation.expected, Adopting)]);
    AdoptedIsNext(first, id);
    var second := At(first.(db := Finalized(s.db, op)), id, Adopted);
    AnswerIsNext(second, id);
    hide Apply, Advanced, SafetyInv, NeverRefused, Refusal, Finalized;
  }

  /** A write that the adapter's check refuses fails the operation and writes nothing. */
  lemma StaleCheckFails(s: State, id: RequestId)
    requires id in s.requests && s.requests[id].phase.Registered? && s.revision != s.requests[id].expected
    requires s.requests[id].operation in s.db.operations
    ensures var q := s.requests[id];
      Advanced(Advanced(s, id), id) == s.(
        db := s.db.(operations := s.db.operations[q.operation := s.db.operations[q.operation].(status := FileHistory.Failed)]),
        requests := s.requests[id := q.(phase := Rejected)])
  {
    assert Advanced(s, id) == At(s, id, Conflicted);
  }

  // ------------------------------------------------------------ two saves

  lemma NewSave(from: State, s: State, id: RequestId, op: OperationId) returns (t: State)
    requires SafetyInv(from) && Reaches(QUIET, from, s) && id !in s.requests && op !in s.db.operations
    requires forall other | other in s.db.operations :: s.db.operations[other].status.Completed?
    ensures Reaches(QUIET, from, t)
    ensures id in t.requests && op in t.db.operations && t.db.operations[op].status.Completed?
    ensures t.requests.Keys == s.requests.Keys + {id} && t.db.operations.Keys == s.db.operations.Keys + {op}
    ensures t.limit == s.limit && t.db.created != []
    ensures forall other | other in s.db.operations :: t.db.operations[other] == s.db.operations[other]
    ensures forall k | k in t.db.rows :: |t.db.created| < k + t.limit
    ensures t.db.created[|t.db.created| - 1].operation == Some(op)
  {
    NewRequest(from, s, id, op, Save);
    hide Reaches, SafetyInv, Undisturbed, Alone;
    t := UndisturbedMutationSucceeds(from, WithRequest(s, id, op, Save), id);
  }

  /**
   Two saves of a file that keeps one version, and then the reconciliation
   worker runs once more for the first: it gets a second revision row.
   */
  lemma LateFinalizationDuplicates()
    ensures exists s :: (
              && Reaches(QUIET, Start(1, 0, true), s)
              && 10 in s.db.operations && s.db.operations[10].status.Completed? && !HasRow(s.db.rows, 10)
              && |Finalized(s.db, 10).created| == |s.db.created| + 1)
  {
    var from := Start(1, 0, true);
    StartSafe(1, 0, true);
    ReachesStart(QUIET, from);
    var s := NewSave(from, from, 0, 10);
    s := NewSave(from, s, 1, 11);
    ReachedInv(from, s);
    forall k | k in s.db.rows ensures !IsRowOf(s.db.rows, k, 10) {
      assert k == |s.db.created|;
      assert s.db.rows[k] == s.db.created[k - 1];
    }
    ReachedSafe(from, s);
    RefinalizeCreatesIffPruned(s, 10);
  }
}
