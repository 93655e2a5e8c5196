/**
 The managed mutation protocol of one Drive-backed file as a state machine.
 Any number of save and restore requests run at once; a step of the machine is
 what one request does between two awaits, so every interleaving of requests,
 crashes, reconciliation and outside writers is some sequence of steps.
 A step that is not possible in a state leaves the state alone, which makes
 `Run` total: a statement about `Run` of any sequence is about every run.
 */
module FileMutation {
  import opened Wrappers
  import opened FileHistory

  type RequestId = nat

  /** Where a request came back to the replay check after it had started. */
  datatype Return = AfterMismatch | AfterDuplicate

  datatype Phase =
    | Arrived                        // parameters fixed, nothing looked up
    | NotReplayed                    // no record under this operation id yet
    | Unblocked                      // no other unresolved mutation was seen
    | Current                        // save: the revision check passed
    | Ready(previous: Revision)      // current version read and preserved
    | Registered                     // PENDING record created by this request
    | Checked                        // the adapter's own revision check passed
    | Replaced                       // the provider write returned
    | Observed(final: Revision)      // final provider stat
    | Marked(final: Revision)        // PROVIDER_WRITTEN stored
    | Recorded(final: Revision)      // finalizer committed
    | Pruning(final: Revision, todo: seq<nat>)
    | Conflicted                     // StorageConflictError caught
    | Replaying(from: Return)
    | Adopting                       // replay found PROVIDER_WRITTEN
    | Adopted                        // replay finalized it
    | Responded(revision: Revision)
    | Rejected                       // error response, or crashed

  datatype Request = Request(operation: OperationId, kind: Kind, expected: Revision, phase: Phase)

  /** A provider write by a mutation, in provider order (a history variable). */
  datatype Write = Write(operation: OperationId, revision: Revision)

  datatype State = State(
    limit: nat,                      // versionHistoryLimit, at least 1
    initial: Revision,
    revision: Revision,              // what the provider reports now
    minted: Revision,                // every smaller token has been minted
    db: Database,
    requests: map<RequestId, Request>,
    writes: seq<Write>,
    unrecoverable: set<OperationId>) // the worker gave up on these and has not stored it yet

  datatype Step =
    | Arrive(id: RequestId, operation: OperationId, kind: Kind, expected: Revision)
    | Advance(id: RequestId)
    | ReleaseFails(id: RequestId)    // prune: the provider keeps the version
    | Abandon(id: RequestId)         // crash, or any error but a conflict
    | Reconcile(operation: OperationId)   // the worker runs the finalizer
    | GiveUp(operation: OperationId)      // and it stores FAILED where the finalizer threw for good
    | OutsideWrite                   // any change of the provider revision

  /** A file either has the row its upload created, or no history at all. */
  function Start(limit: nat, initial: Revision, uploaded: bool): State {
    var empty := Database(map[], 0, map[], [], [], []);
    State(limit, initial, initial, initial + 1,
          if uploaded then InsertRow(empty, Row(initial, Initial, None)) else empty,
          map[], [], {})
  }

  function At(s: State, id: RequestId, phase: Phase): State
    requires id in s.requests
  {
    s.(requests := s.requests[id := s.requests[id].(phase := phase)])
  }

  predicate Unresolved(status: Status) {
    status.Pending? || status.ProviderWritten?
  }

  /** `assertNoUnresolvedMutation`: some other operation is still open. */
  predicate Blocked(db: Database, op: OperationId) {
    exists other | other in db.operations :: other != op && Unresolved(db.operations[other].status)
  }

  function SetOperation(s: State, op: OperationId, operation: Operation): State {
    s.(db := s.db.(operations := s.db.operations[op := operation]))
  }

  /** `replayOperation` and `replayRestore` up to their first effect. */
  function Replay(s: State, id: RequestId): State
    requires id in s.requests
  {
    var q := s.requests[id];
    if q.operation !in s.db.operations then
      At(s, id,
         match q.phase
         case Replaying(AfterDuplicate) => if q.kind.Restore? then Registered else Rejected
         case Replaying(AfterMismatch) => Rejected
         case _ => NotReplayed)
    else
      var operation := s.db.operations[q.operation];
      if operation.kind != q.kind || operation.expected != q.expected then At(s, id, Rejected)
      else if operation.status.ProviderWritten? then At(s, id, Adopting)
      else if operation.status.Completed? && operation.result.Some? then
        At(s, id, Responded(operation.result.value))
      else At(s, id, Rejected)
  }

  /** The provider write: whatever is there, a fresh revision replaces it. */
  function Replace(s: State, id: RequestId): State
    requires id in s.requests
  {
    At(s.(revision := s.minted,
          minted := s.minted + 1,
          writes := s.writes + [Write(s.requests[id].operation, s.minted)]),
       id, Replaced)
  }

  function Create(s: State, id: RequestId, previous: Revision): State
    requires id in s.requests
  {
    var q := s.requests[id];
    if q.operation in s.db.operations then At(s, id, Replaying(AfterDuplicate))
    else
      var baseline := if q.kind.Save? then Some(previous) else None;
      At(SetOperation(s, q.operation, Operation(q.kind, q.expected, baseline, Pending, None)), id, Registered)
  }

  function Mark(s: State, id: RequestId, final: Revision): State
    requires id in s.requests
  {
    var op := s.requests[id].operation;
    if op !in s.db.operations then At(s, id, Rejected)
    else
      At(SetOperation(s, op, s.db.operations[op].(status := ProviderWritten, result := Some(final))), id, Marked(final))
  }

  function Commit(s: State, id: RequestId, next: Phase): State
    requires id in s.requests
  {
    var op := s.requests[id].operation;
    if Refusal(s.db, op).Some? then At(s, id, Rejected)
    else At(s.(db := Finalized(s.db, op)), id, next)
  }

  /** What a request does next, up to its next await. */
  function Advanced(s: State, id: RequestId): (t: State)
    requires id in s.requests
    ensures t.requests.Keys == s.requests.Keys
    ensures t.requests[id] == s.requests[id].(phase := t.requests[id].phase)
    ensures forall other | other in s.requests && other != id :: t.requests[other] == s.requests[other]
    ensures t.limit == s.limit && t.initial == s.initial && t.unrecoverable == s.unrecoverable
    ensures !s.requests[id].phase.Checked? ==>
      t.revision == s.revision && t.minted == s.minted && t.writes == s.writes
  {
    var q := s.requests[id];
    match q.phase
    case Arrived => Replay(s, id)
    case NotReplayed => At(s, id, if Blocked(s.db, q.operation) then Rejected else Unblocked)
    case Unblocked =>
      if s.revision != q.expected then At(s, id, if q.kind.Save? then Replaying(AfterMismatch) else Rejected)
      else At(s, id, if q.kind.Save? then Current else Ready(s.revision))
    case Current => At(s, id, Ready(s.revision))
    case Ready(previous) => Create(s, id, previous)
    case Registered => At(s, id, if s.revision == q.expected then Checked else Conflicted)
    case Checked => Replace(s, id)
    case Replaced => At(s, id, Observed(s.revision))
    case Observed(final) => Mark(s, id, final)
    case Marked(final) => Commit(s, id, Recorded(final))
    case Recorded(final) => At(s, id, Pruning(final, Removable(s.db.rows, s.limit)))
    case Pruning(final, todo) =>
      if todo == [] then At(s, id, Responded(final))
      else At(s.(db := DeleteRow(s.db, todo[0])), id, Pruning(final, todo[1..]))
    case Conflicted =>
      if q.operation in s.db.operations then
        At(SetOperation(s, q.operation, s.db.operations[q.operation].(status := Failed)), id, Rejected)
      else At(s, id, Rejected)
    case Replaying(_) => Replay(s, id)
    case Adopting => Commit(s, id, Adopted)
    case Adopted =>
      if q.operation in s.db.operations && s.db.operations[q.operation].result.Some? then
        At(s, id, Responded(s.db.operations[q.operation].result.value))
      else At(s, id, Rejected)
    case Responded(_) => s
    case Rejected => s
  }

  /** Errors after which the worker does not try again. */
  predicate ForGood(error: FinalizeError) {
    !error.NotReady?
  }

  /**
   The worker comes, perhaps late, to an operation that was PROVIDER_WRITTEN
   when it was selected.
   */
  function Reconciled(s: State, op: OperationId): State {
    if op !in s.db.operations || s.db.operations[op].result.None? then s
    else if Refusal(s.db, op).Some? then
      if ForGood(Refusal(s.db, op).value) then s.(unrecoverable := s.unrecoverable + {op}) else s
    else s.(db := Finalized(s.db, op))
  }

  function Apply(s: State, step: Step): State {
    match step
    case Arrive(id, op, kind, expected) =>
      if id in s.requests then s
      else
        // A restore first looks its source row up and stops when it is gone.
        var phase := if kind.Restore? && kind.sourceSequence !in s.db.rows then Rejected else Arrived;
        s.(requests := s.requests[id := Request(op, kind, expected, phase)])
    case Advance(id) => if id in s.requests then Advanced(s, id) else s
    case ReleaseFails(id) =>
      if id in s.requests && s.requests[id].phase.Pruning? && s.requests[id].phase.todo != [] then
        At(s, id, Pruning(s.requests[id].phase.final, s.requests[id].phase.todo[1..]))
      else s
    case Abandon(id) =>
      if id in s.requests && !s.requests[id].phase.Responded? then At(s, id, Rejected) else s
    case Reconcile(op) => Reconciled(s, op)
    case GiveUp(op) =>
      if op in s.unrecoverable && op in s.db.operations then
        SetOperation(s, op, s.db.operations[op].(status := Failed)).(unrecoverable := s.unrecoverable - {op})
      else s
    case OutsideWrite => s.(revision := s.minted, minted := s.minted + 1)
  }

  function Run(s: State, steps: seq<Step>): State
    decreases |steps|
  {
    if steps == [] then s else Apply(Run(s, steps[..|steps| - 1]), steps[|steps| - 1])
  }

  // ------------------------------------------------------ one request alone

  /** The request's own steps and no others. */
  function AdvancedTimes(s: State, id: RequestId, n: nat): (t: State)
    requires id in s.requests
    ensures id in t.requests
  {
    if n == 0 then s else Advanced(AdvancedTimes(s, id, n - 1), id)
  }

  ghost predicate Alone(s: State, t: State, id: RequestId)
    requires id in s.requests
  {
    exists n: nat :: AdvancedTimes(s, id, n) == t
  }

  lemma AloneNext(s: State, t: State, id: RequestId)
    requires id in s.requests && id in t.requests && Alone(s, t, id)
    ensures Alone(s, Advanced(t, id), id)
  {
    var n: nat :| AdvancedTimes(s, id, n) == t;
    assert AdvancedTimes(s, id, n + 1) == Advanced(t, id);
  }

  /** A request that has been answered or refused goes nowhere. */
  predicate Settles(s: State, id: RequestId) {
    id in s.requests && (s.requests[id].phase.Responded? || s.requests[id].phase.Rejected?)
  }

  lemma SettledIsFixed(s: State, id: RequestId)
    requires Settles(s, id)
    ensures Advanced(s, id) == s
  {
  }

  lemma {:induction false} SettledStays(s: State, id: RequestId, n: nat, m: nat)
    requires id in s.requests && n <= m && Settles(AdvancedTimes(s, id, n), id)
    ensures AdvancedTimes(s, id, m) == AdvancedTimes(s, id, n)
    decreases m
  {
    hide Advanced;
    if n < m {
      SettledStays(s, id, n, m - 1);
      SettledIsFixed(AdvancedTimes(s, id, m - 1), id);
    }
  }

  /** Left alone, a request ends in one way only. */
  lemma AloneEndsAlike(s: State, t: State, u: State, id: RequestId)
    requires id in s.requests && Alone(s, t, id) && Alone(s, u, id) && Settles(t, id) && Settles(u, id)
    ensures t == u
  {
    var n: nat :| AdvancedTimes(s, id, n) == t;
    var m: nat :| AdvancedTimes(s, id, m) == u;
    if n <= m { SettledStays(s, id, n, m); } else { SettledStays(s, id, m, n); }
  }

  // ------------------------------------------------------ assumptions on runs

  /**
   What a statement about runs may assume of each step.
   KnownRevisions: a request names a revision the provider has handed out.
   AtomicReplaces: the provider write lands on the revision the adapter's check
   read. NoOutsideWrites: only mutations change the provider revision.
   RowsKept: the finalizer is not run again for an operation whose row is gone.
   */
  datatype Assumption = KnownRevisions | AtomicReplaces | NoOutsideWrites | RowsKept

  /** The operation, if any, that a step runs the finalizer for. */
  function Finalizing(s: State, step: Step): Option<OperationId> {
    match step
    case Advance(id) =>
      if id in s.requests && (s.requests[id].phase.Marked? || s.requests[id].phase.Adopting?)
      then Some(s.requests[id].operation) else None
    case Reconcile(op) => Some(op)
    case _ => None
  }

  predicate Holds(assumption: Assumption, s: State, step: Step) {
    match assumption
    case KnownRevisions => step.Arrive? ==> step.expected < s.minted
    case AtomicReplaces =>
      step.Advance? && step.id in s.requests && s.requests[step.id].phase.Checked? ==>
        s.revision == s.requests[step.id].expected
    case NoOutsideWrites => !step.OutsideWrite?
    case RowsKept =>
      var op := Finalizing(s, step);
      op.Some? && op.value in s.db.operations && s.db.operations[op.value].status.Completed? ==>
        HasRow(s.db.rows, op.value)
  }

  ghost predicate HoldsAll(assumptions: set<Assumption>, s: State, step: Step) {
    forall a | a in assumptions :: Holds(a, s, step)
  }

  ghost predicate Always(assumptions: set<Assumption>, s: State, steps: seq<Step>) {
    forall i | 0 <= i < |steps| :: HoldsAll(assumptions, Run(s, steps[..i]), steps[i])
  }

  lemma AlwaysPrefix(assumptions: set<Assumption>, s: State, steps: seq<Step>)
    requires steps != [] && Always(assumptions, s, steps)
    ensures Always(assumptions, s, steps[..|steps| - 1])
    ensures HoldsAll(assumptions, Run(s, steps[..|steps| - 1]), steps[|steps| - 1])
  {
    var prefix := steps[..|steps| - 1];
    forall i | 0 <= i < |prefix| ensures HoldsAll(assumptions, Run(s, prefix[..i]), prefix[i]) {
      assert prefix[..i] == steps[..i];
    }
  }

  /** Some run in which every step keeps the assumptions leads there. */
  ghost predicate Reaches(assumptions: set<Assumption>, from: State, to: State) {
    exists steps :: Always(assumptions, from, steps) && Run(from, steps) == to
  }

  lemma ReachesStart(assumptions: set<Assumption>, from: State)
    ensures Reaches(assumptions, from, from)
  {
    assert Always(assumptions, from, []) && Run(from, []) == from;
  }

  lemma ReachesNext(assumptions: set<Assumption>, from: State, to: State, step: Step)
    requires Reaches(assumptions, from, to) && HoldsAll(assumptions, to, step)
    ensures Reaches(assumptions, from, Apply(to, step))
  {
    var steps :| Always(assumptions, from, steps) && Run(from, steps) == to;
    var more := steps + [step];
    assert more[..|steps|] == steps;
    forall i | 0 <= i < |more| ensures HoldsAll(assumptions, Run(from, more[..i]), more[i]) {
      if i < |steps| { assert more[..i] == steps[..i]; }
    }
    assert Run(from, more) == Apply(to, step);
  }
}
