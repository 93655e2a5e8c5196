/**
 `save` and `restoreVersion` as threads of updates with awaits in between, at
 which other requests, the reconciliation worker and outside writers may do
 anything and the thread itself may die. Each is proved to be a run of the
 protocol machine that keeps what its environment keeps, so every statement
 about runs holds of any mix of them; and a thread that nothing disturbs is
 proved to be exactly its own steps of the machine, up to its answer.
 */
module MutationService {
  import opened Collections
  import opened Wrappers
  import opened FileHistory
  import opened FileMutation
  import opened MutationInvariant
  import opened MutationIdempotence
  import opened MutationAdmission
  import opened MutationOrder
  import opened MutationSafety
  import opened MutationHistory
  import opened MutationProgress

  /** A run leads there; as long as every step has kept the assumptions, it is one that keeps them. */
  ghost predicate LeadsTo(assumed: set<Assumption>, kept: bool, from: State, to: State) {
    Reaches(if kept then assumed else {}, from, to)
  }

  lemma ReachesWithFewer(assumed: set<Assumption>, fewer: set<Assumption>, from: State, to: State)
    requires Reaches(assumed, from, to) && fewer <= assumed
    ensures Reaches(fewer, from, to)
  {
    var steps :| Always(assumed, from, steps) && Run(from, steps) == to;
    forall i | 0 <= i < |steps| ensures HoldsAll(fewer, Run(from, steps[..i]), steps[i]) {
      assert HoldsAll(assumed, Run(from, steps[..i]), steps[i]);
    }
    assert Always(fewer, from, steps);
  }

  lemma LeadsWeaker(assumed: set<Assumption>, kept: bool, less: bool, from: State, to: State)
    requires LeadsTo(assumed, kept, from, to) && (less ==> kept)
    ensures LeadsTo(assumed, less, from, to)
  {
    ReachesWithFewer(if kept then assumed else {}, if less then assumed else {}, from, to);
  }

  lemma LeadsNext(assumed: set<Assumption>, kept: bool, from: State, to: State, step: Step)
    requires LeadsTo(assumed, kept, from, to)
    ensures LeadsTo(assumed, kept && HoldsAll(assumed, to, step), from, Apply(to, step))
  {
    var still := kept && HoldsAll(assumed, to, step);
    LeadsWeaker(assumed, kept, still, from, to);
    ReachesNext(if still then assumed else {}, from, to, step);
  }

  /** The step is not the request's own. */
  predicate IsForeign(step: Step, id: RequestId) {
    step != Advance(id) && step != ReleaseFails(id) && step != Abandon(id)
  }

  predicate AllForeign(steps: seq<Step>, id: RequestId) {
    forall i | 0 <= i < |steps| :: IsForeign(steps[i], id)
  }

  lemma ForeignStepKeeps(s: State, step: Step, id: RequestId)
    requires id in s.requests && IsForeign(step, id)
    ensures var t := Apply(s, step); id in t.requests && t.requests[id] == s.requests[id]
    ensures Apply(s, step).limit == s.limit && Apply(s, step).initial == s.initial
  {
    hide Finalized, Refusal;
  }

  lemma {:induction false} ForeignRunKeeps(assumed: set<Assumption>, kept: bool, from: State, s: State,
                                           steps: seq<Step>, id: RequestId)
    requires id in s.requests && AllForeign(steps, id) && LeadsTo(assumed, kept, from, s)
    ensures var t := Run(s, steps); id in t.requests && t.requests[id] == s.requests[id]
    ensures Run(s, steps).limit == s.limit && Run(s, steps).initial == s.initial
    ensures LeadsTo(assumed, kept && Always(assumed, s, steps), from, Run(s, steps))
    decreases |steps|
  {
    if steps != [] {
      var init, last := steps[..|steps| - 1], steps[|steps| - 1];
      ForeignRunKeeps(assumed, kept, from, s, init, id);
      assert Run(s, steps) == Apply(Run(s, init), last);
      if Always(assumed, s, steps) { AlwaysPrefix(assumed, s, steps); }
      hide Run, LeadsTo, Always, HoldsAll;
      ForeignStepKeeps(Run(s, init), last, id);
      LeadsNext(assumed, kept && Always(assumed, s, init), from, Run(s, init), last);
      LeadsWeaker(assumed, kept && Always(assumed, s, init) && HoldsAll(assumed, Run(s, init), last),
                  kept && Always(assumed, s, steps), from, Run(s, steps));
    }
  }

  class FileMutations {
    const limit: nat
    const initial: Revision
    const calm: bool                           // nothing happens at awaits, and no release fails
    var db: Database
    var revision: Revision
    var minted: Revision
    var requests: map<RequestId, Request>      // every request and how far it is
    var writes: seq<Write>                     // history
    var unrecoverable: set<OperationId>
    ghost const assumed: set<Assumption>
    ghost var kept: bool                       // every step so far has kept what is assumed

    function View(): State
      reads this
    {
      State(limit, initial, revision, minted, db, requests, writes, unrecoverable)
    }

    /** The whole run so far, of all requests, and this request's part since `start` if nothing disturbed it. */
    ghost predicate Tracked(start: State, id: RequestId)
      reads this
    {
      && LeadsTo(assumed, kept, origin, View()) && id in requests
      && id in start.requests && (calm ==> Alone(start, View(), id))
    }

    ghost const origin: State

    constructor (limit: nat, initial: Revision, uploaded: bool, calm: bool, ghost assumed: set<Assumption>)
      ensures View() == Start(limit, initial, uploaded) == origin && this.calm == calm && this.assumed == assumed
      ensures kept && LeadsTo(assumed, kept, origin, View())
    {
      this.limit, this.initial, this.calm, this.assumed := limit, initial, calm, assumed;
      var s := Start(limit, initial, uploaded);
      db, revision, minted, requests, writes, unrecoverable := s.db, s.revision, s.minted, map[], [], {};
      kept, origin := true, s;
      new;
      ReachesStart(assumed, origin);
    }

    /** The request is alive, in this phase, in a state its run leads to. */
    ghost predicate Is(start: State, id: RequestId, phase: Phase)
      reads this
    {
      Tracked(start, id) && requests[id].phase == phase
    }

    ghost predicate Asks(id: RequestId, op: OperationId, kind: Kind, expected: Revision)
      reads this
    {
      id in requests && requests[id].operation == op && requests[id].kind == kind && requests[id].expected == expected
    }

    method Move(id: RequestId, phase: Phase)
      requires id in requests
      modifies `requests
      ensures View() == At(old(View()), id, phase)
    {
      requests := requests[id := requests[id].(phase := phase)];
    }

    /** A step of the machine is about to be made. */
    ghost method Log(start: State, id: RequestId, step: Step)
      requires Tracked(start, id)
      modifies `kept
      ensures kept == (old(kept) && HoldsAll(assumed, View(), step))
      ensures LeadsTo(assumed, kept, origin, Apply(View(), step))
      ensures step == Advance(id) && calm ==> Alone(start, Advanced(View(), id), id)
    {
      LeadsNext(assumed, kept, origin, View(), step);
      if step == Advance(id) && calm { AloneNext(start, View(), id); }
      kept := kept && HoldsAll(assumed, View(), step);
    }

    method Interfere(id: RequestId, ghost start: State)
      requires Tracked(start, id) && !calm
      modifies this
      ensures Tracked(start, id) && requests[id] == old(requests[id]) && (kept ==> old(kept))
    {
      var steps: seq<Step> := *;
      if AllForeign(steps, id) {
        ForeignRunKeeps(assumed, kept, origin, View(), steps, id);
        var t := Run(View(), steps);
        kept := kept && Always(assumed, View(), steps);
        hide Run, LeadsTo, Alone, Always;
        db, revision, minted, requests, writes, unrecoverable :=
          t.db, t.revision, t.minted, t.requests, t.writes, t.unrecoverable;
        assert View() == t;
      }
    }

    /** An await: others move, and this thread may not come back. */
    method Await(id: RequestId, ghost start: State) returns (alive: bool)
      requires Tracked(start, id) && !requests[id].phase.Responded?
      modifies this
      ensures Tracked(start, id) && (kept ==> old(kept)) && (calm ==> alive && View() == old(View()))
      ensures requests[id] == if alive then old(requests[id]) else old(requests[id]).(phase := Rejected)
    {
      alive := true;
      if calm { return; }
      Interfere(id, start);
      alive := *;
      if !alive {
        hide LeadsTo, Alone;
        Log(start, id, Abandon(id));
        Move(id, Rejected);
      }
    }

    /** `replayOperation`, `replayRestore`: the durable result of this operation id, if there is one. */
    method ReplayOperation(id: RequestId, ghost start: State) returns (found: Replay)
      requires Tracked(start, id) && (requests[id].phase.Arrived? || requests[id].phase.Replaying?)
      modifies this
      ensures Tracked(start, id) && (kept ==> old(kept))
      ensures requests[id] == old(requests[id]).(phase := requests[id].phase)
      ensures found.Nothing? <==> old(requests[id].operation) !in old(db).operations
      ensures !found.Nothing? ==> Fits(found, old(requests[id]), old(db).operations[old(requests[id].operation)])
      ensures match found
              case Nothing => requests[id].phase == WhenNothing(old(requests[id]))
              case Answer(result) => requests[id].phase == Responded(result)
              case Error => requests[id].phase == Rejected
      ensures calm && Finishable(old(db), old(requests[id]).operation) && Matches(old(db), old(requests[id])) ==>
        found == Answer(old(db).operations[old(requests[id]).operation].result.value)
    {
      var q := requests[id];
      Log(start, id, Advance(id));
      if q.operation !in db.operations {
        Move(id, WhenNothing(q));
        return Nothing;
      }
      var operation := db.operations[q.operation];
      if operation.kind != q.kind || operation.expected != q.expected {
        Move(id, Rejected);
        return Error;
      }
      if operation.status.ProviderWritten? {
        Move(id, Adopting);
        found := Adopt(id, start);
      } else if operation.status.Completed? && operation.result.Some? {
        Move(id, Responded(operation.result.value));
        found := Answer(operation.result.value);
      } else {
        Move(id, Rejected);
        found := Error;
      }
    }

    /** The finalizer, for a marked operation or an adopted one. */
    method Finalize(id: RequestId, next: Phase, ghost start: State) returns (ok: bool)
      requires Tracked(start, id)
      requires (requests[id].phase.Adopting? && next.Adopted?)
        || (requests[id].phase.Marked? && next == Recorded(requests[id].phase.final))
      modifies this
      ensures Tracked(start, id) && (kept ==> old(kept)) && View() == Advanced(old(View()), id)
      ensures requests[id] == old(requests[id]).(phase := if ok then next else Rejected)
      ensures ok <==> Refusal(old(db), old(requests[id].operation)).None?
      ensures db == if ok then Finalized(old(db), old(requests[id]).operation) else old(db)
      ensures ok ==>
        var op := old(requests[id]).operation;
        db.operations == old(db).operations[op := old(db).operations[op].(status := Completed)]
    {
      hide Finalized, Refusal, LeadsTo, Alone;
      Log(start, id, Advance(id));
      if Refusal(db, requests[id].operation).Some? {
        Move(id, Rejected);
        return false;
      }
      FinalizedCompletes(db, requests[id].operation);
      db := Finalized(db, requests[id].operation);
      Move(id, next);
      ok := true;
    }

    /** The result of an operation a replay has just finished. */
    method ReadResult(id: RequestId, ghost start: State) returns (found: Replay)
      requires Is(start, id, Adopted)
      modifies this
      ensures Tracked(start, id) && (kept ==> old(kept)) && View() == Advanced(old(View()), id) && !found.Nothing?
      ensures requests[id] == old(requests[id]).(phase := if found.Answer? then Responded(found.result) else Rejected)
      ensures db == old(db)
      ensures var op := old(requests[id]).operation;
        found == if op in db.operations && db.operations[op].result.Some? then Answer(db.operations[op].result.value) else Error
    {
      hide LeadsTo, Alone;
      var op := requests[id].operation;
      Log(start, id, Advance(id));
      if op in db.operations && db.operations[op].result.Some? {
        found := Answer(db.operations[op].result.value);
        Move(id, Responded(found.result));
      } else {
        found := Error;
        Move(id, Rejected);
      }
    }

    /** A replay that finds the provider write done finishes the operation. */
    method Adopt(id: RequestId, ghost start: State) returns (found: Replay)
      requires Is(start, id, Adopting)
      modifies this
      ensures Tracked(start, id) && (kept ==> old(kept)) && !found.Nothing?
      ensures requests[id] == old(requests[id]).(phase := if found.Answer? then Responded(found.result) else Rejected)
      ensures calm && Finishable(old(db), old(requests[id]).operation) ==>
        found == Answer(old(db).operations[old(requests[id]).operation].result.value)
    {
      assert Finishable(db, requests[id].operation) ==> db.operations[requests[id].operation].result.Some?;
      hide LeadsTo, Alone, Refusal;
      var alive := Await(id, start);
      if !alive { return Error; }
      var ok := Finalize(id, Adopted, start);
      if !ok { return Error; }
      alive := Await(id, start);
      if !alive { return Error; }
      found := ReadResult(id, start);
    }

    /** `assertNoUnresolvedMutation`. */
    method CheckUnresolved(id: RequestId, ghost start: State) returns (ok: bool)
      requires Is(start, id, NotReplayed)
      modifies this
      ensures Tracked(start, id) && (kept ==> old(kept)) && View() == Advanced(old(View()), id)
      ensures requests[id] == old(requests[id]).(phase := if ok then Unblocked else Rejected)
      ensures ok <==>
        forall other | other in old(db).operations && other != old(requests[id]).operation ::
          !old(db).operations[other].status.Pending? && !old(db).operations[other].status.ProviderWritten?
    {
      hide LeadsTo, Alone;
      Log(start, id, Advance(id));
      var op := requests[id].operation;
      ok := !exists other | other in db.operations :: other != op && Unresolved(db.operations[other].status);
      Move(id, if ok then Unblocked else Rejected);
    }

    /** The service's revision check; a save that fails it looks for its durable result once more. */
    method CheckRevision(id: RequestId, ghost start: State) returns (ok: bool)
      requires Is(start, id, Unblocked)
      modifies this
      ensures Tracked(start, id) && (kept ==> old(kept)) && View() == Advanced(old(View()), id)
      ensures requests[id] == old(requests[id]).(phase := requests[id].phase)
      ensures if ok then requests[id].phase == (if requests[id].kind.Save? then Current else Ready(revision))
              else requests[id].phase == (if requests[id].kind.Save? then Replaying(AfterMismatch) else Rejected)
      ensures ok <==> old(revision) == old(requests[id]).expected
    {
      hide LeadsTo, Alone;
      Log(start, id, Advance(id));
      var q := requests[id];
      ok := revision == q.expected;
      if ok {
        Move(id, if q.kind.Save? then Current else Ready(revision));
      } else {
        Move(id, if q.kind.Save? then Replaying(AfterMismatch) else Rejected);
      }
    }

    /** The current version is read and preserved. */
    method Preserve(id: RequestId, ghost start: State) returns (previous: Revision)
      requires Is(start, id, Current)
      modifies this
      ensures Tracked(start, id) && (kept ==> old(kept)) && View() == Advanced(old(View()), id) && requests[id] == old(requests[id]).(phase := Ready(previous))
      ensures previous == old(revision)
    {
      hide LeadsTo, Alone;
      Log(start, id, Advance(id));
      previous := revision;
      Move(id, Ready(previous));
    }

    /** `beginOperation`, `beginRestore`: the PENDING record, or a duplicate. */
    method BeginOperation(id: RequestId, ghost start: State) returns (created: bool)
      requires Tracked(start, id) && requests[id].phase.Ready?
      modifies this
      ensures Tracked(start, id) && (kept ==> old(kept)) && View() == Advanced(old(View()), id)
      ensures created <==> old(requests[id].operation) !in old(db).operations
      ensures requests[id] == old(requests[id]).(phase := if created then Registered else Replaying(AfterDuplicate))
      ensures db == if !created then old(db) else
        var q := old(requests[id]);
        old(db).(operations := old(db).operations[q.operation :=
          Operation(q.kind, q.expected, if q.kind.Save? then Some(q.phase.previous) else None, Pending, None)])
    {
      hide LeadsTo, Alone;
      Log(start, id, Advance(id));
      var q := requests[id];
      if q.operation in db.operations {
        Move(id, Replaying(AfterDuplicate));
        return false;
      }
      var baseline := if q.kind.Save? then Some(q.phase.previous) else None;
      db := db.(operations := db.operations[q.operation := Operation(q.kind, q.expected, baseline, Pending, None)]);
      Move(id, Registered);
      created := true;
    }

    /** The adapter compares the revision, and only then writes. */
    method CheckBeforeReplace(id: RequestId, ghost start: State) returns (ok: bool)
      requires Is(start, id, Registered)
      modifies this
      ensures Tracked(start, id) && (kept ==> old(kept)) && View() == Advanced(old(View()), id)
      ensures requests[id] == old(requests[id]).(phase := if ok then Checked else Conflicted)
      ensures ok <==> old(revision) == old(requests[id]).expected
    {
      hide LeadsTo, Alone;
      Log(start, id, Advance(id));
      ok := revision == requests[id].expected;
      Move(id, if ok then Checked else Conflicted);
    }

    method WriteProvider(id: RequestId, ghost start: State)
      requires Is(start, id, Checked)
      modifies this
      ensures Tracked(start, id) && (kept ==> old(kept)) && View() == Advanced(old(View()), id) && requests[id] == old(requests[id]).(phase := Replaced)
      ensures writes == old(writes) + [Write(requests[id].operation, revision)] && revision == old(minted)
      ensures minted == old(minted) + 1 && db == old(db)
    {
      hide LeadsTo, Alone;
      Log(start, id, Advance(id));
      writes := writes + [Write(requests[id].operation, minted)];
      revision, minted := minted, minted + 1;
      Move(id, Replaced);
    }

    method StatAfterReplace(id: RequestId, ghost start: State) returns (final: Revision)
      requires Is(start, id, Replaced)
      modifies this
      ensures Tracked(start, id) && (kept ==> old(kept)) && View() == Advanced(old(View()), id) && requests[id] == old(requests[id]).(phase := Observed(final))
      ensures final == old(revision)
    {
      hide LeadsTo, Alone;
      Log(start, id, Advance(id));
      final := revision;
      Move(id, Observed(final));
    }

    method MarkProviderWritten(id: RequestId, final: Revision, ghost start: State) returns (ok: bool)
      requires Is(start, id, Observed(final))
      modifies this
      ensures Tracked(start, id) && (kept ==> old(kept)) && View() == Advanced(old(View()), id)
      ensures requests[id] == old(requests[id]).(phase := if ok then Marked(final) else Rejected)
      ensures ok <==> old(requests[id]).operation in old(db).operations
      ensures db == if !ok then old(db) else
        var op := old(requests[id]).operation;
        old(db).(operations := old(db).operations[op := old(db).operations[op].(status := ProviderWritten, result := Some(final))])
    {
      hide LeadsTo, Alone;
      Log(start, id, Advance(id));
      var op := requests[id].operation;
      ok := op in db.operations;
      if ok {
        db := db.(operations := db.operations[op := db.operations[op].(status := ProviderWritten, result := Some(final))]);
      }
      Move(id, if ok then Marked(final) else Rejected);
    }

    /** A StorageConflictError fails the operation. */
    method FailOperation(id: RequestId, ghost start: State)
      requires Is(start, id, Conflicted)
      modifies this
      ensures Tracked(start, id) && (kept ==> old(kept)) && View() == Advanced(old(View()), id) && requests[id] == old(requests[id]).(phase := Rejected)
      ensures db == if old(requests[id]).operation !in old(db).operations then old(db) else
        var op := old(requests[id]).operation;
        old(db).(operations := old(db).operations[op := old(db).operations[op].(status := FileHistory.Failed)])
    {
      hide LeadsTo, Alone;
      Log(start, id, Advance(id));
      var op := requests[id].operation;
      if op in db.operations {
        db := db.(operations := db.operations[op := db.operations[op].(status := FileHistory.Failed)]);
      }
      Move(id, Rejected);
    }

    method ListRemovable(id: RequestId, ghost start: State)
      requires Tracked(start, id) && requests[id].phase.Recorded?
      modifies this
      ensures Tracked(start, id) && (kept ==> old(kept)) && View() == Advanced(old(View()), id)
      ensures requests[id] == old(requests[id]).(phase := Pruning(old(requests[id]).phase.final, Removable(db.rows, limit)))
      ensures db == old(db)
    {
      hide LeadsTo, Alone, Removable;
      Log(start, id, Advance(id));
      Move(id, Pruning(requests[id].phase.final, Removable(db.rows, limit)));
    }

    /** One row of the prune: deleted, or kept because the provider did not release the version. */
    method PruneOne(id: RequestId, released: bool, ghost start: State)
      requires Tracked(start, id) && requests[id].phase.Pruning? && requests[id].phase.todo != [] && (calm ==> released)
      modifies this
      ensures Tracked(start, id) && (kept ==> old(kept))
      ensures requests[id] ==
        old(requests[id]).(phase := Pruning(old(requests[id]).phase.final, old(requests[id]).phase.todo[1..]))
      ensures db == if released then DeleteRow(old(db), old(requests[id]).phase.todo[0]) else old(db)
    {
      hide LeadsTo, Alone, DeleteRow;
      var phase := requests[id].phase;
      if released {
        Log(start, id, Advance(id));
        db := DeleteRow(db, phase.todo[0]);
      } else {
        Log(start, id, ReleaseFails(id));
      }
      Move(id, Pruning(phase.final, phase.todo[1..]));
    }

    method Respond(id: RequestId, ghost start: State)
      requires Tracked(start, id) && requests[id].phase.Pruning? && requests[id].phase.todo == []
      modifies this
      ensures Tracked(start, id) && (kept ==> old(kept)) && View() == Advanced(old(View()), id)
      ensures requests[id] == old(requests[id]).(phase := Responded(old(requests[id]).phase.final)) && db == old(db)
    {
      hide LeadsTo, Alone;
      Log(start, id, Advance(id));
      Move(id, Responded(requests[id].phase.final));
    }

    /** `prune`: the rows beyond the limit, one after the other; failed releases are skipped. */
    method Prune(id: RequestId, ghost start: State) returns (alive: bool, ghost visited: seq<nat>)
      requires Tracked(start, id) && requests[id].phase.Recorded?
      modifies this
      ensures Tracked(start, id) && (kept ==> old(kept))
      ensures requests[id] == old(requests[id]).(phase := if alive then Responded(old(requests[id]).phase.final) else Rejected)
      ensures alive ==> visited == Removable(old(db).rows, limit)
      ensures calm ==> alive && db.rows == old(db).rows - Elements(visited)
    {
      hide LeadsTo, Alone, Removable;
      ghost var q := requests[id];
      ListRemovable(id, start);
      visited := [];
      ghost var removable := requests[id].phase.todo;
      while requests[id].phase.todo != []
        invariant Tracked(start, id) && requests[id].phase.Pruning? && (kept ==> old(kept))
        invariant requests[id] == q.(phase := Pruning(q.phase.final, requests[id].phase.todo))
        invariant visited + requests[id].phase.todo == removable
        invariant calm ==> db.rows == old(db).rows - Elements(visited)
        decreases |requests[id].phase.todo|
      {
        alive := Await(id, start);
        if !alive { return; }
        var released: bool := *;
        if calm { released := true; }
        visited := visited + [requests[id].phase.todo[0]];
        PruneOne(id, released, start);
      }
      assert visited == removable;
      Respond(id, start);
      alive := true;
    }

    /** From the PENDING record to the answer: write, mark, finalize, prune. */
    method WriteAndRecord(id: RequestId, ghost start: State) returns (answer: Option<Revision>)
      requires Is(start, id, Registered)
      modifies this
      ensures Tracked(start, id) && (kept ==> old(kept))
      ensures requests[id] == old(requests[id]).(phase := Outcome(answer))
    {
      hide LeadsTo, Alone, Refusal;
      var alive := Await(id, start);
      if !alive { return None; }
      var ok := CheckBeforeReplace(id, start);
      alive := Await(id, start);
      if !alive { return None; }
      if !ok {
        FailOperation(id, start);
        return None;
      }
      WriteProvider(id, start);
      alive := Await(id, start);
      if !alive { return None; }
      var final := StatAfterReplace(id, start);
      answer := Record(id, final, start);
    }

    method Record(id: RequestId, final: Revision, ghost start: State) returns (answer: Option<Revision>)
      requires Is(start, id, Observed(final))
      modifies this
      ensures Tracked(start, id) && (kept ==> old(kept))
      ensures requests[id] == old(requests[id]).(phase := Outcome(answer))
    {
      hide LeadsTo, Alone, Refusal;
      var alive := Await(id, start);
      if !alive { return None; }
      var ok := MarkProviderWritten(id, final, start);
      if !ok { return None; }
      alive := Await(id, start);
      if !alive { return None; }
      ok := Finalize(id, Recorded(final), start);
      if !ok { return None; }
      alive := Await(id, start);
      if !alive { return None; }
      ghost var visited: seq<nat>;
      alive, visited := Prune(id, start);
      answer := if alive then Some(final) else None;
    }

    /** The answer to a replay that found something. */
    method Replayed(id: RequestId, ghost start: State) returns (answer: Option<Revision>, found: bool)
      requires Tracked(start, id) && (requests[id].phase.Arrived? || requests[id].phase.Replaying?)
      modifies this
      ensures Tracked(start, id) && (kept ==> old(kept))
      ensures requests[id] == old(requests[id]).(phase := if found then Outcome(answer) else WhenNothing(old(requests[id])))
    {
      hide LeadsTo, Alone;
      var alive := Await(id, start);
      if !alive { return None, true; }
      var replay := ReplayOperation(id, start);
      match replay {
        case Nothing => answer, found := None, false;
        case Answer(result) => answer, found := Some(result), true;
        case Error => answer, found := None, true;
      }
    }

    method Arrives(id: RequestId, op: OperationId, kind: Kind, expected: Revision)
      requires LeadsTo(assumed, kept, origin, View()) && id !in requests
      modifies this
      ensures View() == Apply(old(View()), Arrive(id, op, kind, expected))
      ensures Tracked(View(), id) && (kept ==> old(kept))
      ensures kind.Restore? ==> (requests[id].phase.Rejected? <==> kind.sourceSequence !in old(db).rows)
      ensures old(revision) == expected && MayArrive(old(View()), kind) ==> View() == WithRequest(old(View()), id, op, kind)
    {
      LeadsNext(assumed, kept, origin, View(), Arrive(id, op, kind, expected));
      hide LeadsTo;
      kept := kept && HoldsAll(assumed, View(), Arrive(id, op, kind, expected));
      var phase := if kind.Restore? && kind.sourceSequence !in db.rows then Rejected else Arrived;
      requests := requests[id := Request(op, kind, expected, phase)];
      assert AdvancedTimes(View(), id, 0) == View();
    }

    /**
     A save. However others interleave, its execution is part of a run of the
     protocol machine and ends in the answer it gives; undisturbed, it is its own
     steps and no others.
     */
    method SaveFile(id: RequestId, op: OperationId, expected: Revision) returns (answer: Option<Revision>)
      requires LeadsTo(assumed, kept, origin, View()) && id !in requests
      modifies this
      ensures LeadsTo(assumed, kept, origin, View()) && (kept ==> old(kept))
      ensures Asks(id, op, Save, expected) && requests[id].phase == Outcome(answer)
      ensures calm ==> Alone(Apply(old(View()), Arrive(id, op, Save, expected)), View(), id)
      ensures calm && SafetyInv(old(View())) && IsFree(old(View()), op, Save, expected) ==>
        answer == Some(old(minted)) && Committed(WithRequest(old(View()), id, op, Save), View(), id)
    {
      Arrives(id, op, Save, expected);
      ghost var start := View();
      hide LeadsTo, Alone, Apply;
      var found: bool;
      answer, found := Replayed(id, start);
      if !found { answer := AdmitAndWrite(id, start); }
      if calm && SafetyInv(old(View())) && IsFree(old(View()), op, Save, expected) {
        FreeMutationAnswers(old(View()), View(), id, op, Save);
      }
    }

    /** The unresolved check and the revision check, then the write. */
    method AdmitAndWrite(id: RequestId, ghost start: State) returns (answer: Option<Revision>)
      requires Is(start, id, NotReplayed)
      modifies this
      ensures Tracked(start, id) && (kept ==> old(kept))
      ensures requests[id] == old(requests[id]).(phase := Outcome(answer))
    {
      hide LeadsTo, Alone;
      var alive := Await(id, start);
      if !alive { return None; }
      var ok := CheckUnresolved(id, start);
      if !ok { return None; }
      alive := Await(id, start);
      if !alive { return None; }
      ok := CheckRevision(id, start);
      if ok {
        if requests[id].kind.Save? {
          alive := Await(id, start);
          if !alive { return None; }
          var _ := Preserve(id, start);
        }
        answer := BeginAndWrite(id, start);
      } else if requests[id].kind.Save? {
        var found: bool;
        answer, found := Replayed(id, start);
        if !found { answer := None; }
      } else {
        answer := None;
      }
    }

    method BeginAndWrite(id: RequestId, ghost start: State) returns (answer: Option<Revision>)
      requires Tracked(start, id) && requests[id].phase.Ready?
      modifies this
      ensures Tracked(start, id) && (kept ==> old(kept))
      ensures requests[id] == old(requests[id]).(phase := Outcome(answer))
    {
      hide LeadsTo, Alone;
      var alive := Await(id, start);
      if !alive { return None; }
      var created := BeginOperation(id, start);
      if !created {
        var found: bool;
        answer, found := Replayed(id, start);
        // A restore goes on without a record of its own if its replay found nothing.
        if found || !requests[id].kind.Restore? { return if found then answer else None; }
      }
      answer := WriteAndRecord(id, start);
    }

    /** A restore of the row `sequence`, likewise. */
    method RestoreVersion(id: RequestId, op: OperationId, sequence: nat, expected: Revision)
      returns (answer: Option<Revision>)
      requires LeadsTo(assumed, kept, origin, View()) && id !in requests
      modifies this
      ensures LeadsTo(assumed, kept, origin, View()) && (kept ==> old(kept))
      ensures Asks(id, op, Restore(sequence), expected) && requests[id].phase == Outcome(answer)
      ensures calm ==> Alone(Apply(old(View()), Arrive(id, op, Restore(sequence), expected)), View(), id)
      ensures calm && SafetyInv(old(View())) && IsFree(old(View()), op, Restore(sequence), expected) ==>
        answer == Some(old(minted)) && Committed(WithRequest(old(View()), id, op, Restore(sequence)), View(), id)
    {
      Arrives(id, op, Restore(sequence), expected);
      ghost var start := View();
      if requests[id].phase.Rejected? { return None; }
      hide LeadsTo, Alone, Apply;
      var found: bool;
      answer, found := Replayed(id, start);
      if !found { answer := AdmitAndWrite(id, start); }
      if calm && SafetyInv(old(View())) && IsFree(old(View()), op, Restore(sequence), expected) {
        FreeMutationAnswers(old(View()), View(), id, op, Restore(sequence));
      }
    }
  }

  function Outcome(answer: Option<Revision>): Phase {
    if answer.Some? then Responded(answer.value) else Rejected
  }

  /** Written, and the finalizer takes it. */
  predicate Finishable(db: Database, op: OperationId) {
    op in db.operations && db.operations[op].status.ProviderWritten? && Refusal(db, op).None?
  }

  lemma FinalizedCompletes(db: Database, op: OperationId)
    requires Refusal(db, op).None?
    ensures Finalized(db, op).operations == db.operations[op := db.operations[op].(status := Completed)]
  {
  }

  predicate Matches(db: Database, q: Request) {
    && q.operation in db.operations
    && db.operations[q.operation].kind == q.kind && db.operations[q.operation].expected == q.expected
  }

  /** No mutation is open, and this one is new and names the current revision. */
  predicate IsFree(s: State, op: OperationId, kind: Kind, expected: Revision) {
    && op !in s.db.operations && s.revision == expected && MayArrive(s, kind)
    && forall other | other in s.db.operations ::
         s.db.operations[other].status.Completed? || s.db.operations[other].status.Failed?
  }

  lemma FreeMutationAnswers(s: State, t: State, id: RequestId, op: OperationId, kind: Kind)
    requires SafetyInv(s) && id !in s.requests && IsFree(s, op, kind, s.revision)
    requires Alone(WithRequest(s, id, op, kind), t, id) && Settles(t, id)
    ensures Committed(WithRequest(s, id, op, kind), t, id) && t.requests[id].phase == Responded(s.minted)
    ensures forall k | k in t.db.rows :: |t.db.created| < k + t.limit
  {
    ReachesStart(QUIET, s);
    NewRequest(s, s, id, op, kind);
    UndisturbedAnswers(s, WithRequest(s, id, op, kind), t, id);
  }

  datatype Replay = Nothing | Answer(result: Revision) | Error

  /** Which record gives which outcome; a written one is finished first, if nothing comes in between. */
  predicate Fits(found: Replay, q: Request, operation: Operation) {
    if operation.kind != q.kind || operation.expected != q.expected then found.Error?
    else
      match operation.status
      case Completed => if operation.result.Some? then found == Answer(operation.result.value) else found.Error?
      case ProviderWritten => !found.Nothing?
      case _ => found.Error?
  }

  /** Where a request goes on when its operation id is unknown. */
  function WhenNothing(q: Request): Phase {
    match q.phase
    case Replaying(AfterDuplicate) => if q.kind.Restore? then Registered else Rejected
    case Replaying(AfterMismatch) => Rejected
    case _ => NotReplayed
  }

  /** An answer any thread gives is durable: stored as the result of an operation written exactly once. */
  lemma AnswerIsDurable(assumed: set<Assumption>, kept: bool, limit: nat, initial: Revision, uploaded: bool,
                        s: State, id: RequestId)
    requires limit >= 1 && LeadsTo(assumed, kept, Start(limit, initial, uploaded), s)
    requires id in s.requests && s.requests[id].phase.Responded?
    ensures s.requests[id].operation in s.db.operations
    ensures s.db.operations[s.requests[id].operation].result == Some(s.requests[id].phase.revision)
    ensures WritesOf(s.writes, s.requests[id].operation) == 1
  {
    var from := Start(limit, initial, uploaded);
    var steps :| Run(from, steps) == s;
    StartInv(limit, initial, uploaded);
    RunKeepsInv(from, steps);
    assert RequestValid(s, s.requests[id]) && OperationValid(s, s.requests[id].operation);
    WrittenAtMostOnce(limit, initial, uploaded, steps, s.requests[id].operation);
  }

  /** Any mix of threads that kept the assumptions of safety has at most one open write. */
  lemma ThreadsHaveOneOpenWrite(limit: nat, initial: Revision, uploaded: bool, s: State, a: OperationId, b: OperationId)
    requires limit >= 1 && LeadsTo(ONE_WRITER, true, Start(limit, initial, uploaded), s)
    requires OpenWrite(s, a) && OpenWrite(s, b)
    ensures a == b
  {
    var steps :| Run(Start(limit, initial, uploaded), steps) == s
      && Always(ONE_WRITER, Start(limit, initial, uploaded), steps);
    AtMostOneOpenWrite(limit, initial, uploaded, steps, a, b);
  }

  /** And any quiet mix has its history in provider order. */
  lemma ThreadsKeepProviderOrder(limit: nat, initial: Revision, uploaded: bool, s: State)
    requires limit >= 1 && LeadsTo(QUIET, true, Start(limit, initial, uploaded), s)
    ensures RowsFollowWrites(s) && ChainedHistory(s.db, initial)
  {
    var steps :| Run(Start(limit, initial, uploaded), steps) == s
      && Always(QUIET, Start(limit, initial, uploaded), steps);
    HistoryIsProviderOrder(limit, initial, uploaded, steps);
  }
}
