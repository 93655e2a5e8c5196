/**
 `processFile` as a thread of remote calls and row updates, any of which may
 throw, with other requests moving at every await. It is proved to be a run of
 the upload machine, so what that machine keeps holds of any mix of threads;
 and an upload that nothing disturbs is proved to register its object.
 */
module UploadService {
  import opened Wrappers
  import opened UploadSaga

  predicate NotMine(steps: seq<Step>, id: RequestId) {
    forall i | 0 <= i < |steps| :: steps[i].id != id
  }

  lemma {:induction false} OthersRun(s: State, steps: seq<Step>, id: RequestId)
    requires id in s.requests && NotMine(steps, id) && Reaches(s)
    ensures SameRequest(s, Run(s, steps), id) && Reaches(Run(s, steps))
    decreases |steps|
  {
    if steps != [] {
      var init, last := steps[..|steps| - 1], steps[|steps| - 1];
      OthersRun(s, init, id);
      assert Run(s, steps) == Apply(Run(s, init), last);
      hide Run, Reaches;
      StepKeepsOthers(Run(s, init), last, id);
      ReachesNext(Run(s, init), last);
    }
  }

  /** What a request's answer says is what the tables hold. */
  ghost predicate AnswerHolds(s: State, id: RequestId)
    requires id in s.requests
  {
    var q := s.requests[id];
    q.phase.Answered? && q.phase.answer.Node? ==>
      && q.key in s.operations && s.operations[q.key].status.Succeeded?
      && s.operations[q.key].node == Some(q.phase.answer.node)
  }

  lemma ReachableAnswerHolds(s: State, id: RequestId)
    requires Reaches(s) && id in s.requests
    ensures AnswerHolds(s, id)
  {
    var steps :| Run(Start(), steps) == s;
    RunKeepsInv(steps);
    RequestsValid(s, id);
  }

  lemma RequestsValid(s: State, id: RequestId)
    requires Inv(s) && id in s.requests
    ensures RequestValid(s, id)
  {
  }

  /**
   How the catch block leaves an object: it and its key are cleaned up, or the
   key has failed and an audit row names the object, or a call that should have
   said so threw, or its registration had committed after all.
   */
  ghost predicate CatchEnds(s: State, x: ObjectId) {
    EndsDeleted(s, x) || EndsReported(s, x) || x in s.unmarked || x in s.unacknowledged
  }

  /** The step that ends the catch block. */
  lemma CatchEndsHere(s: State, t: State, id: RequestId, x: ObjectId)
    requires Reaches(s) && Reaches(t) && id in s.requests && id in t.requests
    requires var phase := s.requests[id].phase; phase == Removed(x) || phase == Stuck(x) || phase == Marked(x)
    requires t.requests[id].phase == Answered(Refusal)
    requires t.owner == s.owner && t.links == s.links && t.unacknowledged == s.unacknowledged
    ensures CatchEnds(t, x)
  {
    var before :| Run(Start(), before) == s;
    var after :| Run(Start(), after) == t;
    RunKeepsInv(before);
    RunKeepsInv(after);
    RequestsValid(s, id);
    assert ObjectValid(s, x) && ObjectValid(t, x);
  }

  /** What the catch block owes an object whose registration did not commit. */
  lemma DeletedHere(s: State, t: State, id: RequestId, x: ObjectId)
    requires Reaches(s) && Reaches(t) && id in s.requests && s.requests[id].phase == Removed(x)
    requires id in t.requests && t.requests[id] == s.requests[id].(phase := Answered(Refusal))
    requires t == UploadSaga.MarkFailed(s, s.requests[id].key, Some(x)).(requests := t.requests)
    ensures x !in t.live && (x !in t.unacknowledged ==> EndsDeleted(t, x))
  {
    var before :| Run(Start(), before) == s;
    var after :| Run(Start(), after) == t;
    RunKeepsInv(before);
    RunKeepsInv(after);
    RequestsValid(s, id);
    assert ObjectValid(s, x) && ObjectValid(t, x);
  }

  lemma ReportedHere(s: State, t: State, id: RequestId, x: ObjectId)
    requires Reaches(s) && id in s.requests && s.requests[id].phase == Marked(x)
    requires id in t.requests && t.requests[id] == s.requests[id].(phase := Answered(Refusal))
    requires t == s.(requests := s.requests[id := t.requests[id]], audits := s.audits + {x})
    ensures x in t.audits && (x !in t.unacknowledged ==> EndsReported(t, x))
  {
    var before :| Run(Start(), before) == s;
    RunKeepsInv(before);
    RequestsValid(s, id);
    assert ObjectValid(s, x);
  }

  /** A used key is answered with its node if and only if it has succeeded with one, and refused otherwise. */
  ghost predicate IsReplay(answer: Option<Answer>, operation: Operation) {
    && (answer == Some(Refusal) || exists node: NodeId :: answer == Some(Node(node)))
    && forall node: NodeId :: answer == Some(Node(node)) <==> operation.status.Succeeded? && operation.node == Some(node)
  }

  /** The tables and Drive are as they were. */
  predicate SameTables(s: State, t: State) {
    t == s.(requests := t.requests)
  }

  /** A fresh object under a fresh node, and the key that names both. */
  predicate Uploaded(s: State, t: State, key: Key) {
    && t.operations == s.operations[key := Operation(Succeeded, Some(s.minted), Some(s.nodes))]
    && t.links == s.links[s.minted := s.nodes] && t.live == s.live + {s.minted} && t.puts == s.puts + [key]
    && t.audits == s.audits
  }

  class DriveUploads {
    /** The tables, Drive, and how far every request is. */
    var state: State
    const calm: bool               // nothing happens at awaits, and no call throws

    ghost predicate At(id: RequestId, key: Key)
      reads this
    {
      Reaches(state) && id in state.requests && state.requests[id].key == key
    }

    function PhaseOf(id: RequestId): Phase
      requires id in state.requests
      reads this
    {
      state.requests[id].phase
    }

    constructor (calm: bool)
      ensures state == Start() && this.calm == calm && Reaches(state)
    {
      state, this.calm := Start(), calm;
      new;
      assert Run(Start(), []) == state;
    }

    method Go(id: RequestId, phase: Phase)
      requires id in state.requests
      modifies this
      ensures state == Move(old(state), id, phase)
    {
      state := state.(requests := state.requests[id := state.requests[id].(phase := phase)]);
    }

    /** An await: others move, and this thread may not come back. */
    method Await(id: RequestId, key: Key) returns (alive: bool)
      requires At(id, key) && !PhaseOf(id).Answered?
      modifies this
      ensures At(id, key) && PhaseOf(id) == if alive then old(PhaseOf(id)) else Crashed
      ensures calm ==> alive && state == old(state)
    {
      alive := true;
      if calm { return; }
      var steps: seq<Step> := *;
      if NotMine(steps, id) {
        OthersRun(state, steps, id);
        state := Run(state, steps);
      }
      alive := *;
      hide Run, Reaches;
      if !alive {
        ReachesNext(state, Crash(id));
        Go(id, Crashed);
      }
    }

    /** The first look at the key, before anything is claimed. */
    method FindExisting(id: RequestId, key: Key, sameRequest: bool) returns (answer: Option<Answer>)
      requires At(id, key) && PhaseOf(id).Arrived?
      modifies this
      ensures At(id, key) && PhaseOf(id) == if answer.Some? then Answered(answer.value) else Unseen
      ensures answer.None? <==> sameRequest && key !in old(state).operations
      ensures !sameRequest ==> answer == Some(Refusal)
      ensures sameRequest && key in old(state).operations ==> IsReplay(answer, old(state).operations[key])
      ensures SameTables(old(state), state)
    {
      hide Reaches;
      if !sameRequest {
        ReachesNext(state, Reject(id));
        Go(id, Answered(Refusal));
        return Some(Refusal);
      }
      ReachesNext(state, Advance(id));
      if key in state.operations {
        answer := Some(Replay(state.operations[key]));
        Go(id, Answered(answer.value));
      } else {
        answer := None;
        Go(id, Unseen);
      }
    }

    /** `beginOperation`: the key is created once; whoever comes later replays it. */
    method BeginOperation(id: RequestId, key: Key) returns (isNew: bool, answer: Answer)
      requires At(id, key) && PhaseOf(id).Unseen?
      modifies this
      ensures At(id, key) && PhaseOf(id) == if isNew then Claimed else Answered(answer)
      ensures isNew <==> key !in old(state).operations
      ensures isNew ==>
        SameTables(old(state).(operations := old(state).operations[key := Operation(InProgress, None, None)],
                               claimant := old(state).claimant[key := id]), state)
      ensures !isNew ==> IsReplay(Some(answer), old(state).operations[key]) && SameTables(old(state), state)
    {
      hide Reaches;
      ReachesNext(state, Advance(id));
      isNew, answer := key !in state.operations, Refusal;
      if isNew {
        state := state.(operations := state.operations[key := Operation(InProgress, None, None)],
                        claimant := state.claimant[key := id]);
        Go(id, Claimed);
      } else {
        answer := Replay(state.operations[key]);
        Go(id, Answered(answer));
      }
    }

    /** `put`: an object, or an exception that marks the operation failed. */
    method Put(id: RequestId, key: Key) returns (stored: Option<ObjectId>)
      requires At(id, key) && PhaseOf(id).Claimed?
      modifies this
      ensures At(id, key) && PhaseOf(id) == if stored.Some? then Stored(stored.value) else Answered(Refusal)
      ensures state.puts == old(state).puts + [key] && (calm ==> stored.Some?)
      ensures stored.Some? ==>
        && stored.value == old(state).minted
        && SameTables(old(state).(puts := state.puts, minted := stored.value + 1, live := old(state).live + {stored.value},
                                  owner := state.owner), state)
      ensures stored.None? && key in state.operations ==> !state.operations[key].status.InProgress?
    {
      hide Reaches;
      var throws, created: bool := *, *;
      throws := throws && !calm;
      if throws {
        ReachesNext(state, PutFails(id, created));
        if created { state := state.(minted := state.minted + 1, live := state.live + {state.minted}); }
        state := state.(puts := state.puts + [key]);
        MarkFailed(key, None);
        Go(id, Answered(Refusal));
        return None;
      }
      ReachesNext(state, Advance(id));
      var x := state.minted;
      state := state.(puts := state.puts + [key], minted := x + 1, live := state.live + {x}, owner := state.owner[x := id]);
      Go(id, Stored(x));
      stored := Some(x);
    }

    /** `markFailed`: only an operation still in progress is touched. */
    method MarkFailed(key: Key, x: Option<ObjectId>)
      modifies this
      ensures state == UploadSaga.MarkFailed(old(state), key, x)
      ensures key in old(state).operations && old(state).operations[key].status.InProgress? ==>
        var before := old(state).operations[key];
        && key in state.operations
        && state.operations[key] == before.(status := Failed, record := if x.Some? then x else before.record)
      ensures !(key in old(state).operations && old(state).operations[key].status.InProgress?) ==> state == old(state)
    {
      if key in state.operations && state.operations[key].status.InProgress? {
        var record := if x.Some? then x else state.operations[key].record;
        state := state.(operations := state.operations[key := state.operations[key].(status := Failed, record := record)]);
      }
    }

    /** The operation names its object; the update may throw. */
    method RecordObject(id: RequestId, key: Key, x: ObjectId) returns (ok: bool)
      requires At(id, key) && PhaseOf(id) == Stored(x)
      modifies this
      ensures At(id, key) && PhaseOf(id) == if ok then Recorded(x) else Compensating(x)
      ensures if ok
              then key in old(state).operations && SameTables(old(state).(operations := old(state).operations[
                     key := old(state).operations[key].(record := Some(x))]), state)
              else SameTables(old(state), state)
      ensures calm && key in old(state).operations ==> ok
    {
      hide Reaches;
      ok := *;
      ok := (ok || calm) && key in state.operations;
      if !ok {
        ReachesNext(state, RecordFails(id));
        Go(id, Compensating(x));
        return;
      }
      ReachesNext(state, Advance(id));
      state := state.(operations := state.operations[key := state.operations[key].(record := Some(x))]);
      Go(id, Recorded(x));
    }

    /** The registration transaction: committed, refused, or committed without the answer getting through. */
    method RegisterUpload(id: RequestId, key: Key, x: ObjectId) returns (node: Option<NodeId>)
      requires At(id, key) && PhaseOf(id) == Recorded(x)
      modifies this
      ensures At(id, key) && PhaseOf(id) == if node.Some? then Answered(Node(node.value)) else Compensating(x)
      ensures node.Some? ==>
        key in old(state).operations && node.value == old(state).nodes && SameTables(Register(old(state), key, x), state)
      ensures node.Some? ==>
        && state.links == old(state).links[x := node.value]
        && state.operations == old(state).operations[key := Operation(Succeeded, Some(x), node)]
      ensures node.None? ==>
        || SameTables(old(state), state)
        || (key in old(state).operations
            && SameTables(Register(old(state), key, x).(unacknowledged := old(state).unacknowledged + {x}), state))
      ensures calm && key in old(state).operations ==> node.Some?
    {
      hide Reaches;
      var commits, answered: bool := *, *;
      commits, answered := (commits || calm) && key in state.operations, answered || calm;
      if commits && answered {
        ReachesNext(state, Advance(id));
        node := Some(state.nodes);
        state := state.(links := state.links[x := state.nodes], nodes := state.nodes + 1,
                        operations := state.operations[key := Operation(Succeeded, Some(x), node)]);
        Go(id, Answered(Node(node.value)));
      } else {
        ReachesNext(state, RegisterFails(id, commits));
        node := None;
        if commits {
          state := state.(links := state.links[x := state.nodes], nodes := state.nodes + 1,
                          operations := state.operations[key := Operation(Succeeded, Some(x), Some(state.nodes))],
                          unacknowledged := state.unacknowledged + {x});
        }
        Go(id, Compensating(x));
      }
    }

    /** The storage delete of the catch block; `ok` says that it does not throw. */
    method DeleteObject(id: RequestId, key: Key, x: ObjectId, ok: bool)
      requires At(id, key) && PhaseOf(id) == Compensating(x)
      modifies this
      ensures At(id, key) && PhaseOf(id) == if ok then Removed(x) else Stuck(x)
      ensures ok ==> SameTables(old(state).(live := old(state).live - {x}), state)
      ensures !ok ==> SameTables(old(state).(live := state.live), state)
    {
      hide Reaches;
      var gone: bool := *;
      ReachesNext(state, if ok then Advance(id) else DeleteFails(id, gone));
      if ok || gone { state := state.(live := state.live - {x}); }
      Go(id, if ok then Removed(x) else Stuck(x));
    }

    /** One database call of the catch block, which may throw too. */
    method MarkInCatch(id: RequestId, key: Key, x: ObjectId, ok: bool)
      requires At(id, key) && (PhaseOf(id) == Removed(x) || PhaseOf(id) == Stuck(x))
      modifies this
      ensures At(id, key)
      ensures PhaseOf(id) ==
        if old(PhaseOf(id)).Removed? then (if ok then Answered(Refusal) else Stuck(x))
        else if ok then Marked(x) else Answered(Refusal)
      ensures PhaseOf(id).Answered? ==> CatchEnds(state, x)
      ensures ok && old(PhaseOf(id)).Removed? ==> x !in state.live && (x !in state.unacknowledged ==> EndsDeleted(state, x))
      ensures ok && key in old(state).operations ==>
        && key in state.operations && !state.operations[key].status.InProgress?
        && (old(state).operations[key].status.InProgress? ==>
              state.operations[key] == old(state).operations[key].(status := Failed, record := Some(x)))
    {
      hide Reaches, CatchEnds, EndsDeleted;
      if ok {
        MarkNow(id, key, x);
        return;
      }
      var removed := state.requests[id].phase.Removed?;
      ReachesNext(state, DatabaseFails(id));
      state := state.(unmarked := state.unmarked + {x});
      Go(id, if removed then Stuck(x) else Answered(Refusal));
      if !removed { CatchEndsHere(old(state), state, id, x); }
    }

    method MarkNow(id: RequestId, key: Key, x: ObjectId)
      requires At(id, key) && (PhaseOf(id) == Removed(x) || PhaseOf(id) == Stuck(x))
      modifies this
      ensures At(id, key) && PhaseOf(id) == if old(PhaseOf(id)).Removed? then Answered(Refusal) else Marked(x)
      ensures old(PhaseOf(id)).Removed? ==>
        CatchEnds(state, x) && x !in state.live && (x !in state.unacknowledged ==> EndsDeleted(state, x))
      ensures key in old(state).operations ==>
        && key in state.operations && !state.operations[key].status.InProgress?
        && (old(state).operations[key].status.InProgress? ==>
              state.operations[key] == old(state).operations[key].(status := Failed, record := Some(x)))
    {
      hide Reaches, UploadSaga.MarkFailed, CatchEnds, EndsDeleted;
      var removed := state.requests[id].phase.Removed?;
      ReachesNext(state, Advance(id));
      MarkFailed(key, Some(x));
      OnlyKeyChanges(old(state), key, Some(x));
      Go(id, if removed then Answered(Refusal) else Marked(x));
      if removed {
        DeletedHere(old(state), state, id, x);
        CatchEndsHere(old(state), state, id, x);
      }
    }

    method AuditOrphan(id: RequestId, key: Key, x: ObjectId, ok: bool)
      requires At(id, key) && PhaseOf(id) == Marked(x)
      modifies this
      ensures At(id, key) && PhaseOf(id) == Answered(Refusal) && CatchEnds(state, x)
      ensures ok ==> x in state.audits && (x !in state.unacknowledged ==> EndsReported(state, x))
    {
      hide Reaches, CatchEnds, EndsReported;
      ReachesNext(state, if ok then Advance(id) else DatabaseFails(id));
      if ok { state := state.(audits := state.audits + {x}); } else { state := state.(unmarked := state.unmarked + {x}); }
      Go(id, Answered(Refusal));
      if ok { ReportedHere(old(state), state, id, x); }
      CatchEndsHere(old(state), state, id, x);
    }

    /**
     `compensate`: delete and mark, or mark and leave an audit row; the flags say
     which of its calls go through, `again` for the second try to mark the key.
     It comes to its end unless the thread dies.
     An object whose registration did not commit is then gone with its key
     FAILED, or, if one of the two threw, named by an audit row with its key FAILED.
     */
    method Compensate(id: RequestId, key: Key, x: ObjectId, deletes: bool, marks: bool, again: bool, audits: bool)
      requires At(id, key) && PhaseOf(id) == Compensating(x)
      modifies this
      ensures At(id, key) && (PhaseOf(id) == Answered(Refusal) || PhaseOf(id).Crashed?)
      ensures calm ==> PhaseOf(id).Answered?
      ensures PhaseOf(id).Answered? ==> CatchEnds(state, x)
      ensures PhaseOf(id).Answered? && deletes && marks ==>
        x !in state.live && (x !in state.unacknowledged ==> EndsDeleted(state, x))
      ensures PhaseOf(id).Answered? && !(deletes && marks) && again && audits ==>
        x in state.audits && (x !in state.unacknowledged ==> EndsReported(state, x))
    {
      hide Reaches, CatchEnds, EndsDeleted, EndsReported;
      DeleteObject(id, key, x, deletes);
      var alive := Await(id, key);
      if !alive { return; }
      if deletes {
        MarkInCatch(id, key, x, marks);
        if marks { return; }
        alive := Await(id, key);
        if !alive { return; }
      }
      MarkInCatch(id, key, x, again);
      if !again { return; }
      alive := Await(id, key);
      if !alive { return; }
      AuditOrphan(id, key, x, audits);
    }

    /**
     One upload request, from the first look at its key to its answer. A node is
     only answered if the key has succeeded with it. Undisturbed, a fresh key
     gets one new object under one new node, and a used one its replay.
     */
    method ProcessFile(id: RequestId, key: Key, sameRequest: bool) returns (answer: Option<Answer>)
      requires Reaches(state) && id !in state.requests
      modifies this
      ensures At(id, key) && PhaseOf(id) == if answer.Some? then Answered(answer.value) else Crashed
      ensures answer.Some? ==> AnswerHolds(state, id)
      ensures calm ==>
        if sameRequest && key !in old(state).operations
        then answer == Some(Node(old(state).nodes)) && Uploaded(old(state), state, key)
        else SameTables(old(state), state)
             && if sameRequest then IsReplay(answer, old(state).operations[key]) else answer == Some(Refusal)
    {
      answer := Process(id, key, sameRequest);
      if answer.Some? { ReachableAnswerHolds(state, id); }
    }

    method Process(id: RequestId, key: Key, sameRequest: bool) returns (answer: Option<Answer>)
      requires Reaches(state) && id !in state.requests
      modifies this
      ensures At(id, key) && PhaseOf(id) == if answer.Some? then Answered(answer.value) else Crashed
      ensures calm ==>
        if sameRequest && key !in old(state).operations
        then answer == Some(Node(old(state).nodes)) && Uploaded(old(state), state, key)
        else SameTables(old(state), state)
             && if sameRequest then IsReplay(answer, old(state).operations[key]) else answer == Some(Refusal)
    {
      hide Reaches;
      ReachesNext(state, Arrive(id, key));
      state := state.(requests := state.requests[id := Request(key, Arrived)]);
      answer := FindExisting(id, key, sameRequest);
      if answer.Some? { return; }
      var alive := Await(id, key);
      if !alive { return None; }
      var isNew, replayed := BeginOperation(id, key);
      if !isNew { return Some(replayed); }
      alive := Await(id, key);
      if !alive { return None; }
      var stored := Put(id, key);
      if stored.None? { return Some(Refusal); }
      answer := Finish(id, key, stored.value);
    }

    method Finish(id: RequestId, key: Key, x: ObjectId) returns (answer: Option<Answer>)
      requires At(id, key) && PhaseOf(id) == Stored(x)
      modifies this
      ensures At(id, key) && PhaseOf(id) == if answer.Some? then Answered(answer.value) else Crashed
      ensures calm && key in old(state).operations ==>
        && answer == Some(Node(old(state).nodes))
        && state.operations == old(state).operations[key := Operation(Succeeded, Some(x), Some(old(state).nodes))]
        && state.links == old(state).links[x := old(state).nodes]
        && state.live == old(state).live && state.puts == old(state).puts && state.audits == old(state).audits
    {
      hide Reaches, CatchEnds;
      var alive := Await(id, key);
      if !alive { return None; }
      var ok := RecordObject(id, key, x);
      alive := Await(id, key);
      if !alive { return None; }
      if ok {
        var node := RegisterUpload(id, key, x);
        if node.Some? { return Some(Node(node.value)); }
        alive := Await(id, key);
        if !alive { return None; }
      }
      var deletes, marks, again, audits: bool := *, *, *, *;
      Compensate(id, key, x, deletes, marks, again, audits);
      answer := if state.requests[id].phase.Crashed? then None else Some(Refusal);
    }
  }

  lemma OnlyKeyChanges(s: State, key: Key, x: Option<ObjectId>)
    ensures UploadSaga.MarkFailed(s, key, x) == s.(operations := UploadSaga.MarkFailed(s, key, x).operations)
  {
  }
}
