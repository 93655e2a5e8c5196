/**
 Over whole runs: two mutations are never both past their provider write and
 still open, and no marked operation is refused by the database; and runs that
 show what the assumptions on requests and writes are needed for.
 */
module MutationSafety {
  import opened Wrappers
  import opened FileHistory
  import opened FileMutation
  import opened MutationInvariant
  import opened MutationAdmission
  import opened MutationOrder

  lemma {:induction false} RunKeepsSafe(s: State, steps: seq<Step>)
    requires SafetyInv(s)
    requires Always(ONE_WRITER, s, steps)
    ensures SafetyInv(Run(s, steps))
    decreases |steps|
  {
    if steps != [] {
      AlwaysPrefix(ONE_WRITER, s, steps);
      RunKeepsSafe(s, steps[..|steps| - 1]);
      StepKeepsOrder(Run(s, steps[..|steps| - 1]), steps[|steps| - 1]);
    }
  }

  lemma StartSafe(limit: nat, initial: Revision, uploaded: bool)
    requires limit >= 1
    ensures SafetyInv(Start(limit, initial, uploaded))
  {
    StartInv(limit, initial, uploaded);
  }

  /**
   Over every interleaving of any number of saves and restores, crashes,
   reconciliation and outside writers included, at most one mutation is past
   its provider write and not COMPLETED, as long as writes are atomic and
   requests name known revisions.
   */
  lemma AtMostOneOpenWrite(limit: nat, initial: Revision, uploaded: bool, steps: seq<Step>,
                           a: OperationId, b: OperationId)
    requires limit >= 1
    requires Always(ONE_WRITER, Start(limit, initial, uploaded), steps)
    requires OpenWrite(Run(Start(limit, initial, uploaded), steps), a)
    requires OpenWrite(Run(Start(limit, initial, uploaded), steps), b)
    ensures a == b
  {
    StartSafe(limit, initial, uploaded);
    RunKeepsSafe(Start(limit, initial, uploaded), steps);
  }

  /**
   In the same runs the finalizer never refuses an operation that has a result,
   however late it is called, and the worker never stores FAILED over a result.
   */
  lemma MarkedIsNeverRefused(limit: nat, initial: Revision, uploaded: bool, steps: seq<Step>, op: OperationId)
    requires limit >= 1 && Always(ONE_WRITER, Start(limit, initial, uploaded), steps)
    requires var s := Run(Start(limit, initial, uploaded), steps);
      op in s.db.operations && s.db.operations[op].result.Some?
    ensures var s := Run(Start(limit, initial, uploaded), steps);
      Refusal(s.db, op).None? && Settled(s.db.operations[op].status) && s.unrecoverable == {}
  {
    StartSafe(limit, initial, uploaded);
    RunKeepsSafe(Start(limit, initial, uploaded), steps);
    var s := Run(Start(limit, initial, uploaded), steps);
    SafeIsNeverRefused(s);
    RefusedIffTaken(s, op);
  }

  /**
   Whatever the run before: from a state with at most one open write, a provider
   write leaves two of them exactly when another written mutation is not yet
   COMPLETED. What the adapter read matters only through that.
   */
  lemma WriteOpensTwoIff(s: State, id: RequestId)
    requires Inv(s) && Safe(s) && id in s.requests && s.requests[id].phase.Checked?
    ensures Safe(Replace(s, id)) <==> forall op :: !OpenWrite(s, op)
  {
    var q := s.requests[id];
    var t := Replace(s, id);
    ReplaceKeepsInv(s, id);
    assert RequestValid(s, q);
    assert t.writes[|s.writes|].operation == q.operation;
    assert OpenWrite(t, q.operation);
    forall op ensures OpenWrite(t, op) <==> OpenWrite(s, op) || op == q.operation {
      if OpenWrite(s, op) {
        var i :| 0 <= i < |s.writes| && s.writes[i].operation == op;
        assert t.writes[i].operation == op;
      }
      if OpenWrite(t, op) && op != q.operation {
        var i :| 0 <= i < |t.writes| && t.writes[i].operation == op;
        assert s.writes[i].operation == op;
      }
    }
  }

  // ------------------------------------------- both assumptions are needed

  lemma ReachesAdvanced(a: Assumption, from: State, s: State, id: RequestId)
    requires a in ONE_WRITER && Reaches({a}, from, s) && id in s.requests
    requires s.requests[id].phase.Checked? && a == AtomicReplaces ==> s.revision == s.requests[id].expected
    ensures Reaches({a}, from, Advanced(s, id))
  {
    ReachesNext({a}, from, s, Advance(id));
  }

  /** A fresh request that nothing blocks walks to its unresolved check. */
  lemma ReachesUnblocked(a: Assumption, from: State, s: State, id: RequestId)
    requires a in ONE_WRITER && Reaches({a}, from, s)
    requires id in s.requests && s.requests[id].phase.Arrived?
    requires s.requests[id].operation !in s.db.operations && !Blocked(s.db, s.requests[id].operation)
    ensures Reaches({a}, from, At(s, id, Unblocked))
  {
    ReachesAdvanced(a, from, s, id);
    ReachesAdvanced(a, from, At(s, id, NotReplayed), id);
  }

  function Opened(s: State, id: RequestId): State
    requires id in s.requests
  {
    At(SetOperation(s, s.requests[id].operation,
                    Operation(Save, s.revision, Some(s.revision), Pending, None)), id, Checked)
  }

  lemma WalkToReady(s: State, id: RequestId)
    requires id in s.requests && s.requests[id].phase.Unblocked? && s.requests[id].kind.Save?
    requires s.revision == s.requests[id].expected
    ensures Advanced(s, id) == At(s, id, Current)
    ensures Advanced(At(s, id, Current), id) == At(s, id, Ready(s.revision))
  {
  }

  lemma WalkToChecked(s: State, id: RequestId)
    requires id in s.requests && s.requests[id].kind.Save? && s.revision == s.requests[id].expected
    requires s.requests[id].operation !in s.db.operations
    ensures Advanced(At(s, id, Ready(s.revision)), id) == At(Opened(s, id), id, Registered)
    ensures Advanced(At(Opened(s, id), id, Registered), id) == Opened(s, id)
  {
  }

  /** And a save from there to the adapter's check, creating its record. */
  lemma ReachesChecked(a: Assumption, from: State, s: State, id: RequestId) returns (t: State)
    requires a in ONE_WRITER && Reaches({a}, from, s)
    requires id in s.requests && s.requests[id].phase.Unblocked? && s.requests[id].kind.Save?
    requires s.requests[id].operation !in s.db.operations && s.revision == s.requests[id].expected
    ensures Reaches({a}, from, t)
    ensures t.revision == s.revision && t.minted == s.minted && t.writes == s.writes
    ensures t.requests == s.requests[id := s.requests[id].(phase := Checked)]
    ensures t.db == s.db.(operations :=
      s.db.operations[s.requests[id].operation := Operation(Save, s.revision, Some(s.revision), Pending, None)])
    ensures t.unrecoverable == s.unrecoverable
  {
    t := Opened(s, id);
    WalkToReady(s, id);
    WalkToChecked(s, id);
    ReachesAdvanced(a, from, s, id);
    ReachesAdvanced(a, from, At(s, id, Current), id);
    ReachesAdvanced(a, from, At(s, id, Ready(s.revision)), id);
    ReachesAdvanced(a, from, At(Opened(s, id), id, Registered), id);
  }

  lemma ReachesArrived(a: Assumption, from: State, s: State, id: RequestId, op: OperationId, expected: Revision)
    returns (t: State)
    requires a in ONE_WRITER && Reaches({a}, from, s) && id !in s.requests
    requires a == KnownRevisions ==> expected < s.minted
    ensures Reaches({a}, from, t)
    ensures t == s.(requests := s.requests[id := Request(op, Save, expected, Arrived)])
  {
    ReachesNext({a}, from, s, Arrive(id, op, Save, expected));
    t := Apply(s, Arrive(id, op, Save, expected));
  }

  /** Two saves that have passed the unresolved check and created nothing. */
  lemma BothUnblocked(a: Assumption, expected: Revision) returns (s: State)
    requires a in ONE_WRITER && (expected == 0 || a == AtomicReplaces)
    ensures Reaches({a}, Start(1, 0, true), s)
    ensures s == Start(1, 0, true).(requests :=
      map[0 := Request(10, Save, 0, Unblocked), 1 := Request(11, Save, expected, Unblocked)])
  {
    var from := Start(1, 0, true);
    ReachesStart({a}, from);
    s := ReachesArrived(a, from, from, 0, 10, 0);
    s := ReachesArrived(a, from, s, 1, 11, expected);
    ReachesUnblocked(a, from, s, 0);
    s := At(s, 0, Unblocked);
    ReachesUnblocked(a, from, s, 1);
    s := At(s, 1, Unblocked);
  }

  lemma WalkToReplaced(s: State, id: RequestId)
    requires id in s.requests && s.requests[id].phase.Checked?
    ensures Advanced(s, id) == Replace(s, id)
  {
  }

  lemma ReachesReplaced(a: Assumption, from: State, s: State, id: RequestId) returns (t: State)
    requires a in ONE_WRITER && Reaches({a}, from, s)
    requires id in s.requests && s.requests[id].phase.Checked?
    requires a == AtomicReplaces ==> s.revision == s.requests[id].expected
    ensures Reaches({a}, from, t)
    ensures t.revision == s.minted && t.minted == s.minted + 1 && t.db == s.db && t.unrecoverable == s.unrecoverable
    ensures t.writes == s.writes + [Write(s.requests[id].operation, s.minted)]
    ensures t.requests == s.requests[id := s.requests[id].(phase := Replaced)]
  {
    WalkToReplaced(s, id);
    ReachesAdvanced(a, from, s, id);
    t := Advanced(s, id);
  }

  lemma BothChecked() returns (s: State)
    ensures Reaches({KnownRevisions}, Start(1, 0, true), s)
    ensures s.revision == 0 && s.minted == 1 && s.writes == [] && s.unrecoverable == {}
    ensures s.requests == map[0 := Request(10, Save, 0, Checked), 1 := Request(11, Save, 0, Checked)]
    ensures s.db.operations ==
      map[10 := Operation(Save, 0, Some(0), Pending, None), 11 := Operation(Save, 0, Some(0), Pending, None)]
    ensures s.db.rows == map[1 := Row(0, Initial, None)]
  {
    s := BothUnblocked(KnownRevisions, 0);
    hide Reaches;
    s := ReachesChecked(KnownRevisions, Start(1, 0, true), s, 0);
    s := ReachesChecked(KnownRevisions, Start(1, 0, true), s, 1);
  }

  /** Two saves whose adapters both read the revision before either wrote. */
  lemma BothReplaced() returns (s: State)
    ensures Reaches({KnownRevisions}, Start(1, 0, true), s)
    ensures s.revision == 2 && s.writes == [Write(10, 1), Write(11, 2)] && s.unrecoverable == {}
    ensures s.requests == map[0 := Request(10, Save, 0, Replaced), 1 := Request(11, Save, 0, Replaced)]
    ensures s.db.operations ==
      map[10 := Operation(Save, 0, Some(0), Pending, None), 11 := Operation(Save, 0, Some(0), Pending, None)]
    ensures s.db.rows == map[1 := Row(0, Initial, None)]
  {
    s := BothChecked();
    hide Reaches;
    s := ReachesReplaced(KnownRevisions, Start(1, 0, true), s, 0);
    s := ReachesReplaced(KnownRevisions, Start(1, 0, true), s, 1);
  }

  /**
   The provider adapter reads the revision and then writes. When two requests
   have both read before either writes, both writes go through and both
   operations are open at once: knowing only real revisions is not enough.
   */
  lemma StaleWriteBreaksSafety()
    ensures exists s :: Reaches({KnownRevisions}, Start(1, 0, true), s) && OpenWrite(s, 10) && OpenWrite(s, 11)
  {
    var s := BothReplaced();
    assert s.writes[0].operation == 10 && s.writes[1].operation == 11;
    assert OpenWrite(s, 10) && OpenWrite(s, 11);
  }

  lemma ReachesObserved(from: State, s: State, id: RequestId) returns (t: State)
    requires Reaches({KnownRevisions}, from, s) && id in s.requests && s.requests[id].phase.Replaced?
    ensures Reaches({KnownRevisions}, from, t)
    ensures t == s.(requests := s.requests[id := s.requests[id].(phase := Observed(s.revision))])
  {
    hide Reaches;
    ReachesAdvanced(KnownRevisions, from, s, id);
    t := Advanced(s, id);
  }

  lemma ReachesMarked(from: State, s: State, id: RequestId) returns (t: State)
    requires Reaches({KnownRevisions}, from, s) && id in s.requests && s.requests[id].phase.Observed?
    requires s.requests[id].operation in s.db.operations
    ensures Reaches({KnownRevisions}, from, t)
    ensures var q := s.requests[id];
      t == s.(requests := s.requests[id := q.(phase := Marked(q.phase.final))],
              db := s.db.(operations := s.db.operations[q.operation :=
                s.db.operations[q.operation].(status := ProviderWritten, result := Some(q.phase.final))]))
  {
    hide Reaches;
    ReachesAdvanced(KnownRevisions, from, s, id);
    t := Advanced(s, id);
  }

  /** Both find the revision of the later write, and both mark it as their result. */
  lemma BothMarked() returns (s: State)
    ensures Reaches({KnownRevisions}, Start(1, 0, true), s)
    ensures s.requests == map[0 := Request(10, Save, 0, Marked(2)), 1 := Request(11, Save, 0, Marked(2))]
    ensures s.writes == [Write(10, 1), Write(11, 2)] && s.unrecoverable == {}
    ensures s.db.operations == map[10 := Operation(Save, 0, Some(0), ProviderWritten, Some(2)),
                                   11 := Operation(Save, 0, Some(0), ProviderWritten, Some(2))]
    ensures s.db.rows == map[1 := Row(0, Initial, None)]
  {
    hide Reaches;
    s := BothReplaced();
    s := ReachesObserved(Start(1, 0, true), s, 0);
    s := ReachesObserved(Start(1, 0, true), s, 1);
    s := ReachesMarked(Start(1, 0, true), s, 0);
    s := ReachesMarked(Start(1, 0, true), s, 1);
  }

  /** The first is recorded; the second wants a row of the same revision. */
  lemma SecondIsTaken() returns (s: State)
    ensures Reaches({KnownRevisions}, Start(1, 0, true), s)
    ensures 11 in s.db.operations && s.db.operations[11] == Operation(Save, 0, Some(0), ProviderWritten, Some(2))
    ensures Refusal(s.db, 11) == Some(DuplicateRevision)
    ensures s.writes == [Write(10, 1), Write(11, 2)] && s.unrecoverable == {}
  {
    var from := Start(1, 0, true);
    var marked := BothMarked();
    hide Reaches;
    ReachesAdvanced(KnownRevisions, from, marked, 0);
    s := Advanced(marked, 0);
    forall k | k in marked.db.rows ensures !IsRowOf(marked.db.rows, k, 10) {}
    FirstIsRecorded(marked, s);
  }

  lemma FirstIsRecorded(marked: State, s: State)
    requires 0 in marked.requests && marked.requests[0] == Request(10, Save, 0, Marked(2)) && s == Advanced(marked, 0)
    requires marked.db.operations == map[10 := Operation(Save, 0, Some(0), ProviderWritten, Some(2)),
                                         11 := Operation(Save, 0, Some(0), ProviderWritten, Some(2))]
    requires marked.db.rows == map[1 := Row(0, Initial, None)] && marked.unrecoverable == {}
    ensures s.db.operations.Keys == {10, 11} && s.db.operations[11] == marked.db.operations[11]
    ensures Refusal(s.db, 11) == Some(DuplicateRevision) && s.writes == marked.writes && s.unrecoverable == {}
  {
    var n := marked.db.revisionSequence + 1;
    assert 1 in marked.db.rows && !HasRow(marked.db.rows, 10);
    assert !RevisionTaken(marked.db, 10);
    assert Refusal(marked.db, 10).None?;
    assert s.db.rows == marked.db.rows[n := Row(2, ManualSave, Some(10))];
    assert !HasRow(s.db.rows, 11);
    assert n in s.db.rows && s.db.rows[n].revision == 2;
  }

  /**
   A stale write does lead to a marked operation that the database refuses, and
   the worker then stores FAILED for a mutation whose bytes were written.
   */
  lemma StaleWriteIsRefused()
    ensures exists s :: (
      && Reaches({KnownRevisions}, Start(1, 0, true), s) && 11 in s.db.operations
      && s.db.operations[11].status.Failed? && s.db.operations[11].result == Some(2) && Wrote(s.writes, 11))
  {
    var from := Start(1, 0, true);
    var s := SecondIsTaken();
    hide Reaches;
    ReachesNext({KnownRevisions}, from, s, Reconcile(11));
    ReachesNext({KnownRevisions}, from, Apply(s, Reconcile(11)), GiveUp(11));
    WorkerGivesUp(s, 11);
    s := Apply(Apply(s, Reconcile(11)), GiveUp(11));
    assert s.writes[1].operation == 11;
  }

  lemma WorkerGivesUp(s: State, op: OperationId)
    requires op in s.db.operations && s.db.operations[op].result.Some? && Refusal(s.db, op) == Some(DuplicateRevision)
    ensures var t := Apply(Apply(s, Reconcile(op)), GiveUp(op));
      && t.writes == s.writes && op in t.db.operations
      && t.db.operations[op] == s.db.operations[op].(status := Failed)
  {
    hide Refusal;
  }

  /**
   A request that names the revision another save is about to mint passes the
   unresolved check early and the revision check late: an atomic provider
   write alone is not enough either.
   */
  lemma GuessedRevisionBreaksSafety()
    ensures exists s :: Reaches({AtomicReplaces}, Start(1, 0, true), s) && OpenWrite(s, 10) && OpenWrite(s, 11)
  {
    var a, from := AtomicReplaces, Start(1, 0, true);
    var s := BothUnblocked(a, 1);
    s := ReachesChecked(a, from, s, 0);
    s := ReachesReplaced(a, from, s, 0);
    s := ReachesChecked(a, from, s, 1);
    s := ReachesReplaced(a, from, s, 1);
    assert s.writes[0].operation == 10 && s.writes[1].operation == 11;
    assert OpenWrite(s, 10) && OpenWrite(s, 11);
  }
}
