/**
 The finalizer and the retention prune as updates of the tables of one file,
 one after the other. Each is proved equal to the atomic function that the
 protocol machine uses for it.
 */
module MutationTables {
  import opened Wrappers
  import opened FileHistory

  class Tables {
    var operations: map<OperationId, Operation>
    var revisionSequence: nat
    var rows: map<nat, Row>
    var audits: seq<OperationId>
    var events: seq<OperationId>
    ghost var created: seq<Row>

    ghost function Contents(): Database
      reads this
    {
      Database(operations, revisionSequence, rows, created, audits, events)
    }

    constructor ()
      ensures Contents() == Database(map[], 0, map[], [], [], [])
    {
      operations, revisionSequence, rows := map[], 0, map[];
      audits, events, created := [], [], [];
    }

    /** Increment `revisionSequence` and insert under the new number; the unique index may refuse the row. */
    method Insert(row: Row) returns (ok: bool, sequence: nat)
      modifies this
      ensures ok <==> forall k | k in old(rows) :: old(rows)[k].revision != row.revision
      ensures ok ==> Contents() == InsertRow(old(Contents()), row)
      ensures ok ==> sequence == revisionSequence && sequence in rows && rows[sequence] == row
      ensures !ok ==> Contents() == old(Contents())
    {
      ok, sequence := forall k | k in rows :: rows[k].revision != row.revision, 0;
      if !ok { return; }
      revisionSequence := revisionSequence + 1;
      sequence := revisionSequence;
      rows := rows[sequence := row];
      created := created + [row];
    }

    /**
     `finalizeFileMutationOperation`: all of it, or nothing when it throws, and
     the sequence it returns is the one of the operation's own row. A row the
     unique index refuses rolls the INITIAL row back too.
     */
    method Finalize(op: OperationId) returns (outcome: Result<nat, FinalizeError>)
      modifies this
      ensures Contents() == Finalized(old(Contents()), op)
      ensures match Refusal(old(Contents()), op)
              case Some(error) => outcome == Err(error)
              case None => outcome.Ok? && IsRowOf(rows, outcome.value, op)
    {
      if op !in operations { return Err(Missing); }
      var operation := operations[op];
      if operation.result.None? { return Err(NoProviderResult); }
      if !operation.status.ProviderWritten? && !operation.status.Completed? { return Err(NotReady); }
      var sequence: nat;
      if HasRow(rows, op) {
        sequence :| sequence in rows && IsRowOf(rows, sequence, op);
      } else {
        var rowsBefore, sequenceBefore := rows, revisionSequence;
        ghost var createdBefore := created;
        var ok: bool;
        if operation.kind.Save? && rows == map[] {
          if operation.previous.None? { return Err(NoBaseline); }
          ok, sequence := Insert(Row(operation.previous.value, Initial, None));
        }
        ok, sequence := Insert(Row(operation.result.value, SourceOf(operation.kind), Some(op)));
        if !ok {
          rows, revisionSequence, created := rowsBefore, sequenceBefore, createdBefore;
          return Err(DuplicateRevision);
        }
      }
      if op !in audits { audits := audits + [op]; }
      if op !in events { events := events + [op]; }
      operations := operations[op := operation.(status := Completed)];
      return Ok(sequence);
    }

    /**
     `prune`: the rows after the newest `limit`, newest first; a row whose
     provider release fails stays, and the loop goes on.
     */
    method Prune(limit: nat, released: set<nat>)
      modifies this`rows
      ensures rows == old(rows) - (set k | k in Removable(old(rows), limit) && k in released)
    {
      var removable := Removable(rows, limit);
      var i := 0;
      while i < |removable|
        invariant 0 <= i <= |removable|
        invariant rows == old(rows) - (set k | k in removable[..i] && k in released)
      {
        var before := set k | k in removable[..i] && k in released;
        var after := set k | k in removable[..i + 1] && k in released;
        assert removable[..i + 1] == removable[..i] + [removable[i]];
        if removable[i] in released {
          assert after == before + {removable[i]};
          rows := rows - {removable[i]};
        } else {
          assert after == before;
        }
        i := i + 1;
      }
      assert removable[..i] == removable;
    }
  }

  /**
   A prune after any finalization never touches the newest `limit` rows ever
   created, whichever releases succeed.
   */
  lemma PruneSparesNewest(db: Database, limit: nat, released: set<nat>)
    requires HistoryValid(db, limit)
    ensures HistoryValid(db.(rows := db.rows - (set k | k in Removable(db.rows, limit) && k in released)), limit)
  {
    RemovableIffOld(db, limit);
    assert forall k | k in Removable(db.rows, limit) :: k in db.rows by { RemovableInRows(db.rows, limit); }
  }

  lemma RemovableInRows(rows: map<nat, Row>, limit: nat)
    ensures forall k | k in Removable(rows, limit) :: k in rows
  {
    var order := Descending(rows.Keys);
    assert forall i | 0 <= i < |order| :: order[i] in order;
  }
}
