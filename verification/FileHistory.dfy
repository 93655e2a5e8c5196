/**
 The database side of a managed file mutation: the write-ahead operation
 record, the FileRevision rows of one file, and the finalizer that turns a
 written operation into history. One transaction is one atomic function.

 A revision is an opaque token. Tokens are numbered in the order the provider
 mints them, so a fresh one is larger than every token seen before it; the
 token stands for both the storage revision and the provider version handle
 that a single provider write produces.
 */
module FileHistory {
  import opened Wrappers

  type Revision = nat
  type OperationId = nat

  datatype Status = Pending | ProviderWritten | Completed | Failed

  /** A restore also names the history row it restores. */
  datatype Kind = Save | Restore(sourceSequence: nat)

  datatype Operation = Operation(
    kind: Kind,
    expected: Revision,
    previous: Option<Revision>,
    status: Status,
    result: Option<Revision>)

  datatype Source = Initial | ManualSave | RestoredVersion

  /** A FileRevision row; its key in the table is its sequence number. */
  datatype Row = Row(revision: Revision, source: Source, operation: Option<OperationId>)

  /**
   The rows of one file. `rows` is the table; `created` is a history variable
   that keeps every row ever inserted, in insertion order, deleted or not.
   */
  datatype Database = Database(
    operations: map<OperationId, Operation>,
    revisionSequence: nat,
    rows: map<nat, Row>,
    created: seq<Row>,
    audits: seq<OperationId>,
    events: seq<OperationId>)

  datatype FinalizeError = Missing | NoProviderResult | NotReady | NoBaseline | DuplicateRevision

  predicate IsRowOf(rows: map<nat, Row>, sequence: nat, op: OperationId) {
    sequence in rows && rows[sequence].operation == Some(op)
  }

  predicate HasRow(rows: map<nat, Row>, op: OperationId) {
    exists sequence | sequence in rows :: IsRowOf(rows, sequence, op)
  }

  function SourceOf(kind: Kind): Source {
    if kind.Save? then ManualSave else RestoredVersion
  }

  /** One `revisionSequence` increment followed by one insert. */
  function InsertRow(db: Database, row: Row): Database {
    db.(revisionSequence := db.revisionSequence + 1,
        rows := db.rows[db.revisionSequence + 1 := row],
        created := db.created + [row])
  }

  /** Insert keyed by operation id that leaves an existing entry alone. */
  function Upsert(log: seq<OperationId>, op: OperationId): seq<OperationId> {
    if op in log then log else log + [op]
  }

  /**
   The row an operation would get is refused by the unique index on file and
   provider version: a live row has its revision, or the INITIAL row inserted
   before it would.
   */
  predicate RevisionTaken(db: Database, op: OperationId) {
    && op in db.operations && !HasRow(db.rows, op)
    && var operation := db.operations[op];
    && operation.result.Some?
    && ((exists sequence | sequence in db.rows :: db.rows[sequence].revision == operation.result.value)
        || (operation.kind.Save? && db.rows == map[] && operation.previous == operation.result))
  }

  /** Why a finalization throws, if it does. */
  function Refusal(db: Database, op: OperationId): Option<FinalizeError> {
    if op !in db.operations then Some(Missing)
    else
      var operation := db.operations[op];
      if operation.result.None? then Some(NoProviderResult)
      else if !operation.status.ProviderWritten? && !operation.status.Completed? then Some(NotReady)
      else if !HasRow(db.rows, op) && operation.kind.Save? && db.rows == map[] && operation.previous.None? then
        Some(NoBaseline)
      else if RevisionTaken(db, op) then Some(DuplicateRevision)
      else None
  }

  /** The history after the finalizer made sure the operation has a row. */
  function EnsureRow(db: Database, op: OperationId): Database
    requires Refusal(db, op).None?
  {
    if HasRow(db.rows, op) then db
    else
      var operation := db.operations[op];
      var baseline :=
        if operation.kind.Save? && db.rows == map[]
        then InsertRow(db, Row(operation.previous.value, Initial, None))
        else db;
      InsertRow(baseline, Row(operation.result.value, SourceOf(operation.kind), Some(op)))
  }

  /** The whole transaction. A refusal rolls everything back. */
  function Finalized(db: Database, op: OperationId): Database {
    if Refusal(db, op).Some? then db
    else
      var withRow := EnsureRow(db, op);
      withRow.(audits := Upsert(db.audits, op),
               events := Upsert(db.events, op),
               operations := db.operations[op := db.operations[op].(status := Completed)])
  }

  // ---------------------------------------------------------------- retention

  lemma MaxExists(keys: set<nat>)
    requires keys != {}
    ensures exists m :: m in keys && forall k | k in keys :: k <= m
  {
    var k :| k in keys;
    if keys - {k} == {} {
      assert forall j | j in keys :: j == k || j in keys - {k};
    } else {
      MaxExists(keys - {k});
      var m :| m in keys - {k} && forall j | j in keys - {k} :: j <= m;
      var top := if k > m then k else m;
      assert top in keys && forall j | j in keys :: j <= top by {
        forall j | j in keys ensures j <= top { assert j == k || j in keys - {k}; }
      }
    }
  }

  function MaxOf(keys: set<nat>): (m: nat)
    requires keys != {}
    ensures m in keys && forall k | k in keys :: k <= m
  {
    MaxExists(keys);
    var m :| m in keys && forall k | k in keys :: k <= m;
    m
  }

  predicate IsDescending(order: seq<nat>, keys: set<nat>) {
    && (forall k | k in order :: k in keys) && (forall k | k in keys :: k in order)
    && (forall i, j | 0 <= i < j < |order| :: order[i] > order[j])
  }

  lemma {:induction false} DescendingExists(keys: set<nat>)
    ensures exists order :: IsDescending(order, keys)
  {
    if keys == {} {
      assert IsDescending([], keys);
    } else {
      var m := MaxOf(keys);
      DescendingExists(keys - {m});
      var rest :| IsDescending(rest, keys - {m});
      assert IsDescending([m] + rest, keys) by {
        forall i | 0 <= i < |rest| ensures rest[i] < m { assert rest[i] in rest; }
      }
    }
  }

  lemma {:induction false} DescendingUnique(a: seq<nat>, b: seq<nat>, keys: set<nat>)
    requires IsDescending(a, keys) && IsDescending(b, keys)
    ensures a == b
    decreases |a|
  {
    assert |a| > 0 ==> a[0] in keys;
    assert |b| > 0 ==> b[0] in keys;
    if a != [] {
      assert a[0] in a && a[0] in b;
      assert b[0] in b && b[0] in a;
      assert a[0] == b[0];
      assert IsDescending(a[1..], keys - {a[0]}) by { TailDescending(a, keys); }
      assert IsDescending(b[1..], keys - {a[0]}) by { TailDescending(b, keys); }
      DescendingUnique(a[1..], b[1..], keys - {a[0]});
      assert a == [a[0]] + a[1..] && b == [b[0]] + b[1..];
    }
  }

  lemma TailDescending(a: seq<nat>, keys: set<nat>)
    requires a != [] && IsDescending(a, keys)
    ensures IsDescending(a[1..], keys - {a[0]})
  {
    forall k ensures k in a[1..] <==> k in keys - {a[0]} {
      if k in keys && k != a[0] {
        var i :| 0 <= i < |a| && a[i] == k;
        assert a[1..][i - 1] == k;
      }
    }
  }

  /** `orderBy: { sequence: 'desc' }`. */
  function Descending(keys: set<nat>): (order: seq<nat>)
    ensures IsDescending(order, keys)
  {
    DescendingExists(keys);
    assert forall a, b | IsDescending(a, keys) && IsDescending(b, keys) :: a == b by {
      forall a, b | IsDescending(a, keys) && IsDescending(b, keys) ensures a == b {
        DescendingUnique(a, b, keys);
      }
    }
    var order :| IsDescending(order, keys);
    order
  }

  /** The rows a prune may remove: everything after the newest `limit`. */
  function Removable(rows: map<nat, Row>, limit: nat): seq<nat> {
    var order := Descending(rows.Keys);
    if limit <= |order| then order[limit..] else []
  }

  /** Deleting a row that is already gone raises, and the prune goes on. */
  function DeleteRow(db: Database, sequence: nat): Database {
    db.(rows := db.rows - {sequence})
  }

  // --------------------------------------------------------------- invariants

  /**
   What every run keeps for the history of one file: the counter equals the
   number of rows ever created, row `n` of the table is the `n`-th row
   created, and the newest `limit` rows are all still in the table.
   */
  ghost predicate HistoryValid(db: Database, limit: nat) {
    && db.revisionSequence == |db.created|
    && (forall k | k in db.rows :: 1 <= k <= |db.created| && db.rows[k] == db.created[k - 1])
    && (forall k | 1 <= k <= |db.created| && |db.created| < k + limit :: k in db.rows)
  }

  lemma InsertKeepsHistory(db: Database, row: Row, limit: nat)
    requires HistoryValid(db, limit) && limit >= 1
    ensures HistoryValid(InsertRow(db, row), limit)
  {
  }

  lemma FinalizedKeepsHistory(db: Database, op: OperationId, limit: nat)
    requires HistoryValid(db, limit) && limit >= 1
    ensures HistoryValid(Finalized(db, op), limit)
    ensures db.created <= Finalized(db, op).created
  {
  }

  /** A strictly descending list below a bound loses one per position. */
  lemma {:induction false} DescendingBound(order: seq<nat>, bound: nat, i: nat)
    requires forall a, b | 0 <= a < b < |order| :: order[a] > order[b]
    requires i < |order| && order[0] <= bound
    ensures order[i] + i <= bound
  {
    if i > 0 {
      DescendingBound(order, bound, i - 1);
    }
  }

  /** Every removable row is older than the newest `limit` rows ever created. */
  lemma RemovableIsOld(db: Database, limit: nat, i: nat)
    requires HistoryValid(db, limit)
    requires i < |Removable(db.rows, limit)|
    ensures Removable(db.rows, limit)[i] + limit <= |db.created|
  {
    var order := Descending(db.rows.Keys);
    assert order[0] in order;
    assert order[0] in db.rows;
    DescendingBound(order, |db.created|, limit + i);
  }

  /** The newest rows come first, without a gap. */
  lemma {:induction false} NewestFirst(db: Database, limit: nat, j: nat)
    requires HistoryValid(db, limit) && j < limit <= |db.created|
    ensures j < |Descending(db.rows.Keys)| && Descending(db.rows.Keys)[j] == |db.created| - j
  {
    var order := Descending(db.rows.Keys);
    var newest: nat := |db.created| - j;
    assert newest in db.rows && newest in order;
    var m: nat :| m < |order| && order[m] == newest;
    assert order[0] in order;
    if m < j {
      NewestFirst(db, limit, m);
    }
    DescendingBound(order, |db.created|, j);
  }

  /** A prune may remove exactly the rows older than the newest `limit`. */
  lemma RemovableIffOld(db: Database, limit: nat)
    requires HistoryValid(db, limit)
    ensures forall k | k in db.rows :: k in Removable(db.rows, limit) <==> k + limit <= |db.created|
  {
    var order := Descending(db.rows.Keys);
    forall k | k in db.rows ensures k in Removable(db.rows, limit) <==> k + limit <= |db.created| {
      assert k in order;
      var i: nat :| i < |order| && order[i] == k;
      if limit <= i {
        assert Removable(db.rows, limit)[i - limit] == k;
        RemovableIsOld(db, limit, i - limit);
      } else if k + limit <= |db.created| {
        NewestFirst(db, limit, i);
      } else {
        assert forall n | limit <= n < |order| :: order[n] < order[i];
      }
    }
  }

  lemma DeleteKeepsHistory(db: Database, sequence: nat, limit: nat)
    requires HistoryValid(db, limit)
    requires sequence + limit <= |db.created|
    ensures HistoryValid(DeleteRow(db, sequence), limit)
  {
  }

  /** With a limit of at least one the table is empty only before the first row. */
  lemma EmptyOnlyBeforeFirstRow(db: Database, limit: nat)
    requires HistoryValid(db, limit) && limit >= 1
    ensures db.rows == map[] <==> db.created == []
  {
    if db.created != [] {
      assert |db.created| in db.rows;
    }
  }
}
