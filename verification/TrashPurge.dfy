/**
 Permanent purge of a trashed subtree: claim the trash operation, delete the
 storage objects of all versions, then delete the rows in one transaction, nodes
 deepest first. A run may stop anywhere; running it again ends in the same state.
 */
module TrashPurge {
  import opened Collections
  import opened Wrappers
  import opened Subtree

  type FileId = nat
  type Key = nat
  type OperationId = nat

  const WORKERS := 4

  /** `keys` are the storage keys of the file's versions. */
  datatype File = File(node: NodeId, keys: seq<Key>)

  datatype Status = Active | Purging | Restored | Purged

  datatype Operation = Operation(root: Option<NodeId>, status: Status)

  /** `migrated`: files that a migration row, of any status, names by a restricting foreign key. */
  datatype Tables = Tables(
    nodes: Nodes,
    files: map<FileId, File>,
    migrated: set<FileId>,
    operations: map<OperationId, Operation>)

  datatype Outcome = Done | Refused | StorageFailure | Stopped

  // ------------------------------------------------------------ deepest first

  predicate DeepestFirst(rows: seq<Row>) {
    forall i, j | 0 <= i < j < |rows| :: rows[i].depth >= rows[j].depth
  }

  function InsertRow(r: Row, rows: seq<Row>): seq<Row> {
    if rows == [] || rows[0].depth < r.depth then [r] + rows else [rows[0]] + InsertRow(r, rows[1..])
  }

  /** The stable sort by falling depth. */
  function Sorted(rows: seq<Row>): seq<Row> {
    if rows == [] then [] else InsertRow(rows[|rows| - 1], Sorted(rows[..|rows| - 1]))
  }

  ghost predicate Valid(nodes: Nodes, root: NodeId, rows: seq<Row>) {
    && (forall i | 0 <= i < |rows| :: RowValid(nodes, root, rows[i]))
    && (forall i, j | 0 <= i < j < |rows| :: rows[i].id != rows[j].id)
  }

  lemma HasRowFirst(r: Row, rows: seq<Row>, id: NodeId)
    ensures HasRow([r] + rows, id) <==> r.id == id || HasRow(rows, id)
  {
    HasRowMore([r], rows, id);
    assert [r][0].id == r.id;
  }

  lemma {:induction false} InsertKeepsOrder(r: Row, rows: seq<Row>)
    requires DeepestFirst(rows)
    ensures var s := InsertRow(r, rows);
      && DeepestFirst(s) && s != []
      && (s[0].depth == r.depth || (rows != [] && s[0].depth == rows[0].depth)) && r.depth <= s[0].depth
  {
    if rows != [] && rows[0].depth >= r.depth {
      InsertKeepsOrder(r, rows[1..]);
      var tail := InsertRow(r, rows[1..]);
      assert rows[0].depth >= tail[0].depth;
      assert forall j | 0 <= j < |tail| :: tail[0].depth >= tail[j].depth;
    }
  }

  lemma PrependKeepsRows(nodes: Nodes, root: NodeId, r: Row, rows: seq<Row>)
    requires Valid(nodes, root, rows) && RowValid(nodes, root, r) && !HasRow(rows, r.id)
    ensures Valid(nodes, root, [r] + rows)
    ensures forall id :: HasRow([r] + rows, id) <==> r.id == id || HasRow(rows, id)
  {
    assert forall i | 0 <= i < |rows| :: HasRow(rows, rows[i].id);
    forall id ensures HasRow([r] + rows, id) <==> r.id == id || HasRow(rows, id) { HasRowFirst(r, rows, id); }
  }

  lemma {:induction false} InsertKeepsRows(nodes: Nodes, root: NodeId, r: Row, rows: seq<Row>)
    requires Valid(nodes, root, rows) && RowValid(nodes, root, r) && !HasRow(rows, r.id)
    ensures Valid(nodes, root, InsertRow(r, rows))
    ensures forall id :: HasRow(InsertRow(r, rows), id) <==> id == r.id || HasRow(rows, id)
  {
    if rows == [] || rows[0].depth < r.depth {
      PrependKeepsRows(nodes, root, r, rows);
    } else {
      var first, rest := rows[0], rows[1..];
      assert rows == [first] + rest;
      assert !HasRow(rest, first.id);
      PrependKeepsRows(nodes, root, first, rest);
      hide RowValid;
      InsertKeepsRows(nodes, root, r, rest);
      PrependKeepsRows(nodes, root, first, InsertRow(r, rest));
    }
  }

  lemma {:induction false} SortedKeepsRows(nodes: Nodes, root: NodeId, rows: seq<Row>)
    requires Valid(nodes, root, rows)
    ensures Valid(nodes, root, Sorted(rows)) && DeepestFirst(Sorted(rows))
    ensures forall id :: HasRow(Sorted(rows), id) <==> HasRow(rows, id)
    decreases |rows|
  {
    if rows != [] {
      var init, last := rows[..|rows| - 1], rows[|rows| - 1];
      SortedKeepsRows(nodes, root, init);
      forall id ensures HasRow(rows, id) <==> HasRow(init, id) || id == last.id {
        assert rows == init + [last] && [last][0].id == last.id;
        HasRowMore(init, [last], id);
      }
      assert !HasRow(init, last.id);
      InsertKeepsRows(nodes, root, last, Sorted(init));
      InsertKeepsOrder(last, Sorted(init));
    }
  }

  // ------------------------------------------------------------ order of deletion

  /** Another node names this one as its parent: the restricting foreign key refuses its deletion. */
  predicate HasOtherChild(nodes: Nodes, id: NodeId) {
    exists c | c in nodes :: c != id && IsChild(nodes, id, c)
  }

  /** The root hangs below one of its own descendants. */
  ghost predicate RootBelowItself(nodes: Nodes, root: NodeId) {
    && root in nodes && nodes[root].parent.Some? && nodes[root].parent.value != root
    && InSubtree(nodes, root, nodes[root].parent.value)
  }

  /** A node's children, the root aside, come before it. */
  lemma ChildComesFirst(nodes: Nodes, root: NodeId, rows: seq<Row>, i: nat, c: NodeId)
    requires IsSubtree(nodes, root, rows) && DeepestFirst(rows)
    requires i < |rows| && IsChild(nodes, rows[i].id, c) && c != root
    ensures HasRow(rows[..i], c)
  {
    var r := rows[i];
    assert RowValid(nodes, root, r);
    ExtendChain(nodes, root, r.path, c);
    assert (r.path + [c])[|r.path + [c]| - 1] == c;
    assert InSubtree(nodes, root, c);
    var j :| 0 <= j < |rows| && rows[j].id == c;
    var q := rows[j].path;
    assert RowValid(nodes, root, rows[j]);
    var n := |q| - 1;
    assert IsChild(nodes, q[n - 1], q[n]);
    PathUnique(nodes, root, r.path, q[..n]);
    assert rows[j].depth == r.depth + 1;
    assert rows[..i][j].id == c;
  }

  lemma RootComesLast(nodes: Nodes, root: NodeId, rows: seq<Row>, i: nat)
    requires IsSubtree(nodes, root, rows) && DeepestFirst(rows) && i < |rows| && rows[i].id == root
    ensures i == |rows| - 1
  {
    assert RowValid(nodes, root, rows[i]);
    PathUnique(nodes, root, rows[i].path, [root]);
    var last := |rows| - 1;
    assert RowValid(nodes, root, rows[last]);
    assert rows[i].depth == 0;
  }

  /** The nodes left after deleting the first `n` of the order. */
  function Without(nodes: Nodes, rows: seq<Row>, n: nat): Nodes
    requires n <= |rows|
  {
    map id | id in nodes && !HasRow(rows[..n], id) :: nodes[id]
  }

  /** Deleting row `n` next is refused iff it is the root's parent, and not the root. */
  lemma RefusedIffRootBelow(nodes: Nodes, root: NodeId, rows: seq<Row>, n: nat)
    requires IsSubtree(nodes, root, rows) && DeepestFirst(rows) && n < |rows|
    ensures HasOtherChild(Without(nodes, rows, n), rows[n].id) <==>
      rows[n].id != root && IsChild(nodes, rows[n].id, root)
  {
    var left, id := Without(nodes, rows, n), rows[n].id;
    if HasOtherChild(left, id) {
      var c :| c in left && c != id && IsChild(left, id, c);
      if c != root {
        ChildComesFirst(nodes, root, rows, n, c);
      }
    }
    if id != root && IsChild(nodes, id, root) {
      forall j: nat | j < |rows| && rows[j].id == root ensures j >= n { RootComesLast(nodes, root, rows, j); }
      assert root in left && IsChild(left, id, root);
    }
  }

  lemma RootBelowHasRow(nodes: Nodes, root: NodeId, rows: seq<Row>)
    requires IsSubtree(nodes, root, rows)
    ensures RootBelowItself(nodes, root) <==>
      exists j | 0 <= j < |rows| :: rows[j].id != root && IsChild(nodes, rows[j].id, root)
  {
    if RootBelowItself(nodes, root) {
      var j :| 0 <= j < |rows| && rows[j].id == nodes[root].parent.value;
      assert IsChild(nodes, rows[j].id, root);
    }
    if j :| 0 <= j < |rows| && rows[j].id != root && IsChild(nodes, rows[j].id, root) {
      assert HasRow(rows, rows[j].id);
    }
  }

  /**
   The deletions of one transaction, in the given order. They go through iff the
   root does not hang below itself; no node ever outlives its parent.
   */
  method DeleteNodes(nodes: Nodes, rows: seq<Row>, ghost root: NodeId) returns (ok: bool, left: Nodes)
    requires IsSubtree(nodes, root, rows) && DeepestFirst(rows)
    ensures ok <==> !RootBelowItself(nodes, root)
    ensures ok ==> left == map id | id in nodes && !HasRow(rows, id) :: nodes[id]
  {
    left := nodes;
    for n := 0 to |rows|
      invariant left == Without(nodes, rows, n)
      invariant forall j | 0 <= j < n :: rows[j].id == root || !IsChild(nodes, rows[j].id, root)
    {
      RefusedIffRootBelow(nodes, root, rows, n);
      if HasOtherChild(left, rows[n].id) {
        RootBelowHasRow(nodes, root, rows);
        ok := false;
        return;
      }
      left := left - {rows[n].id};
      forall id ensures HasRow(rows[..n + 1], id) <==> HasRow(rows[..n], id) || id == rows[n].id {
        assert rows[..n + 1] == rows[..n] + [rows[n]] && [rows[n]][0].id == rows[n].id;
        HasRowMore(rows[..n], [rows[n]], id);
      }
    }
    assert rows[..|rows|] == rows;
    RootBelowHasRow(nodes, root, rows);
    ok := true;
  }

  // ------------------------------------------------------------ what a purge leaves

  ghost predicate FileBelow(t: Tables, root: NodeId, f: FileId) {
    f in t.files && InSubtree(t.nodes, root, t.files[f].node)
  }

  /** A file to be deleted is still named by a migration row. */
  ghost predicate Pinned(t: Tables, root: NodeId) {
    exists f :: f in t.migrated && FileBelow(t, root, f)
  }

  /** When the transaction of a claimed purge goes through. */
  ghost predicate CanCommit(t: Tables, op: OperationId, root: NodeId) {
    && Claimable(t, op) && t.operations[op] == Operation(Some(root), Purging)
    && !Pinned(t, root) && !RootBelowItself(t.nodes, root)
  }

  ghost predicate KeyBelow(t: Tables, root: NodeId, key: Key) {
    exists f :: FileBelow(t, root, f) && key in t.files[f].keys
  }

  /** Subtree and files gone, the operations rooted in it purged and without a root. */
  ghost predicate Purges(t: Tables, u: Tables, root: NodeId) {
    && (forall id :: id in u.nodes <==> id in t.nodes && !InSubtree(t.nodes, root, id))
    && (forall id | id in u.nodes :: u.nodes[id] == t.nodes[id])
    && (forall f :: f in u.files <==> f in t.files && !FileBelow(t, root, f))
    && (forall f | f in u.files :: u.files[f] == t.files[f])
    && u.migrated == t.migrated
    && u.operations.Keys == t.operations.Keys
    && (forall o | o in t.operations :: PurgesOperation(t, root, t.operations[o], u.operations[o]))
  }

  /** An operation rooted below keeps its end if it has come to one; no other operation changes. */
  ghost predicate PurgesOperation(t: Tables, root: NodeId, before: Operation, after: Operation) {
    if before.root.Some? && InSubtree(t.nodes, root, before.root.value) then
      && after.root.None?
      && (before.status == Restored || before.status == Purged ==> after.status == before.status)
      && (before.status == Active || before.status == Purging ==> after.status == Purged)
    else after == before
  }

  ghost predicate PurgesStorage(t: Tables, before: set<Key>, after: set<Key>, root: NodeId) {
    forall key :: key in after <==> key in before && !KeyBelow(t, root, key)
  }

  /** Keys are unique across versions. */
  ghost predicate UniqueKeys(files: map<FileId, File>) {
    && (forall f, i, j | f in files && 0 <= i < j < |files[f].keys| :: files[f].keys[i] != files[f].keys[j])
    && (forall f, g, key | f in files && g in files && f != g && key in files[f].keys :: key !in files[g].keys)
  }

  lemma TogetherOnce(a: seq<Key>, b: seq<Key>)
    requires NoRepeats(a) && NoRepeats(b) && forall key | key in a :: key !in b
    ensures NoRepeats(a + b)
  {
    forall i, j | 0 <= i < j < |a + b| ensures (a + b)[i] != (a + b)[j] {
      if i < |a| <= j { assert a[i] in a; }
    }
  }

  /** The storage keys of all versions below the root, each once. */
  method StorageKeys(t: Tables, rows: seq<Row>, ghost root: NodeId) returns (keys: seq<Key>)
    requires IsSubtree(t.nodes, root, rows) && UniqueKeys(t.files)
    ensures NoRepeats(keys) && forall key :: key in keys <==> KeyBelow(t, root, key)
  {
    keys := [];
    var rest := set f | f in t.files && HasRow(rows, t.files[f].node);
    ghost var all := rest;
    while rest != {}
      invariant rest <= all
      invariant NoRepeats(keys)
      invariant forall key | key in keys :: exists f :: f in all && f !in rest && key in t.files[f].keys
      invariant forall f, key | f in all && f !in rest && key in t.files[f].keys :: key in keys
      decreases rest
    {
      var f :| f in rest;
      TogetherOnce(keys, t.files[f].keys);
      keys := keys + t.files[f].keys;
      rest := rest - {f};
    }
  }

  /** Whether a trash operation can be purged. */
  predicate Claimable(t: Tables, op: OperationId) {
    && op in t.operations && t.operations[op].root.Some?
    && (t.operations[op].status.Active? || t.operations[op].status.Purging?)
    && t.operations[op].root.value in t.nodes
    && t.nodes[t.operations[op].root.value].operation == Some(op)
  }

  function Claimed(t: Tables, op: OperationId): Tables
    requires op in t.operations
  {
    t.(operations := t.operations[op := t.operations[op].(status := Purging)])
  }

  /** A run that stopped before its transaction: perhaps claimed, some of its objects deleted. */
  ghost predicate Interrupted(t: Tables, before: set<Key>, u: Tables, after: set<Key>, op: OperationId) {
    && Claimable(t, op)
    && (u == t || u == Claimed(t, op))
    && after <= before && forall key | key in before && key !in after :: KeyBelow(t, t.operations[op].root.value, key)
  }

  /** Claimable before and after, with the same root, subtree and files, and the same end. */
  lemma InterruptedPurgesAlike(t: Tables, before: set<Key>, u: Tables, after: set<Key>, op: OperationId, v: Tables, end: set<Key>)
    requires Interrupted(t, before, u, after, op)
    ensures Claimable(u, op) && u.operations[op].root == t.operations[op].root
    ensures var root := t.operations[op].root.value;
      && (Purges(t, v, root) <==> Purges(u, v, root))
      && (PurgesStorage(t, before, end, root) <==> PurgesStorage(u, after, end, root))
      && (Pinned(t, root) <==> Pinned(u, root)) && t.nodes == u.nodes
  {
    var root := t.operations[op].root.value;
    assert Chain(t.nodes, root, [root]) && [root][|[root]| - 1] == root;
    assert InSubtree(t.nodes, root, root);
    forall o, after | o in t.operations
      ensures PurgesOperation(t, root, t.operations[o], after) == PurgesOperation(u, root, u.operations[o], after) {}
    forall f ensures FileBelow(t, root, f) <==> FileBelow(u, root, f) {}
    if Pinned(t, root) { var f :| f in t.migrated && FileBelow(t, root, f); assert FileBelow(u, root, f); }
    if Pinned(u, root) { var f :| f in u.migrated && FileBelow(u, root, f); assert FileBelow(t, root, f); }
    forall key ensures KeyBelow(t, root, key) <==> KeyBelow(u, root, key) {
      if KeyBelow(t, root, key) { var f :| FileBelow(t, root, f) && key in t.files[f].keys; assert FileBelow(u, root, f); }
      if KeyBelow(u, root, key) { var f :| FileBelow(u, root, f) && key in u.files[f].keys; assert FileBelow(t, root, f); }
    }
  }

  /** Stopped runs add up to a stopped run. */
  lemma InterruptedAgain(t: Tables, before: set<Key>, u: Tables, middle: set<Key>, v: Tables, after: set<Key>, op: OperationId)
    requires Interrupted(t, before, u, middle, op) && Interrupted(u, middle, v, after, op)
    ensures Interrupted(t, before, v, after, op)
  {
    InterruptedPurgesAlike(t, before, u, middle, op, u, middle);
    var root := t.operations[op].root.value;
    forall key | key in before && key !in after ensures KeyBelow(t, root, key) {
      if key in middle {
        var f :| FileBelow(u, root, f) && key in u.files[f].keys;
        assert FileBelow(t, root, f);
      }
    }
  }

  function FilesLeft(files: map<FileId, File>, rows: seq<Row>): map<FileId, File> {
    map f | f in files && !HasRow(rows, files[f].node) :: files[f]
  }

  function OperationsLeft(operations: map<OperationId, Operation>, rows: seq<Row>): map<OperationId, Operation> {
    map o | o in operations ::
      if operations[o].root.Some? && HasRow(rows, operations[o].root.value) then
        Operation(None, if operations[o].status.Active? || operations[o].status.Purging? then Purged else operations[o].status)
      else operations[o]
  }

  lemma TransactionPurges(t: Tables, root: NodeId, rows: seq<Row>)
    requires forall id :: HasRow(rows, id) <==> InSubtree(t.nodes, root, id)
    ensures Purges(t, Tables(map id | id in t.nodes && !HasRow(rows, id) :: t.nodes[id],
                             FilesLeft(t.files, rows), t.migrated, OperationsLeft(t.operations, rows)), root)
  {
  }

  // ------------------------------------------------------------ the engine

  class TrashPurgeEngine {
    var tables: Tables
    var storage: set<Key>
    const calm: bool                   // no deletion fails and the run is not stopped
    ghost var deletions: seq<Key>      // every storage deletion that was begun

    method Claim(op: OperationId, authorized: bool) returns (root: Option<NodeId>)
      modifies `tables
      ensures root.Some? <==> authorized && Claimable(old(tables), op)
      ensures root.Some? <==>
        && authorized && op in old(tables).operations
        && var operation := old(tables).operations[op];
        && (operation.status == Active || operation.status == Purging)
        && operation.root.Some? && operation.root.value in old(tables).nodes
        && old(tables).nodes[operation.root.value].operation == Some(op)
      ensures root.Some? ==>
        && root == old(tables).operations[op].root && tables == Claimed(old(tables), op)
        && tables == old(tables).(operations := old(tables).operations[op := Operation(root, Purging)])
      ensures root.None? ==> tables == old(tables)
    {
      if !authorized || !Claimable(tables, op) { return None; }
      tables := Claimed(tables, op);
      root := tables.operations[op].root;
    }

    /**
     Up to four workers share one queue; a worker whose deletion fails leaves.
     The first failure is reported at once or a little later, while the others go
     on; what they delete after that is one more stopped run. The run may stop at
     any moment. Each key is begun at most once.
     */
    method DeleteStorageObjects(keys: seq<Key>) returns (outcome: Outcome)
      requires NoRepeats(keys)
      modifies `storage, `deletions
      ensures outcome.Done? || outcome.StorageFailure? || outcome.Stopped?
      ensures exists n | 0 <= n <= |keys| :: deletions == old(deletions) + keys[..n]
      ensures storage <= old(storage) && forall key | key in old(storage) && key !in storage :: key in keys
      ensures outcome.Done? ==> forall key | key in keys :: key !in storage
      ensures calm ==> outcome.Done?
    {
      var next, inFlight: seq<Key> := 0, [];
      var workers := if |keys| < WORKERS then |keys| else WORKERS;
      outcome := Done;
      while inFlight != [] || (next < |keys| && workers > 0)
        invariant next <= |keys| && |inFlight| <= workers
        invariant deletions == old(deletions) + keys[..next]
        invariant storage <= old(storage) && forall key | key in old(storage) && key !in storage :: key in keys
        invariant forall key | key in inFlight :: key in keys
        invariant outcome.Done? ==> forall key | key in keys[..next] :: key in inFlight || key !in storage
        invariant outcome.Done? ==> (workers > 0 || keys == [])
        invariant outcome.Done? || (outcome.StorageFailure? && !calm)
        decreases |keys| - next, |inFlight|
      {
        var stopped, takes, fails, gone, reported: bool := *, *, *, *, *;
        if calm { stopped, fails := false, false; }
        if stopped { return Stopped; }
        if outcome.StorageFailure? && reported { return; }
        if next < |keys| && |inFlight| < workers && (takes || inFlight == []) {
          deletions := deletions + [keys[next]];
          assert keys[..next + 1] == keys[..next] + [keys[next]];
          inFlight := inFlight + [keys[next]];
          next := next + 1;
        } else {
          var i: int := *;
          if !(0 <= i < |inFlight|) { i := 0; }
          var key := inFlight[i];
          RemovedOne(inFlight, i);
          inFlight := inFlight[..i] + inFlight[i + 1..];
          if fails {
            workers := workers - 1;
            outcome := StorageFailure;
            if gone { storage := storage - {key}; }
          } else {
            storage := storage - {key};
          }
        }
      }
      assert keys[..|keys|] == keys;
    }

    static lemma RemovedOne(keys: seq<Key>, i: nat)
      requires i < |keys|
      ensures forall key | key in keys :: key == keys[i] || key in keys[..i] + keys[i + 1..]
      ensures forall key | key in keys[..i] + keys[i + 1..] :: key in keys
    {
      assert keys == keys[..i] + [keys[i]] + keys[i + 1..];
    }

    /**
     The transaction: all of it, or nothing if the operation changed, a migration
     row still names a file below the root, or the root hangs below itself.
     */
    method Finalize(op: OperationId, root: NodeId) returns (ok: bool)
      modifies `tables
      ensures ok <==> CanCommit(old(tables), op, root)
      ensures if ok then Purges(old(tables), tables, root) else tables == old(tables)
      ensures ok ==> op in tables.operations && tables.operations[op] == Operation(None, Purged) && root !in tables.nodes
    {
      if !Claimable(tables, op) || tables.operations[op] != Operation(Some(root), Purging) { return false; }
      var found := QuerySubtree(tables.nodes, root);
      SortedKeepsRows(tables.nodes, root, found);
      var rows := Sorted(found);
      if exists f | f in tables.migrated :: f in tables.files && HasRow(rows, tables.files[f].node) {
        assert Pinned(tables, root);
        return false;
      }
      assert !Pinned(tables, root);
      var left: Nodes;
      ok, left := DeleteNodes(tables.nodes, rows, root);
      if !ok { return; }
      ghost var before := tables;
      tables := Tables(left, FilesLeft(tables.files, rows), tables.migrated, OperationsLeft(tables.operations, rows));
      TransactionPurges(before, root, rows);
      assert Chain(before.nodes, root, [root]) && [root][|[root]| - 1] == root;
      assert InSubtree(before.nodes, root, root);
    }

    /**
     A purge that comes through deletes exactly the descendant closure of the
     root with its files and storage objects, each object once; one that does not
     leaves everything as it was, or stopped where another run can take over. A
     run in which nothing fails comes through exactly if it is authorized, the
     operation claimable, no file pinned and the root not below itself.
     */
    method Purge(op: OperationId, authorized: bool) returns (outcome: Outcome)
      requires UniqueKeys(tables.files)
      modifies this
      ensures outcome.Done? ==>
        && authorized && Claimable(old(tables), op)
        && var root := old(tables).operations[op].root.value;
        && !RootBelowItself(old(tables).nodes, root) && !Pinned(old(tables), root)
        && Purges(old(tables), tables, root) && PurgesStorage(old(tables), old(storage), storage, root)
        && op in tables.operations && tables.operations[op] == Operation(None, Purged) && root !in tables.nodes
      ensures !outcome.Done? ==>
        (tables == old(tables) && storage == old(storage))
        || Interrupted(old(tables), old(storage), tables, storage, op)
      ensures calm ==>
        (outcome.Done? <==>
          && authorized && Claimable(old(tables), op)
          && !Pinned(old(tables), old(tables).operations[op].root.value)
          && !RootBelowItself(old(tables).nodes, old(tables).operations[op].root.value))
      ensures !authorized || !Claimable(old(tables), op) ==> outcome.Refused? && storage == old(storage)
      ensures exists begun :: deletions == old(deletions) + begun && NoRepeats(begun)
    {
      assert deletions == old(deletions) + [];
      var root := Claim(op, authorized);
      if root.None? { return Refused; }
      ghost var claimed := tables;
      InterruptedPurgesAlike(old(tables), old(storage), tables, storage, op, tables, storage);
      var stopped: bool := *;
      if stopped && !calm { return Stopped; }
      var rows := QuerySubtree(tables.nodes, root.value);
      var keys := StorageKeys(tables, rows, root.value);
      outcome := DeleteStorageObjects(keys);
      SameKeysBelow(old(tables), tables, op);
      if !outcome.Done? { return; }
      stopped := *;
      if stopped && !calm { return Stopped; }
      var ok := Finalize(op, root.value);
      if !ok { return Refused; }
      InterruptedPurgesAlike(old(tables), old(storage), claimed, storage, op, tables, storage);
    }

    static lemma SameKeysBelow(t: Tables, u: Tables, op: OperationId)
      requires Claimable(t, op) && u == Claimed(t, op)
      ensures forall key :: KeyBelow(u, t.operations[op].root.value, key) <==> KeyBelow(t, t.operations[op].root.value, key)
    {
      var root := t.operations[op].root.value;
      forall f ensures FileBelow(t, root, f) <==> FileBelow(u, root, f) {}
      forall key ensures KeyBelow(t, root, key) <==> KeyBelow(u, root, key) {
        if KeyBelow(t, root, key) { var f :| FileBelow(t, root, f) && key in t.files[f].keys; assert FileBelow(u, root, f); }
        if KeyBelow(u, root, key) { var f :| FileBelow(u, root, f) && key in u.files[f].keys; assert FileBelow(t, root, f); }
      }
    }
  }

  /**
   However often runs of a purge stopped before, a run that comes through ends
   in a state that the very first one would have ended in, and every such state
   is the same.
   */
  lemma RerunEndsAlike(t: Tables, before: set<Key>, u: Tables, after: set<Key>, op: OperationId,
                       v: Tables, vKeys: set<Key>, w: Tables, wKeys: set<Key>)
    requires Interrupted(t, before, u, after, op)
    requires Purges(t, v, t.operations[op].root.value) && PurgesStorage(t, before, vKeys, t.operations[op].root.value)
    requires Purges(u, w, t.operations[op].root.value) && PurgesStorage(u, after, wKeys, t.operations[op].root.value)
    ensures v == w && vKeys == wKeys
  {
    InterruptedPurgesAlike(t, before, u, after, op, w, wKeys);
    hide InSubtree, FileBelow, KeyBelow, Interrupted, PurgesOperation;
    forall o | o in t.operations ensures v.operations[o] == w.operations[o] {
      EndsAlike(t, t.operations[op].root.value, t.operations[o], v.operations[o], w.operations[o]);
    }
    assert v.nodes == w.nodes && v.files == w.files && v.operations == w.operations;
  }

  lemma EndsAlike(t: Tables, root: NodeId, before: Operation, a: Operation, b: Operation)
    requires PurgesOperation(t, root, before, a) && PurgesOperation(t, root, before, b)
    ensures a == b
  {
    hide InSubtree;
  }

  // ------------------------------------------------------------ purges that never end

  /**
   A purge can be finished, by this run or any later one, if and only if no
   migration row names a file below the root and the root is not below itself.
   */
  lemma FinishableIff(t: Tables, before: set<Key>, u: Tables, after: set<Key>, op: OperationId)
    requires Interrupted(t, before, u, after, op) && u.operations[op].status.Purging?
    ensures var root := t.operations[op].root.value;
      CanCommit(u, op, root) <==> !Pinned(t, root) && !RootBelowItself(t.nodes, root)
  {
    InterruptedPurgesAlike(t, before, u, after, op, u, after);
  }

  /**
   A trashed file that was migrated once, with a root above which nothing is
   wrong: its storage object may be deleted, and no run ever commits.
   */
  lemma MigratedFileIsNeverPurged(key: Key)
    ensures exists t, op :: (
      && Claimable(t, op) && UniqueKeys(t.files) && !RootBelowItself(t.nodes, t.operations[op].root.value)
      && KeyBelow(t, t.operations[op].root.value, key)
      && forall before, u, after | Interrupted(t, before, u, after, op) ::
           !CanCommit(u, op, t.operations[op].root.value))
  {
    var t := Tables(map[1 := Node(None, Some(9))], map[5 := File(1, [key])], {5}, map[9 := Operation(Some(1), Active)]);
    assert Chain(t.nodes, 1, [1]) && [1][|[1]| - 1] == 1;
    assert InSubtree(t.nodes, 1, 1);
    assert FileBelow(t, 1, 5) && key in t.files[5].keys;
    assert Pinned(t, 1);
    forall before, u, after | Interrupted(t, before, u, after, 9) ensures !CanCommit(u, 9, 1) {
      InterruptedPurgesAlike(t, before, u, after, 9, u, after);
    }
    assert Claimable(t, 9) && UniqueKeys(t.files) && KeyBelow(t, 1, key);
  }
}
