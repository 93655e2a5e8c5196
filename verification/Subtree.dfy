/**
 The recursive query that finds everything below a trashed node, with depths.
 Each row carries the path it was reached by and is not extended back onto it,
 so the query ends on cyclic data too. Every node has at most one parent, so it
 has at most one row.
 */
module Subtree {
  import opened Collections
  import opened Wrappers

  type NodeId = nat

  /** `operation` is the trash operation a node belongs to. */
  datatype Node = Node(parent: Option<NodeId>, operation: Option<nat>)

  type Nodes = map<NodeId, Node>

  datatype Row = Row(id: NodeId, depth: nat, path: seq<NodeId>)

  predicate IsChild(nodes: Nodes, parent: NodeId, child: NodeId) {
    child in nodes && nodes[child].parent == Some(parent)
  }

  ghost predicate Chain(nodes: Nodes, root: NodeId, path: seq<NodeId>) {
    && path != [] && path[0] == root && root in nodes
    && (forall i, j | 0 <= i < |path| - 1 && j == i + 1 :: IsChild(nodes, path[i], path[j]))
  }

  /** The descendant closure of the root. */
  ghost predicate InSubtree(nodes: Nodes, root: NodeId, id: NodeId) {
    exists path :: Chain(nodes, root, path) && path[|path| - 1] == id
  }

  ghost predicate RowValid(nodes: Nodes, root: NodeId, r: Row) {
    && Chain(nodes, root, r.path) && NoRepeats(r.path)
    && r.id == r.path[|r.path| - 1] && r.depth == |r.path| - 1
  }

  predicate HasRow(rows: seq<Row>, id: NodeId) {
    exists i | 0 <= i < |rows| :: rows[i].id == id
  }

  /** One row for each node of the subtree. */
  ghost predicate IsSubtree(nodes: Nodes, root: NodeId, rows: seq<Row>) {
    && (forall i | 0 <= i < |rows| :: RowValid(nodes, root, rows[i]))
    && (forall i, j | 0 <= i < j < |rows| :: rows[i].id != rows[j].id)
    && (forall id :: HasRow(rows, id) <==> InSubtree(nodes, root, id))
  }

  // ------------------------------------------------------------ one parent, one path

  lemma {:induction false} PathUnique(nodes: Nodes, root: NodeId, p: seq<NodeId>, q: seq<NodeId>)
    requires Chain(nodes, root, p) && Chain(nodes, root, q) && NoRepeats(p) && NoRepeats(q)
    requires p[|p| - 1] == q[|q| - 1]
    ensures p == q
    decreases |p|
  {
    var m, n := |p| - 1, |q| - 1;
    assert (n > 0 ==> q[0] != q[n]) && (m > 0 ==> p[0] != p[m]);
    if m > 0 {
      assert IsChild(nodes, p[m - 1], p[m]) && IsChild(nodes, q[n - 1], q[n]);
      PathUnique(nodes, root, p[..m], q[..n]);
      assert p == p[..m] + [p[m]] && q == q[..n] + [q[n]];
    }
  }

  lemma InNodes(nodes: Nodes, root: NodeId, path: seq<NodeId>, i: nat)
    requires Chain(nodes, root, path) && i < |path|
    ensures path[i] in nodes
  {
    if i > 0 { assert IsChild(nodes, path[i - 1], path[i]); }
  }

  lemma {:induction false} PathsAreShort(path: seq<NodeId>, keys: set<NodeId>)
    requires NoRepeats(path) && forall i | 0 <= i < |path| :: path[i] in keys
    ensures |path| <= |keys|
    decreases |path|
  {
    if path != [] {
      var last := |path| - 1;
      PathsAreShort(path[..last], keys - {path[last]});
    }
  }

  lemma ExtendChain(nodes: Nodes, root: NodeId, path: seq<NodeId>, child: NodeId)
    requires Chain(nodes, root, path) && IsChild(nodes, path[|path| - 1], child)
    ensures Chain(nodes, root, path + [child])
  {
    var more := path + [child];
    forall i, j | 0 <= i < |more| - 1 && j == i + 1 ensures IsChild(nodes, more[i], more[j]) {
      if j < |path| { assert IsChild(nodes, path[i], path[j]); }
    }
  }

  // ------------------------------------------------------------ the query

  /** Rows of level `k`, all of them, each once. */
  ghost predicate Level(nodes: Nodes, root: NodeId, rows: seq<Row>, k: nat) {
    && (forall i | 0 <= i < |rows| :: RowValid(nodes, root, rows[i]) && rows[i].depth == k)
    && (forall i, j | 0 <= i < j < |rows| :: rows[i].id != rows[j].id)
  }

  method Children(nodes: Nodes, w: Row) returns (next: seq<Row>)
    ensures forall i | 0 <= i < |next| ::
      IsChild(nodes, w.id, next[i].id) && next[i].id !in w.path
      && next[i] == Row(next[i].id, w.depth + 1, w.path + [next[i].id])
    ensures forall i, j | 0 <= i < j < |next| :: next[i].id != next[j].id
    ensures forall c | IsChild(nodes, w.id, c) && c !in w.path :: HasRow(next, c)
  {
    next := [];
    var rest := set c | c in nodes && nodes[c].parent == Some(w.id) && c !in w.path;
    ghost var all := rest;
    while rest != {}
      invariant rest <= all
      invariant forall i | 0 <= i < |next| ::
        IsChild(nodes, w.id, next[i].id) && next[i].id !in w.path && next[i].id !in rest
        && next[i] == Row(next[i].id, w.depth + 1, w.path + [next[i].id])
      invariant forall i, j | 0 <= i < j < |next| :: next[i].id != next[j].id
      invariant forall c | c in all :: c in rest || HasRow(next, c)
      decreases rest
    {
      var c :| c in rest;
      ghost var was := next;
      next := next + [Row(c, w.depth + 1, w.path + [c])];
      rest := rest - {c};
      forall x | x in all ensures x in rest || HasRow(next, x) {
        if HasRow(was, x) {
          var i :| 0 <= i < |was| && was[i].id == x;
          assert next[i].id == x;
        }
        if x == c { assert next[|next| - 1].id == c; }
      }
    }
  }

  lemma HasRowMore(a: seq<Row>, b: seq<Row>, id: NodeId)
    ensures HasRow(a + b, id) <==> HasRow(a, id) || HasRow(b, id)
  {
    if i :| 0 <= i < |a| && a[i].id == id { assert (a + b)[i].id == id; }
    if i :| 0 <= i < |b| && b[i].id == id { assert (a + b)[|a| + i].id == id; }
  }

  predicate ChildRow(nodes: Nodes, w: Row, r: Row) {
    IsChild(nodes, w.id, r.id) && r.id !in w.path && r.path == w.path + [r.id] && r.depth == w.depth + 1
  }

  predicate FromOne(nodes: Nodes, working: seq<Row>, n: nat, r: Row)
    requires n <= |working|
  {
    exists m | 0 <= m < n :: ChildRow(nodes, working[m], r)
  }

  /** The children of the first `n` rows of a level, each once. */
  ghost predicate Expanded(nodes: Nodes, root: NodeId, working: seq<Row>, n: nat, k: nat, next: seq<Row>)
    requires n <= |working|
  {
    && Level(nodes, root, next, k + 1)
    && (forall j | 0 <= j < |next| :: FromOne(nodes, working, n, next[j]))
    && (forall m, c | 0 <= m < n && IsChild(nodes, working[m].id, c) && c !in working[m].path :: HasRow(next, c))
  }

  lemma ExpandOne(nodes: Nodes, root: NodeId, working: seq<Row>, n: nat, k: nat, next: seq<Row>, more: seq<Row>)
    requires n < |working| && Level(nodes, root, working, k) && Expanded(nodes, root, working, n, k, next)
    requires forall i | 0 <= i < |more| :: ChildRow(nodes, working[n], more[i])
    requires forall i, j | 0 <= i < j < |more| :: more[i].id != more[j].id
    requires forall c | IsChild(nodes, working[n].id, c) && c !in working[n].path :: HasRow(more, c)
    ensures Expanded(nodes, root, working, n + 1, k, next + more)
  {
    var w, sum := working[n], next + more;
    forall i | 0 <= i < |more| ensures RowValid(nodes, root, more[i]) && more[i].depth == k + 1 {
      ExtendChain(nodes, root, w.path, more[i].id);
    }
    forall i, j | 0 <= i < j < |sum| ensures sum[i].id != sum[j].id {
      if i < |next| <= j {
        assert FromOne(nodes, working, n, next[i]);
        var m :| 0 <= m < n && ChildRow(nodes, working[m], next[i]);
        assert ChildRow(nodes, w, more[j - |next|]);
        assert working[m].id != working[n].id;
      }
    }
    forall j | 0 <= j < |sum| ensures FromOne(nodes, working, n + 1, sum[j]) {
      if j < |next| {
        assert FromOne(nodes, working, n, next[j]);
        var m :| 0 <= m < n && ChildRow(nodes, working[m], next[j]);
      } else {
        assert ChildRow(nodes, working[n], more[j - |next|]);
      }
    }
    forall m, c | 0 <= m < n + 1 && IsChild(nodes, working[m].id, c) && c !in working[m].path ensures HasRow(sum, c) {
      HasRowMore(next, more, c);
    }
  }

  method NextLevel(nodes: Nodes, working: seq<Row>, ghost root: NodeId, ghost k: nat) returns (next: seq<Row>)
    requires Level(nodes, root, working, k)
    ensures Expanded(nodes, root, working, |working|, k, next)
  {
    next := [];
    for n := 0 to |working|
      invariant Expanded(nodes, root, working, n, k, next)
    {
      var more := Children(nodes, working[n]);
      ExpandOne(nodes, root, working, n, k, next, more);
      next := next + more;
    }
  }

  /** All levels before `k` are in, and everything they lead to is in or on level `k`. */
  ghost predicate Querying(nodes: Nodes, root: NodeId, done: seq<Row>, working: seq<Row>, k: nat) {
    && Level(nodes, root, working, k)
    && (forall i | 0 <= i < |done| :: RowValid(nodes, root, done[i]) && done[i].depth < k)
    && (forall i, j | 0 <= i < j < |done| :: done[i].id != done[j].id)
    && (root in nodes ==> HasRow(done + working, root))
    && (forall i, x | 0 <= i < |done + working| && x in (done + working)[i].path :: HasRow(done + working, x))
    && (forall i, c | 0 <= i < |done| && IsChild(nodes, done[i].id, c) :: HasRow(done + working, c))
  }

  lemma StepKeepsQuerying(nodes: Nodes, root: NodeId, done: seq<Row>, working: seq<Row>, k: nat, next: seq<Row>)
    requires Querying(nodes, root, done, working, k) && Expanded(nodes, root, working, |working|, k, next)
    ensures Querying(nodes, root, done + working, next, k + 1)
  {
    var rows := done + working;
    forall i, j | 0 <= i < j < |rows| ensures rows[i].id != rows[j].id {
      if i < |done| <= j && rows[i].id == rows[j].id {
        PathUnique(nodes, root, rows[i].path, rows[j].path);
      }
    }
    assert root in nodes ==> HasRow(rows + next, root) by { HasRowMore(rows, next, root); }
    forall i, x | 0 <= i < |rows + next| && x in (rows + next)[i].path ensures HasRow(rows + next, x) {
      HasRowMore(rows, next, x);
      if i >= |rows| {
        var r := next[i - |rows|];
        assert FromOne(nodes, working, |working|, r);
        var m :| 0 <= m < |working| && ChildRow(nodes, working[m], r);
        if x == r.id {
          assert HasRow(next, x);
        } else {
          assert x in rows[|done| + m].path;
        }
      }
    }
    forall i, c | 0 <= i < |rows| && IsChild(nodes, rows[i].id, c) ensures HasRow(rows + next, c) {
      HasRowMore(rows, next, c);
      if i >= |done| {
        var w := working[i - |done|];
        if c in w.path { assert c in rows[i].path; } else { assert HasRow(next, c); }
      }
    }
  }

  lemma {:induction false} ChainHasRow(nodes: Nodes, root: NodeId, rows: seq<Row>, path: seq<NodeId>)
    requires HasRow(rows, root) && Chain(nodes, root, path)
    requires forall i, c | 0 <= i < |rows| && IsChild(nodes, rows[i].id, c) :: HasRow(rows, c)
    ensures HasRow(rows, path[|path| - 1])
    decreases |path|
  {
    var last := |path| - 1;
    if last > 0 {
      assert IsChild(nodes, path[last - 1], path[last]);
      ChainHasRow(nodes, root, rows, path[..last]);
      var i :| 0 <= i < |rows| && rows[i].id == path[last - 1];
    }
  }

  lemma QueryIsSubtree(nodes: Nodes, root: NodeId, rows: seq<Row>, k: nat)
    requires Querying(nodes, root, rows, [], k)
    ensures IsSubtree(nodes, root, rows)
  {
    assert rows + [] == rows;
    forall id | InSubtree(nodes, root, id) ensures HasRow(rows, id) {
      var path :| Chain(nodes, root, path) && path[|path| - 1] == id;
      ChainHasRow(nodes, root, rows, path);
    }
    forall id | HasRow(rows, id) ensures InSubtree(nodes, root, id) {
      var i :| 0 <= i < |rows| && rows[i].id == id;
      assert RowValid(nodes, root, rows[i]);
    }
  }

  lemma LevelIsShallow(nodes: Nodes, root: NodeId, working: seq<Row>, k: nat)
    requires Level(nodes, root, working, k) && working != []
    ensures k < |nodes.Keys|
  {
    var path := working[0].path;
    assert RowValid(nodes, root, working[0]);
    forall i | 0 <= i < |path| ensures path[i] in nodes.Keys { InNodes(nodes, root, path, i); }
    PathsAreShort(path, nodes.Keys);
  }

  /** The query ends on every data and finds the descendant closure, each node once with its depth. */
  method QuerySubtree(nodes: Nodes, root: NodeId) returns (rows: seq<Row>)
    ensures IsSubtree(nodes, root, rows)
  {
    var working := if root in nodes then [Row(root, 0, [root])] else [];
    rows := [];
    ghost var k := 0;
    assert rows + working == working && (root in nodes ==> working[0].id == root);
    while working != []
      invariant Querying(nodes, root, rows, working, k)
      invariant k <= |nodes.Keys|
      decreases |nodes.Keys| + 1 - k
    {
      LevelIsShallow(nodes, root, working, k);
      var next := NextLevel(nodes, working, root, k);
      StepKeepsQuerying(nodes, root, rows, working, k, next);
      rows, working, k := rows + working, next, k + 1;
    }
    QueryIsSubtree(nodes, root, rows, k);
  }
}
