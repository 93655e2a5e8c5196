/**
 The membership test that guards an import. It climbs through parent links,
 breadth first, and gives up after 1000 folders. Its answer depends on the
 order in which ancestors are met, so that order is defined here on its own:
 the queue of everything that `met` puts before the walk, and the first entry
 of that queue that has not been met.
 */
module FolderMembership {
  import opened Collections
  import opened FolderWalk
  import opened Wrappers

  // ------------------------------------------------------------ the order of ancestors

  function ParentsOf(d: Drive, id: Id): seq<Id> {
    if id in d.files && !d.files[id].trashed then d.files[id].parents else []
  }

  /** The parents asked about, then the parents of each folder met. */
  function QueueOf(d: Drive, parents: seq<Id>, met: seq<Id>): seq<Id> {
    if met == [] then parents
    else QueueOf(d, parents, met[..|met| - 1]) + ParentsOf(d, met[|met| - 1])
  }

  predicate FirstUnmet(queue: seq<Id>, met: seq<Id>, next: Id) {
    next !in met && exists i | 0 <= i < |queue| :: queue[i] == next && forall q | q in queue[..i] :: q in met
  }

  ghost predicate IsNext(d: Drive, parents: seq<Id>, met: seq<Id>, next: Id) {
    FirstUnmet(QueueOf(d, parents, met), met, next)
  }

  /** Known folders in the order of a breadth-first climb. */
  ghost predicate InOrder(d: Drive, parents: seq<Id>, met: seq<Id>) {
    met == [] ||
    var before, last := met[..|met| - 1], met[|met| - 1];
    InOrder(d, parents, before) && IsNext(d, parents, before, last) && last in d.files
  }

  /** The climb comes to `next` right after `met`, without the root among them. */
  ghost predicate ComesTo(d: Drive, root: Id, parents: seq<Id>, met: seq<Id>, next: Id) {
    InOrder(d, parents, met) && root !in met && IsNext(d, parents, met, next)
  }

  /** At most 1000 folders are met before the root. */
  ghost predicate MeetsRoot(d: Drive, root: Id, parents: seq<Id>) {
    exists met :: ComesTo(d, root, parents, met, root) && |met| <= MAX_FOLDERS
  }

  /** A folder that cannot be fetched is met before the root and before the limit. */
  ghost predicate MeetsUnknown(d: Drive, root: Id, parents: seq<Id>) {
    exists met, next ::
      ComesTo(d, root, parents, met, next) && |met| < MAX_FOLDERS && next != root && next !in d.files
  }

  lemma NextIsUnique(queue: seq<Id>, met: seq<Id>, a: Id, b: Id)
    requires FirstUnmet(queue, met, a) && FirstUnmet(queue, met, b)
    ensures a == b
  {
    var i :| 0 <= i < |queue| && queue[i] == a && forall q | q in queue[..i] :: q in met;
    var j :| 0 <= j < |queue| && queue[j] == b && forall q | q in queue[..j] :: q in met;
  }

  lemma AddNext(d: Drive, parents: seq<Id>, met: seq<Id>, next: Id)
    requires InOrder(d, parents, met) && IsNext(d, parents, met, next) && next in d.files
    ensures InOrder(d, parents, met + [next])
    ensures QueueOf(d, parents, met + [next]) == QueueOf(d, parents, met) + ParentsOf(d, next)
  {
    assert (met + [next])[..|met|] == met;
  }

  /** The order is fixed: two climbs come to the same folder until one of them ends. */
  lemma {:induction false} OrderIsFixed(d: Drive, parents: seq<Id>, a: seq<Id>, b: seq<Id>)
    requires InOrder(d, parents, a) && InOrder(d, parents, b) && |a| <= |b|
    ensures a == b[..|a|]
    ensures |a| < |b| ==> IsNext(d, parents, a, b[|a|]) && b[|a|] in d.files
    decreases |b|
  {
    if b != [] {
      var n := |b| - 1;
      if |a| < |b| {
        OrderIsFixed(d, parents, a, b[..n]);
        assert b[..n][..|a|] == b[..|a|];
      } else {
        OrderIsFixed(d, parents, a[..n], b[..n]);
        assert a[..n] == b[..n];
        NextIsUnique(QueueOf(d, parents, a[..n]), a[..n], a[n], b[n]);
        assert a == a[..n] + [a[n]] && b == b[..n] + [b[n]];
      }
    }
  }

  lemma Continues(d: Drive, parents: seq<Id>, met: seq<Id>, other: seq<Id>, next: Id)
    requires InOrder(d, parents, met) && InOrder(d, parents, other) && IsNext(d, parents, other, next)
    ensures |other| < |met| ==> met[|other|] == next
    ensures |other| == |met| ==> IsNext(d, parents, met, next)
    ensures |other| > |met| ==> IsNext(d, parents, met, other[|met|]) && other[|met|] in d.files
  {
    if |other| <= |met| {
      OrderIsFixed(d, parents, other, met);
      if |other| < |met| { NextIsUnique(QueueOf(d, parents, other), other, next, met[|other|]); }
      else { assert other == met; }
    } else {
      OrderIsFixed(d, parents, met, other);
    }
  }

  /** Folders met are known and all different. */
  lemma {:induction false} MetAreKnown(d: Drive, parents: seq<Id>, met: seq<Id>)
    requires InOrder(d, parents, met)
    ensures |Elements(met)| == |met| && forall v | v in met :: v in d.files
  {
    if met != [] {
      var n := |met| - 1;
      MetAreKnown(d, parents, met[..n]);
      AddElement(met[..n], met[n]);
      assert met == met[..n] + [met[n]];
    }
  }

  /** A climb past the limit, or one that finds nothing more, has no other way to the root. */
  lemma NoOtherWay(d: Drive, root: Id, parents: seq<Id>, met: seq<Id>)
    requires InOrder(d, parents, met) && root !in met && !IsNext(d, parents, met, root)
    requires |met| < MAX_FOLDERS ==> forall next | IsNext(d, parents, met, next) :: next !in d.files
    ensures !MeetsRoot(d, root, parents)
  {
    if MeetsRoot(d, root, parents) {
      var other :| ComesTo(d, root, parents, other, root) && |other| <= MAX_FOLDERS;
      Continues(d, parents, met, other, root);
    }
  }

  /** Nor to a folder that cannot be fetched. */
  lemma NothingUnknown(d: Drive, root: Id, parents: seq<Id>, met: seq<Id>)
    requires InOrder(d, parents, met) && root !in met
    requires |met| < MAX_FOLDERS ==> forall next | IsNext(d, parents, met, next) :: next == root
    ensures !MeetsUnknown(d, root, parents)
  {
    if MeetsUnknown(d, root, parents) {
      var other, unknown :| ComesTo(d, root, parents, other, unknown) && |other| < MAX_FOLDERS
        && unknown != root && unknown !in d.files;
      Continues(d, parents, met, other, unknown);
      MetAreKnown(d, parents, met);
      MetAreKnown(d, parents, other);
    }
  }

  // ------------------------------------------------------------ order and reachability

  /** An ancestor on some way up that does not pass the root. */
  ghost predicate Beside(d: Drive, root: Id, parents: seq<Id>, v: Id) {
    exists path :: UpPath(d, v, parents, path) && root !in path
  }

  ghost predicate AllBeside(d: Drive, root: Id, parents: seq<Id>, folders: set<Id>) {
    forall v | v in folders :: Beside(d, root, parents, v)
  }

  /** More than 1000 different folders can be met before the root. */
  ghost predicate ManyBeside(d: Drive, root: Id, parents: seq<Id>) {
    exists folders :: AllBeside(d, root, parents, folders) && |folders| > MAX_FOLDERS
  }

  /** One more step up, past the root or not. */
  lemma ClimbOn(d: Drive, parents: seq<Id>, path: seq<Id>, v: Id, p: Id)
    requires UpPath(d, v, parents, path) && UpEdge(d, v, p)
    ensures UpPath(d, p, parents, path + [p])
  {
    var more := path + [p];
    forall i, j | 0 <= i < |more| - 1 && j == i + 1 ensures UpEdge(d, more[i], more[j]) {
      if j < |path| { assert UpEdge(d, path[i], path[j]); }
    }
  }

  lemma {:induction false} QueueComesFrom(d: Drive, parents: seq<Id>, met: seq<Id>, q: Id)
    ensures q in QueueOf(d, parents, met) <==> q in parents || exists v :: v in met && q in ParentsOf(d, v)
  {
    if met != [] {
      var n := |met| - 1;
      QueueComesFrom(d, parents, met[..n], q);
      assert met == met[..n] + [met[n]];
    }
  }

  /** Whatever the climb meets lies above, and what it met before the root lies beside it. */
  lemma {:induction false} MetIsBeside(d: Drive, root: Id, parents: seq<Id>, met: seq<Id>, next: Id)
    requires ComesTo(d, root, parents, met, next)
    ensures forall v | v in met :: Beside(d, root, parents, v)
    ensures Above(d, next, parents) && (next != root ==> Beside(d, root, parents, next))
    decreases |met|
  {
    if met != [] {
      var n := |met| - 1;
      MetIsBeside(d, root, parents, met[..n], met[n]);
      assert met == met[..n] + [met[n]];
    }
    QueueComesFrom(d, parents, met, next);
    if next in parents {
      assert UpPath(d, next, parents, [next]);
    } else {
      var v :| v in met && next in ParentsOf(d, v);
      var path :| UpPath(d, v, parents, path) && root !in path;
      ClimbOn(d, parents, path, v, next);
    }
  }

  /** When nothing unmet is queued, everything above has been met. */
  lemma {:induction false} AllMet(d: Drive, parents: seq<Id>, met: seq<Id>, path: seq<Id>, last: Id)
    requires forall q | q in QueueOf(d, parents, met) :: q in met
    requires UpPath(d, last, parents, path)
    ensures last in met
    decreases |path|
  {
    if |path| > 1 {
      var n := |path| - 1;
      assert UpEdge(d, path[n - 1], path[n]);
      AllMet(d, parents, met, path[..n], path[n - 1]);
      assert last in ParentsOf(d, path[n - 1]);
    }
    QueueComesFrom(d, parents, met, last);
  }

  lemma {:induction false} SomeNext(queue: seq<Id>, met: seq<Id>)
    requires exists q :: q in queue && q !in met
    ensures exists next :: FirstUnmet(queue, met, next)
  {
    if queue[0] !in met {
      assert FirstUnmet(queue, met, queue[0]);
    } else {
      SomeNext(queue[1..], met);
      var next :| FirstUnmet(queue[1..], met, next);
      var i :| 0 <= i < |queue[1..]| && queue[1..][i] == next && forall q | q in queue[1..][..i] :: q in met;
      assert queue[..i + 1] == [queue[0]] + queue[1..][..i];
      assert FirstUnmet(queue, met, next);
    }
  }

  /** If the root lies above, the climb meets it, unless there are too many or unknown folders beside it. */
  lemma {:induction false} RootIsMet(d: Drive, root: Id, parents: seq<Id>, met: seq<Id>)
    requires Above(d, root, parents) && !ManyBeside(d, root, parents)
    requires forall v | Beside(d, root, parents, v) :: v in d.files
    requires InOrder(d, parents, met) && root !in met && forall v | v in met :: Beside(d, root, parents, v)
    ensures MeetsRoot(d, root, parents)
    decreases d.files.Keys - Elements(met)
  {
    var queue := QueueOf(d, parents, met);
    if forall q | q in queue :: q in met {
      var path :| UpPath(d, root, parents, path);
      AllMet(d, parents, met, path, root);
      assert false;
    } else {
      SomeNext(queue, met);
      var next :| FirstUnmet(queue, met, next);
      MetAreKnown(d, parents, met);
      assert AllBeside(d, root, parents, Elements(met));
      if next != root {
        MetIsBeside(d, root, parents, met, next);
        AddNext(d, parents, met, next);
        AddElement(met, next);
        RootIsMet(d, root, parents, met + [next]);
      }
    }
  }

  lemma MeetsOnlyAbove(d: Drive, root: Id, parents: seq<Id>)
    requires MeetsRoot(d, root, parents)
    ensures Above(d, root, parents)
  {
    var met :| ComesTo(d, root, parents, met, root) && |met| <= MAX_FOLDERS;
    MetIsBeside(d, root, parents, met, root);
  }

  /** In a consistent Drive nothing above a known file is unknown but the root. */
  lemma AncestorsAreKnown(d: Drive, root: Id, id: Id, path: seq<Id>, v: Id)
    requires Consistent(d, root) && id in d.files && UpPath(d, v, d.files[id].parents, path)
    ensures v in d.files || v == root
  {
    var n := |path| - 1;
    if n > 0 { assert UpEdge(d, path[n - 1], path[n]); }
  }

  /** In a consistent Drive the test is right, unless more than 1000 folders lie beside the root. */
  lemma MembershipIsRight(d: Drive, root: Id, id: Id)
    requires Consistent(d, root) && id in d.files && !ManyBeside(d, root, d.files[id].parents)
    ensures MeetsRoot(d, root, d.files[id].parents) <==> Above(d, root, d.files[id].parents)
    ensures !MeetsUnknown(d, root, d.files[id].parents)
  {
    var parents := d.files[id].parents;
    forall v | Beside(d, root, parents, v) ensures v in d.files {
      var path :| UpPath(d, v, parents, path) && root !in path;
      AncestorsAreKnown(d, root, id, path, v);
    }
    if MeetsRoot(d, root, parents) { MeetsOnlyAbove(d, root, parents); }
    if Above(d, root, parents) { RootIsMet(d, root, parents, []); }
    if MeetsUnknown(d, root, parents) {
      var met, next :| ComesTo(d, root, parents, met, next) && |met| < MAX_FOLDERS && next != root && next !in d.files;
      MetIsBeside(d, root, parents, met, next);
    }
  }

  /** A file of a listable tree is never denied if all its ways up stay below the root. */
  lemma InsideIsMember(d: Drive, root: Id, id: Id)
    requires Consistent(d, root) && id in d.files && Above(d, root, d.files[id].parents)
    requires |FoldersBelow(d, d.live, root)| <= MAX_FOLDERS
    requires forall v | Beside(d, root, d.files[id].parents, v) :: FolderBelow(d, d.live, root, v)
    ensures MeetsRoot(d, root, d.files[id].parents)
  {
    var parents := d.files[id].parents;
    if ManyBeside(d, root, parents) {
      var folders :| AllBeside(d, root, parents, folders) && |folders| > MAX_FOLDERS;
      forall v | v in folders ensures v in FoldersBelow(d, d.live, root) {
        var path :| UpPath(d, v, parents, path) && root !in path;
        AncestorsAreKnown(d, root, id, path, v);
      }
      SubsetSize(folders, FoldersBelow(d, d.live, root));
      assert false;
    }
    MembershipIsRight(d, root, id);
  }

  // ------------------------------------------------------------ the test

  /** What the climb keeps: `pending` is what is left of the queue of the folders met. */
  ghost predicate Climbing(d: Drive, root: Id, parents: seq<Id>, met: seq<Id>, done: nat, visited: set<Id>, pending: seq<Id>) {
    var queue := QueueOf(d, parents, met);
    && InOrder(d, parents, met) && root !in met
    && visited == Elements(met) && |visited| == |met|
    && done <= |queue| && pending == queue[done..] && forall q | q in queue[..done] :: q in met
  }

  lemma PendingIsNext(d: Drive, root: Id, parents: seq<Id>, met: seq<Id>, done: nat, visited: set<Id>, pending: seq<Id>)
    requires Climbing(d, root, parents, met, done, visited, pending)
    ensures pending != [] && pending[0] !in visited ==> IsNext(d, parents, met, pending[0])
    ensures pending == [] ==> forall next :: !IsNext(d, parents, met, next)
  {
    var queue := QueueOf(d, parents, met);
    if pending == [] { assert queue[..done] == queue; }
  }

  lemma StartClimbing(d: Drive, root: Id, parents: seq<Id>)
    ensures Climbing(d, root, parents, [], 0, {}, parents)
  {
  }

  lemma SkipKeepsClimbing(d: Drive, root: Id, parents: seq<Id>, met: seq<Id>, done: nat, visited: set<Id>, pending: seq<Id>)
    requires Climbing(d, root, parents, met, done, visited, pending) && pending != [] && pending[0] in visited
    ensures Climbing(d, root, parents, met, done + 1, visited, pending[1..])
  {
    var queue := QueueOf(d, parents, met);
    assert queue[..done + 1] == queue[..done] + [pending[0]];
  }

  lemma MeetKeepsClimbing(d: Drive, root: Id, parents: seq<Id>, met: seq<Id>, done: nat, visited: set<Id>, pending: seq<Id>)
    requires Climbing(d, root, parents, met, done, visited, pending) && pending != []
    requires pending[0] !in visited && pending[0] in d.files && pending[0] != root
    ensures Climbing(d, root, parents, met + [pending[0]], done + 1, visited + {pending[0]},
                     pending[1..] + ParentsOf(d, pending[0]))
  {
    hide InOrder, QueueOf, IsNext, ParentsOf;
    var next, queue := pending[0], QueueOf(d, parents, met);
    PendingIsNext(d, root, parents, met, done, visited, pending);
    AddNext(d, parents, met, next);
    AddElement(met, next);
    assert (queue + ParentsOf(d, next))[..done + 1] == queue[..done] + [next];
  }

  /** Where the climb stops decides the answer. */
  lemma StopIsRight(d: Drive, root: Id, parents: seq<Id>, met: seq<Id>, next: Id)
    requires ComesTo(d, root, parents, met, next) && |met| <= MAX_FOLDERS
    requires next == root || next !in d.files || |met| == MAX_FOLDERS
    ensures MeetsRoot(d, root, parents) <==> next == root
    ensures MeetsUnknown(d, root, parents) <==> next != root && |met| < MAX_FOLDERS
  {
    forall other | IsNext(d, parents, met, other) ensures other == next {
      NextIsUnique(QueueOf(d, parents, met), met, next, other);
    }
    if next != root { NoOtherWay(d, root, parents, met); }
    if next == root || |met| == MAX_FOLDERS { NothingUnknown(d, root, parents, met); }
  }

  /**
   Whether the root lies above. The answer is yes iff the root is met after at
   most 1000 other folders, and an error iff a folder that cannot be fetched is
   met before that.
   */
  method IsWithinStorageFolder(d: Drive, root: Id, parents: seq<Id>) returns (within: Option<bool>)
    ensures within == Some(true) <==> MeetsRoot(d, root, parents)
    ensures within.None? <==> MeetsUnknown(d, root, parents)
  {
    hide QueueOf, IsNext, MeetsRoot, MeetsUnknown;
    var pending, visited: set<Id> := parents, {};
    StartClimbing(d, root, parents);
    ghost var met, done := [], 0;
    while pending != []
      invariant Climbing(d, root, parents, met, done, visited, pending)
      invariant visited <= d.files.Keys && |visited| <= MAX_FOLDERS
      decreases d.files.Keys - visited, |pending|
    {
      var parent := pending[0];
      PendingIsNext(d, root, parents, met, done, visited, pending);
      if parent == root {
        StopIsRight(d, root, parents, met, parent);
        return Some(true);
      }
      if parent in visited {
        SkipKeepsClimbing(d, root, parents, met, done, visited, pending);
        pending, done := pending[1..], done + 1;
        continue;
      }
      visited := visited + {parent};
      if |visited| > MAX_FOLDERS {
        StopIsRight(d, root, parents, met, parent);
        return Some(false);
      }
      if parent !in d.files {
        StopIsRight(d, root, parents, met, parent);
        return None;
      }
      MeetKeepsClimbing(d, root, parents, met, done, visited - {parent}, pending);
      met, done := met + [parent], done + 1;
      if d.files[parent].trashed {
        pending := pending[1..];
        continue;
      }
      pending := pending[1..] + d.files[parent].parents;
    }
    PendingIsNext(d, root, parents, met, done, visited, pending);
    NoOtherWay(d, root, parents, met);
    NothingUnknown(d, root, parents, met);
    within := Some(false);
  }

  // ------------------------------------------------------------ a file that is denied

  const FILE: Id := 1

  /** 1001 folders that are nobody's children. */
  function Strangers(): seq<Id> {
    seq(MAX_FOLDERS + 1, i => i + 2)
  }

  /** One file whose first parents are those folders and whose last parent is the root, 0. */
  function CrowdedDrive(): Drive {
    var parents := Strangers() + [0];
    var folders := map v | v in parents :: File(true, false, []);
    var listing := map v | v in parents :: [[FILE]];
    Drive(folders[FILE := File(false, false, parents)], listing, listing)
  }

  predicate AreStrangers(d: Drive, strangers: seq<Id>, root: Id) {
    && NoRepeats(strangers)
    && (forall v | v in strangers :: v != root && ParentsOf(d, v) == [])
  }

  lemma NextStranger(d: Drive, strangers: seq<Id>, root: Id, met: seq<Id>, next: Id)
    requires AreStrangers(d, strangers, root) && met <= strangers && FirstUnmet(strangers + [root], met, next)
    ensures next == (strangers + [root])[|met|]
  {
    var queue := strangers + [root];
    assert queue[..|met|] == met && queue[|met|] !in met;
    NextIsUnique(queue, met, next, queue[|met|]);
  }

  /** Folders without parents add nothing to the queue, so they are met one after another. */
  lemma {:induction false} StrangersFirst(d: Drive, strangers: seq<Id>, root: Id, met: seq<Id>, next: Id)
    requires AreStrangers(d, strangers, root) && ComesTo(d, root, strangers + [root], met, next)
    ensures met <= strangers && QueueOf(d, strangers + [root], met) == strangers + [root]
    ensures next == (strangers + [root])[|met|]
    decreases |met|
  {
    var queue, n := strangers + [root], |met| - 1;
    hide FirstUnmet;
    if met != [] {
      StrangersFirst(d, strangers, root, met[..n], met[n]);
      assert met[n] == queue[n] && met[n] != root;
      assert met == met[..n] + [met[n]];
      assert met <= strangers && ParentsOf(d, met[n]) == [];
    }
    assert QueueOf(d, queue, met) == queue;
    NextStranger(d, strangers, root, met, next);
  }

  lemma CrowdedIsConsistent()
    ensures Consistent(CrowdedDrive(), 0)
  {
    var d := CrowdedDrive();
    assert forall p | p in d.live :: FILE in PagesOf(d.live, p)[0];
    assert forall v | v in Strangers() :: v != FILE;
  }

  /** The live listing of the root finds the file and no folder. */
  lemma CrowdedIsListed()
    ensures var d := CrowdedDrive(); FilesBelow(d, d.live, 0) == {FILE} && FoldersBelow(d, d.live, 0) == {0}
  {
    var d := CrowdedDrive();
    StartWalking(d, d.live, 0);
    assert FILE in PagesOf(d.live, 0)[0];
    VisitKeepsWalking(d, d.live, 0, {}, [0], {}, [], {FILE});
    assert {} + {[0][0]} == {0};
    WalkIsComplete(d, d.live, 0, {0}, {FILE});
  }

  lemma CrowdedIsDenied()
    ensures var d := CrowdedDrive();
      Above(d, 0, d.files[FILE].parents) && !MeetsRoot(d, 0, d.files[FILE].parents)
  {
    var d, parents := CrowdedDrive(), Strangers() + [0];
    assert parents[MAX_FOLDERS + 1] == 0;
    assert UpPath(d, 0, parents, [0]);
    assert AreStrangers(d, Strangers(), 0);
    hide CrowdedDrive, AreStrangers, IsNext, InOrder, QueueOf;
    if MeetsRoot(d, 0, parents) {
      var met :| ComesTo(d, 0, parents, met, 0) && |met| <= MAX_FOLDERS;
      StrangersFirst(d, Strangers(), 0, met, 0);
    }
  }

  /**
   The test denies a file that the live listing shows: the Drive is consistent,
   the root is a parent of the file, and the listing of the root is that file.
   */
  lemma ListedFileIsDenied()
    ensures var d := CrowdedDrive();
      && Consistent(d, 0)
      && FilesBelow(d, d.live, 0) == {FILE} && FoldersBelow(d, d.live, 0) == {0}
      && Above(d, 0, d.files[FILE].parents)
      && !MeetsRoot(d, 0, d.files[FILE].parents)
  {
    CrowdedIsConsistent();
    CrowdedIsListed();
    CrowdedIsDenied();
  }
}
