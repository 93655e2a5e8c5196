/**
 The walks over the configured Drive folder: the catalog sync and the live
 listing go down through paged folder listings, the membership test
 (`FolderMembership`) goes up through parent links. A Drive is one snapshot: what `getFile` says of each
 file, and the pages each folder is listed in, with and without trashed files.
 Cycles and several parents are allowed.
 */
module FolderWalk {
  import opened Collections
  import opened Wrappers

  type Id = nat

  const MAX_FILES := 5000
  const MAX_FOLDERS := 1000

  datatype File = File(folder: bool, trashed: bool, parents: seq<Id>)

  type Pages = seq<seq<Id>>

  datatype Drive = Drive(files: map<Id, File>, live: map<Id, Pages>, all: map<Id, Pages>)

  function PagesOf(listing: map<Id, Pages>, parent: Id): Pages {
    if parent in listing then listing[parent] else []
  }

  predicate Lists(pages: Pages, id: Id) {
    exists i | 0 <= i < |pages| :: id in pages[i]
  }

  /** Listings only name files the Drive knows. */
  ghost predicate Snapshot(d: Drive, listing: map<Id, Pages>) {
    forall p, f | p in listing && Lists(listing[p], f) :: f in d.files
  }

  predicate OpenFolder(d: Drive, id: Id) {
    id in d.files && d.files[id].folder && !d.files[id].trashed
  }

  // ------------------------------------------------------------ reachability

  predicate DownEdge(d: Drive, listing: map<Id, Pages>, parent: Id, folder: Id) {
    OpenFolder(d, folder) && Lists(PagesOf(listing, parent), folder)
  }

  predicate UpEdge(d: Drive, id: Id, parent: Id) {
    id in d.files && !d.files[id].trashed && parent in d.files[id].parents
  }

  /** From the root through folders that are listed and not trashed. */
  ghost predicate DownPath(d: Drive, listing: map<Id, Pages>, root: Id, path: seq<Id>) {
    && path != [] && path[0] == root
    && (forall i, j | 0 <= i < |path| - 1 && j == i + 1 :: DownEdge(d, listing, path[i], path[j]))
  }

  ghost predicate FolderBelow(d: Drive, listing: map<Id, Pages>, root: Id, folder: Id) {
    exists path :: DownPath(d, listing, root, path) && path[|path| - 1] == folder
  }

  ghost predicate Below(d: Drive, listing: map<Id, Pages>, root: Id, id: Id) {
    exists folder :: FolderBelow(d, listing, root, folder) && Lists(PagesOf(listing, folder), id)
  }

  /** From one of the parents through parents of files that are not trashed to the root. */
  ghost predicate UpPath(d: Drive, root: Id, parents: seq<Id>, path: seq<Id>) {
    && path != [] && path[0] in parents && path[|path| - 1] == root
    && (forall i, j | 0 <= i < |path| - 1 && j == i + 1 :: UpEdge(d, path[i], path[j]))
  }

  ghost predicate Above(d: Drive, root: Id, parents: seq<Id>) {
    exists path :: UpPath(d, root, parents, path)
  }

  /** The parent relation reads the same in both directions, and parents are folders. */
  ghost predicate Consistent(d: Drive, root: Id) {
    && (forall p, f :: Lists(PagesOf(d.live, p), f) <==> f in d.files && !d.files[f].trashed && p in d.files[f].parents)
    && (forall p, f :: Lists(PagesOf(d.all, p), f) <==> f in d.files && p in d.files[f].parents)
    && (forall f, p | f in d.files && p in d.files[f].parents ::
          if p in d.files then d.files[p].folder else p == root)
  }

  function Reversed(s: seq<Id>): (r: seq<Id>)
    ensures |r| == |s| && forall i | 0 <= i < |s| :: r[i] == s[|s| - 1 - i]
  {
    if s == [] then [] else Reversed(s[1..]) + [s[0]]
  }

  lemma EdgesAgree(d: Drive, root: Id, parent: Id, folder: Id)
    requires Consistent(d, root)
    ensures DownEdge(d, d.live, parent, folder) <==> UpEdge(d, folder, parent) && d.files[folder].folder
  {
  }

  lemma DownIsUp(d: Drive, root: Id, id: Id)
    requires Consistent(d, root) && id in d.files && Below(d, d.live, root, id)
    ensures Above(d, root, d.files[id].parents)
  {
    var folder :| FolderBelow(d, d.live, root, folder) && Lists(PagesOf(d.live, folder), id);
    var path :| DownPath(d, d.live, root, path) && path[|path| - 1] == folder;
    var up := Reversed(path);
    assert up[0] in d.files[id].parents;
    forall i, j | 0 <= i < |up| - 1 && j == i + 1 ensures UpEdge(d, up[i], up[j]) {
      var a, b := |path| - 1 - j, |path| - 1 - i;
      assert DownEdge(d, d.live, path[a], path[b]);
      EdgesAgree(d, root, path[a], path[b]);
    }
    hide Consistent, FolderBelow, DownPath;
    assert UpPath(d, root, d.files[id].parents, up);
  }

  lemma UpIsDown(d: Drive, root: Id, id: Id)
    requires Consistent(d, root) && id in d.files && !d.files[id].trashed
    requires Above(d, root, d.files[id].parents)
    ensures Below(d, d.live, root, id)
  {
    var up :| UpPath(d, root, d.files[id].parents, up);
    var path := Reversed(up);
    forall i, j | 0 <= i < |path| - 1 && j == i + 1 ensures DownEdge(d, d.live, path[i], path[j]) {
      var a, b := |up| - 1 - j, |up| - 1 - i;
      assert UpEdge(d, up[a], up[b]);
      var child := if a == 0 then id else up[a - 1];
      assert a > 0 ==> UpEdge(d, up[a - 1], up[a]);
      assert up[a] in d.files[child].parents;
      EdgesAgree(d, root, up[b], up[a]);
    }
    assert Lists(PagesOf(d.live, up[0]), id);
    hide Consistent, UpPath;
    assert DownPath(d, d.live, root, path) && path[|path| - 1] == up[0];
    assert FolderBelow(d, d.live, root, up[0]);
  }

  /** The live listing reaches a file that is not trashed iff its parents lead up to the root. */
  lemma DownIffUp(d: Drive, root: Id, id: Id)
    requires Consistent(d, root) && id in d.files && !d.files[id].trashed
    ensures Below(d, d.live, root, id) <==> Above(d, root, d.files[id].parents)
  {
    if Below(d, d.live, root, id) { DownIsUp(d, root, id); }
    if Above(d, root, d.files[id].parents) { UpIsDown(d, root, id); }
  }

  /** Trashed files aside, the sync's listing reaches the same files as the live one. */
  lemma AllReachesLive(d: Drive, root: Id, id: Id)
    requires Consistent(d, root) && id in d.files && !d.files[id].trashed
    ensures Below(d, d.all, root, id) <==> Below(d, d.live, root, id)
  {
    forall path ensures DownPath(d, d.all, root, path) <==> DownPath(d, d.live, root, path) {
      PathsAgree(d, root, path);
    }
    forall folder ensures FolderBelow(d, d.all, root, folder) <==> FolderBelow(d, d.live, root, folder) {}
  }

  lemma PathsAgree(d: Drive, root: Id, path: seq<Id>)
    requires Consistent(d, root)
    ensures DownPath(d, d.all, root, path) <==> DownPath(d, d.live, root, path)
  {
    forall p, f ensures DownEdge(d, d.all, p, f) <==> DownEdge(d, d.live, p, f) {}
  }

  // ------------------------------------------------------------ going down

  /** What both downward walks keep between two folders. */
  ghost predicate Walking(d: Drive, listing: map<Id, Pages>, root: Id, visited: set<Id>, pending: seq<Id>, found: set<Id>) {
    && (forall v | v in visited || v in pending :: FolderBelow(d, listing, root, v))
    && (root in visited || root in pending)
    && (forall v, c | v in visited && DownEdge(d, listing, v, c) :: c in visited || c in pending)
    && (forall f :: f in found <==> ListedBy(listing, visited, f))
  }

  ghost predicate ListedBy(listing: map<Id, Pages>, visited: set<Id>, f: Id) {
    exists v :: v in visited && Lists(PagesOf(listing, v), f)
  }

  lemma {:induction false} PathVisited(d: Drive, listing: map<Id, Pages>, root: Id, visited: set<Id>, found: set<Id>,
                                       path: seq<Id>)
    requires Walking(d, listing, root, visited, [], found) && DownPath(d, listing, root, path)
    ensures path[|path| - 1] in visited
    decreases |path|
  {
    var last := |path| - 1;
    if last > 0 {
      assert DownEdge(d, listing, path[last - 1], path[last]);
      PathVisited(d, listing, root, visited, found, path[..last]);
    }
  }

  /** When nothing is pending, the walk has seen exactly what lies below the root. */
  lemma WalkIsComplete(d: Drive, listing: map<Id, Pages>, root: Id, visited: set<Id>, found: set<Id>)
    requires Walking(d, listing, root, visited, [], found)
    ensures forall v :: v in visited <==> FolderBelow(d, listing, root, v)
    ensures forall f :: f in found <==> Below(d, listing, root, f)
  {
    forall v | FolderBelow(d, listing, root, v) ensures v in visited {
      var path :| DownPath(d, listing, root, path) && path[|path| - 1] == v;
      PathVisited(d, listing, root, visited, found, path);
    }
    forall f | f in found ensures Below(d, listing, root, f) {
      var v :| v in visited && Lists(PagesOf(listing, v), f);
      assert FolderBelow(d, listing, root, v);
    }
    forall f | Below(d, listing, root, f) ensures f in found {
      var v :| FolderBelow(d, listing, root, v) && Lists(PagesOf(listing, v), f);
      assert v in visited;
      assert ListedBy(listing, visited, f);
    }
  }

  lemma StartWalking(d: Drive, listing: map<Id, Pages>, root: Id)
    ensures Walking(d, listing, root, {}, [root], {})
  {
    assert DownPath(d, listing, root, [root]) && [root][|[root]| - 1] == root;
    assert FolderBelow(d, listing, root, root);
  }

  lemma ExtendPath(d: Drive, listing: map<Id, Pages>, root: Id, parent: Id, c: Id)
    requires FolderBelow(d, listing, root, parent) && DownEdge(d, listing, parent, c)
    ensures FolderBelow(d, listing, root, c)
  {
    var path :| DownPath(d, listing, root, path) && path[|path| - 1] == parent;
    var more := path + [c];
    forall i, j | 0 <= i < |more| - 1 && j == i + 1 ensures DownEdge(d, listing, more[i], more[j]) {
      if j < |path| { assert DownEdge(d, listing, path[i], path[j]); }
    }
    assert DownPath(d, listing, root, more) && more[|more| - 1] == c;
  }

  /** The first pending folder is skipped if it was visited before. */
  lemma SkipKeepsWalking(d: Drive, listing: map<Id, Pages>, root: Id, visited: set<Id>, pending: seq<Id>, found: set<Id>)
    requires pending != [] && Walking(d, listing, root, visited, pending, found) && pending[0] in visited
    ensures Walking(d, listing, root, visited, pending[1..], found)
  {
  }

  /** Reading a folder adds what it lists, and its open folders to what is pending. */
  lemma VisitKeepsWalking(d: Drive, listing: map<Id, Pages>, root: Id, visited: set<Id>, pending: seq<Id>, found: set<Id>,
                          nextPending: seq<Id>, nextFound: set<Id>)
    requires pending != [] && Walking(d, listing, root, visited, pending, found)
    requires forall c :: c in nextPending <==> c in pending[1..] || DownEdge(d, listing, pending[0], c)
    requires forall f :: f in nextFound <==> f in found || Lists(PagesOf(listing, pending[0]), f)
    ensures Walking(d, listing, root, visited + {pending[0]}, nextPending, nextFound)
  {
    forall v | v in visited + {pending[0]} || v in nextPending ensures FolderBelow(d, listing, root, v) {
      if v !in visited && v !in pending { ExtendPath(d, listing, root, pending[0], v); }
    }
    var more := visited + {pending[0]};
    forall f ensures f in nextFound <==> ListedBy(listing, more, f) {
      if f in found {
        var v :| v in visited && Lists(PagesOf(listing, v), f);
        assert v in more;
      }
      if Lists(PagesOf(listing, pending[0]), f) { assert pending[0] in more; }
    }
  }

  ghost function FilesBelow(d: Drive, listing: map<Id, Pages>, root: Id): set<Id> {
    set f | f in d.files && Below(d, listing, root, f)
  }

  ghost function FoldersBelow(d: Drive, listing: map<Id, Pages>, root: Id): set<Id> {
    set v | v in d.files.Keys + {root} && FolderBelow(d, listing, root, v)
  }

  /** The part of a folder read so far. */
  predicate ReadSoFar(pages: Pages, i: nat, f: Id)
    requires i <= |pages|
  {
    exists k | 0 <= k < i :: f in pages[k]
  }

  method ReadLivePage(d: Drive, page: seq<Id>, pending: seq<Id>, files: set<Id>)
    returns (nextPending: seq<Id>, nextFiles: set<Id>)
    requires forall f | f in page :: f in d.files
    ensures forall c :: c in nextPending <==> c in pending || (c in page && OpenFolder(d, c))
    ensures nextFiles == files + (set f | f in page)
  {
    nextPending, nextFiles := pending, files;
    for j := 0 to |page|
      invariant forall c :: c in nextPending <==> c in pending || (c in page[..j] && OpenFolder(d, c))
      invariant nextFiles == files + (set f | f in page[..j])
    {
      assert page[..j + 1] == page[..j] + [page[j]];
      nextFiles := nextFiles + {page[j]};
      if d.files[page[j]].folder && !d.files[page[j]].trashed {
        nextPending := nextPending + [page[j]];
      }
    }
    assert page[..|page|] == page;
  }

  method ReadLiveFolder(d: Drive, pages: Pages, pending: seq<Id>, files: set<Id>)
    returns (ok: bool, nextPending: seq<Id>, nextFiles: set<Id>)
    requires forall f | Lists(pages, f) :: f in d.files
    requires |files| <= MAX_FILES
    ensures files <= nextFiles && forall f | f in nextFiles :: f in files || Lists(pages, f)
    ensures ok <==> |nextFiles| <= MAX_FILES
    ensures ok ==> forall c :: c in nextPending <==> c in pending || (OpenFolder(d, c) && Lists(pages, c))
    ensures ok ==> forall f :: f in nextFiles <==> f in files || Lists(pages, f)
  {
    ok, nextPending, nextFiles := true, pending, files;
    for i := 0 to |pages|
      invariant |nextFiles| <= MAX_FILES
      invariant forall c :: c in nextPending <==> c in pending || (OpenFolder(d, c) && ReadSoFar(pages, i, c))
      invariant forall f :: f in nextFiles <==> f in files || ReadSoFar(pages, i, f)
    {
      assert forall f | f in pages[i] :: Lists(pages, f);
      nextPending, nextFiles := ReadLivePage(d, pages[i], nextPending, nextFiles);
      if |nextFiles| > MAX_FILES {
        ok := false;
        return;
      }
    }
  }

  /**
   The live listing: everything below the root, if and only if that is at most
   1000 folders and 5000 files; cycles end.
   */
  method ListLiveStorageFiles(d: Drive, root: Id) returns (result: Option<set<Id>>)
    requires Snapshot(d, d.live)
    ensures result.Some? <==>
      |FoldersBelow(d, d.live, root)| <= MAX_FOLDERS && |FilesBelow(d, d.live, root)| <= MAX_FILES
    ensures result.Some? ==> result.value == FilesBelow(d, d.live, root)
  {
    var files, pending, visited: set<Id> := {}, [root], {};
    StartWalking(d, d.live, root);
    while pending != []
      invariant Walking(d, d.live, root, visited, pending, files)
      invariant visited <= d.files.Keys + {root} && forall v | v in pending :: v in d.files.Keys + {root}
      invariant |visited| <= MAX_FOLDERS && |files| <= MAX_FILES
      decreases d.files.Keys + {root} - visited, |pending|
    {
      var parent := pending[0];
      if parent in visited {
        SkipKeepsWalking(d, d.live, root, visited, pending, files);
        pending := pending[1..];
        continue;
      }
      var nextVisited := visited + {parent};
      if |nextVisited| > MAX_FOLDERS {
        SubsetSize(nextVisited, FoldersBelow(d, d.live, root));
        return None;
      }
      var ok, nextPending, nextFiles := ReadLiveFolder(d, PagesOf(d.live, parent), pending[1..], files);
      if !ok {
        TooManyFiles(d, root, visited, pending, files, nextFiles);
        return None;
      }
      VisitKeepsWalking(d, d.live, root, visited, pending, files, nextPending, nextFiles);
      visited, pending, files := nextVisited, nextPending, nextFiles;
    }
    WalkIsComplete(d, d.live, root, visited, files);
    assert files == FilesBelow(d, d.live, root) && visited == FoldersBelow(d, d.live, root);
    result := Some(files);
  }

  lemma TooManyFiles(d: Drive, root: Id, visited: set<Id>, pending: seq<Id>, found: set<Id>, more: set<Id>)
    requires Snapshot(d, d.live) && pending != [] && Walking(d, d.live, root, visited, pending, found)
    requires forall f | f in more :: f in found || Lists(PagesOf(d.live, pending[0]), f)
    requires |more| > MAX_FILES
    ensures |FilesBelow(d, d.live, root)| > MAX_FILES
  {
    forall f | f in more ensures f in d.files && Below(d, d.live, root, f) {
      if f in found {
        var v :| v in visited && Lists(PagesOf(d.live, v), f);
        assert FolderBelow(d, d.live, root, v);
      } else {
        assert FolderBelow(d, d.live, root, pending[0]);
      }
    }
    SubsetSize(more, FilesBelow(d, d.live, root));
  }
}
