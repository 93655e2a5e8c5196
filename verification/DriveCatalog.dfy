/**
 The catalog of Drive files that the sync writes, and the agreement of the sync,
 the live listing and the membership test that guards an import.
 */
module DriveCatalog {
  import opened Wrappers
  import opened FolderMembership
  import opened FolderWalk

  type IntegrationId = nat

  datatype Row = Row(integration: IntegrationId, connected: bool)

  /** Files seen so far have a fresh row, all other rows are as they were. */
  ghost predicate Upserted(before: map<Id, Row>, rows: map<Id, Row>, d: Drive, integration: IntegrationId, seen: set<Id>) {
    && seen <= d.files.Keys
    && (forall f | f in seen :: f in rows && rows[f] == Row(integration, !d.files[f].trashed))
    && (forall f | f !in seen :: (f in rows <==> f in before) && (f in rows ==> rows[f] == before[f]))
  }

  /** After a sync: rows of this integration are CONNECTED only for what was seen and is not trashed. */
  ghost predicate Synced(before: map<Id, Row>, rows: map<Id, Row>, d: Drive, integration: IntegrationId, seen: set<Id>) {
    && (forall f :: f in rows <==> f in before || f in seen)
    && (forall f | f in seen && f in d.files :: rows[f] == Row(integration, !d.files[f].trashed))
    && (forall f | f in rows && f !in seen ::
          rows[f] == if before[f].integration == integration then Row(integration, false) else before[f])
  }

  predicate Importable(d: Drive, id: Id) {
    id in d.files && !d.files[id].trashed && !d.files[id].folder
  }

  class Catalog {
    var rows: map<Id, Row>

    method UpsertPage(d: Drive, integration: IntegrationId, page: seq<Id>, pending: seq<Id>, seen: set<Id>,
                      ghost before: map<Id, Row>)
      returns (nextPending: seq<Id>, nextSeen: set<Id>)
      requires Upserted(before, rows, d, integration, seen) && forall f | f in page :: f in d.files
      modifies this
      ensures Upserted(before, rows, d, integration, nextSeen)
      ensures forall c :: c in nextPending <==> c in pending || (c in page && OpenFolder(d, c))
      ensures forall f :: f in nextSeen <==> f in seen || f in page
    {
      nextPending, nextSeen := pending, seen;
      for j := 0 to |page|
        invariant Upserted(before, rows, d, integration, nextSeen)
        invariant forall f :: f in nextSeen <==> f in seen || f in page[..j]
      {
        assert page[..j + 1] == page[..j] + [page[j]];
        nextSeen := nextSeen + {page[j]};
        rows := rows[page[j] := Row(integration, !d.files[page[j]].trashed)];
      }
      assert page[..|page|] == page;
      for j := 0 to |page|
        invariant Upserted(before, rows, d, integration, nextSeen)
        invariant forall c :: c in nextPending <==> c in pending || (c in page[..j] && OpenFolder(d, c))
      {
        assert page[..j + 1] == page[..j] + [page[j]];
        if d.files[page[j]].folder && !d.files[page[j]].trashed {
          nextPending := nextPending + [page[j]];
        }
      }
    }

    method UpsertFolder(d: Drive, integration: IntegrationId, pages: Pages, pending: seq<Id>, seen: set<Id>,
                        ghost before: map<Id, Row>)
      returns (nextPending: seq<Id>, nextSeen: set<Id>)
      requires Upserted(before, rows, d, integration, seen) && forall f | Lists(pages, f) :: f in d.files
      modifies this
      ensures Upserted(before, rows, d, integration, nextSeen)
      ensures forall c :: c in nextPending <==> c in pending || (OpenFolder(d, c) && Lists(pages, c))
      ensures forall f :: f in nextSeen <==> f in seen || Lists(pages, f)
    {
      nextPending, nextSeen := pending, seen;
      for i := 0 to |pages|
        invariant Upserted(before, rows, d, integration, nextSeen)
        invariant forall c :: c in nextPending <==> c in pending || (OpenFolder(d, c) && ReadSoFar(pages, i, c))
        invariant forall f :: f in nextSeen <==> f in seen || ReadSoFar(pages, i, f)
      {
        assert forall f | f in pages[i] :: Lists(pages, f);
        nextPending, nextSeen := UpsertPage(d, integration, pages[i], nextPending, nextSeen, before);
      }
    }

    /** The sync has no size limit: it upserts everything below the root and disconnects the rest. */
    method SyncProviderFiles(d: Drive, root: Id, integration: IntegrationId)
      requires Snapshot(d, d.all)
      modifies this
      ensures Synced(old(rows), rows, d, integration, FilesBelow(d, d.all, root))
    {
      var seen, pending, visited: set<Id> := {}, [root], {};
      StartWalking(d, d.all, root);
      while pending != []
        invariant Walking(d, d.all, root, visited, pending, seen)
        invariant Upserted(old(rows), rows, d, integration, seen)
        invariant visited <= d.files.Keys + {root} && forall v | v in pending :: v in d.files.Keys + {root}
        decreases d.files.Keys + {root} - visited, |pending|
      {
        var parent := pending[0];
        if parent in visited {
          SkipKeepsWalking(d, d.all, root, visited, pending, seen);
          pending := pending[1..];
          continue;
        }
        var nextPending, nextSeen :=
          UpsertFolder(d, integration, PagesOf(d.all, parent), pending[1..], seen, old(rows));
        VisitKeepsWalking(d, d.all, root, visited, pending, seen, nextPending, nextSeen);
        visited, pending, seen := visited + {parent}, nextPending, nextSeen;
      }
      WalkIsComplete(d, d.all, root, visited, seen);
      assert seen == FilesBelow(d, d.all, root);
      rows := map f | f in rows ::
        if rows[f].integration == integration && f !in seen then rows[f].(connected := false) else rows[f];
    }

    /**
     A file picked in the live browser is put into the catalog iff it is a live
     file from which the root is met. In a consistent Drive that is: iff the
     root lies above it, unless more than 1000 folders lie beside the root.
     */
    method PrepareDriveFileForImport(d: Drive, root: Id, integration: IntegrationId, id: Id) returns (accepted: bool)
      modifies this
      ensures accepted <==> Importable(d, id) && MeetsRoot(d, root, d.files[id].parents)
      ensures Consistent(d, root) && Importable(d, id) && !ManyBeside(d, root, d.files[id].parents) ==>
        (accepted <==> Above(d, root, d.files[id].parents))
      ensures rows == if accepted then old(rows)[id := Row(integration, true)] else old(rows)
    {
      accepted := false;
      if id !in d.files || d.files[id].trashed || d.files[id].folder { return; }
      var within := IsWithinStorageFolder(d, root, d.files[id].parents);
      if within.Some? && within.value {
        accepted := true;
        rows := rows[id := Row(integration, !d.files[id].trashed)];
      }
      if Consistent(d, root) && !ManyBeside(d, root, d.files[id].parents) { MembershipIsRight(d, root, id); }
    }
  }

  /**
   The three walks agree. After a sync a row of the integration is CONNECTED iff
   its file is not trashed and below the root; and then, and only then, the live
   listing contains it and its parents lead up to the root.
   */
  lemma WalksAgree(before: map<Id, Row>, rows: map<Id, Row>, d: Drive, root: Id, integration: IntegrationId, id: Id)
    requires Consistent(d, root) && Synced(before, rows, d, integration, FilesBelow(d, d.all, root))
    requires id in d.files && !d.files[id].trashed
    requires id in before ==> before[id].integration == integration
    ensures (id in rows && rows[id] == Row(integration, true)) <==> id in FilesBelow(d, d.live, root)
    ensures id in FilesBelow(d, d.live, root) <==> Above(d, root, d.files[id].parents)
  {
    DownIffUp(d, root, id);
    AllReachesLive(d, root, id);
  }

  /**
   The import agrees with the live listing for files whose ways up stay inside
   it: listed means accepted, and accepted means listed.
   */
  lemma ListedIsImportable(d: Drive, root: Id, id: Id)
    requires Consistent(d, root) && Importable(d, id) && |FoldersBelow(d, d.live, root)| <= MAX_FOLDERS
    requires forall v | Beside(d, root, d.files[id].parents, v) :: FolderBelow(d, d.live, root, v)
    ensures id in FilesBelow(d, d.live, root) <==> MeetsRoot(d, root, d.files[id].parents)
  {
    DownIffUp(d, root, id);
    if Above(d, root, d.files[id].parents) { InsideIsMember(d, root, id); }
    if MeetsRoot(d, root, d.files[id].parents) { MeetsOnlyAbove(d, root, d.files[id].parents); }
  }

  /** No trashed file and no file outside is CONNECTED after a sync. */
  lemma NothingElseConnected(before: map<Id, Row>, rows: map<Id, Row>, d: Drive, root: Id, integration: IntegrationId, id: Id)
    requires Consistent(d, root) && Synced(before, rows, d, integration, FilesBelow(d, d.all, root))
    requires id in rows && rows[id] == Row(integration, true)
    ensures id in d.files && !d.files[id].trashed && Above(d, root, d.files[id].parents)
  {
    DownIffUp(d, root, id);
    AllReachesLive(d, root, id);
  }
}
