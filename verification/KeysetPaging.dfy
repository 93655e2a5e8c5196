/**
 Keyset pagination of the admin lists: rows in falling order of creation time
 and id, one page after another, each beginning strictly after the cursor the
 page before it returned. A table is the set of keys of the rows that match the
 request at the moment a page is read; it may change between pages.
 */
module KeysetPaging {
  import opened Collections
  import opened Wrappers

  datatype Key = Key(createdAt: nat, id: nat)

  type Table = set<Key>

  datatype Page = Page(items: seq<Key>, next: Option<Key>)

  /** The cursor condition: created earlier, or at the same time with a smaller id. */
  predicate Before(a: Key, b: Key) {
    a.createdAt < b.createdAt || (a.createdAt == b.createdAt && a.id < b.id)
  }

  predicate Past(cursor: Option<Key>, k: Key) {
    cursor.Some? ==> Before(k, cursor.value)
  }

  predicate Falling(keys: seq<Key>) {
    forall i, j | 0 <= i < j < |keys| :: Before(keys[j], keys[i])
  }

  /** The first `n` rows past the cursor, in falling order. */
  ghost predicate IsTop(t: Table, cursor: Option<Key>, n: nat, keys: seq<Key>) {
    && Falling(keys) && |keys| <= n
    && (forall k | k in keys :: k in t && Past(cursor, k))
    && (forall k, x | k in t && Past(cursor, k) && k !in keys && x in keys :: Before(k, x))
    && (|keys| < n ==> forall k | k in t && Past(cursor, k) :: k in keys)
  }

  method Newest(t: Table) returns (k: Key)
    requires t != {}
    ensures k in t && forall x | x in t && x != k :: Before(x, k)
  {
    k :| k in t;
    var rest := t - {k};
    while rest != {}
      invariant k in t && rest <= t && forall x | x in t && x !in rest && x != k :: Before(x, k)
      decreases rest
    {
      var x :| x in rest;
      if Before(k, x) { k := x; }
      rest := rest - {x};
    }
  }

  method FindMany(t: Table, cursor: Option<Key>, take: nat) returns (keys: seq<Key>)
    ensures IsTop(t, cursor, take, keys)
    ensures forall i, j | 0 <= i < j < |keys| ::
      keys[j].createdAt < keys[i].createdAt || (keys[j].createdAt == keys[i].createdAt && keys[j].id < keys[i].id)
    ensures cursor.Some? ==> forall k | k in keys ::
      k.createdAt < cursor.value.createdAt || (k.createdAt == cursor.value.createdAt && k.id < cursor.value.id)
  {
    var rest := set k | k in t && Past(cursor, k);
    keys := [];
    while rest != {} && |keys| < take
      invariant forall k | k in rest :: k in t && Past(cursor, k)
      invariant forall k | k in t && Past(cursor, k) :: k in rest || k in keys
      invariant forall k | k in keys :: k in t && Past(cursor, k)
      invariant forall k, x | k in rest && x in keys :: Before(k, x)
      invariant Falling(keys) && |keys| <= take
    {
      var k := Newest(rest);
      keys := keys + [k];
      rest := rest - {k};
    }
  }

  /** One more row than the page holds tells whether there is a next page. */
  ghost predicate IsPage(t: Table, cursor: Option<Key>, limit: nat, page: Page)
    requires limit > 0
  {
    && IsTop(t, cursor, limit, page.items)
    && (page.next.Some? ==> |page.items| == limit && page.next.value == page.items[limit - 1])
    && (page.next.Some? <==> exists k :: k in t && Past(cursor, k) && k !in page.items)
  }

  method ListPage(t: Table, cursor: Option<Key>, limit: nat) returns (page: Page)
    requires limit > 0
    ensures IsPage(t, cursor, limit, page)
    ensures forall i, j | 0 <= i < j < |page.items| ::
      || page.items[j].createdAt < page.items[i].createdAt
      || (page.items[j].createdAt == page.items[i].createdAt && page.items[j].id < page.items[i].id)
  {
    var records := FindMany(t, cursor, limit + 1);
    if |records| > limit {
      assert records[limit] in t && records[limit] !in records[..limit];
      page := Page(records[..limit], Some(records[limit - 1]));
    } else {
      page := Page(records, None);
    }
  }

  // ------------------------------------------------------------ following the cursors

  function CursorAt(pages: seq<Page>, i: nat): Option<Key>
    requires i <= |pages|
  {
    if i == 0 then None else pages[i - 1].next
  }

  /** Each page is read from the table as it is then; only the last may be without a cursor. */
  ghost predicate Follows(tables: seq<Table>, limit: nat, pages: seq<Page>)
    requires limit > 0
    decreases |pages|
  {
    && |tables| == |pages| > 0
    && var n := |pages| - 1;
    && IsPage(tables[n], CursorAt(pages, n), limit, pages[n])
    && (n > 0 ==> pages[n - 1].next.Some? && Follows(tables[..n], limit, pages[..n]))
  }

  function Items(pages: seq<Page>): seq<Key> {
    if pages == [] then [] else Items(pages[..|pages| - 1]) + pages[|pages| - 1].items
  }

  /** Everything past the cursor comes after everything seen. */
  ghost predicate AllAhead(cursor: Option<Key>, seen: seq<Key>) {
    forall k, x | Past(cursor, k) && x in seen :: Before(k, x)
  }

  lemma AppendFalls(seen: seq<Key>, cursor: Option<Key>, items: seq<Key>)
    requires Falling(seen) && Falling(items) && AllAhead(cursor, seen)
    requires forall k | k in items :: Past(cursor, k)
    ensures Falling(seen + items)
  {
  }

  lemma PageIsAhead(t: Table, cursor: Option<Key>, limit: nat, page: Page)
    requires limit > 0 && IsPage(t, cursor, limit, page) && page.next.Some?
    ensures AllAhead(page.next, page.items) && Past(cursor, page.next.value)
  {
    forall k, x | Past(page.next, k) && x in page.items ensures Before(k, x) {
      var j :| 0 <= j < limit && page.items[j] == x;
      assert j < limit - 1 ==> Before(page.items[limit - 1], page.items[j]);
    }
    assert page.items[limit - 1] in page.items;
  }

  lemma AheadOfBoth(before: Option<Key>, after: Option<Key>, seen: seq<Key>, items: seq<Key>)
    requires before.Some? && after.Some? && AllAhead(before, seen) && AllAhead(after, items) && Past(before, after.value)
    ensures AllAhead(after, seen + items)
  {
  }

  lemma {:induction false} ItemsFall(tables: seq<Table>, limit: nat, pages: seq<Page>)
    requires limit > 0 && Follows(tables, limit, pages)
    ensures Falling(Items(pages))
    ensures pages[|pages| - 1].next.Some? ==> AllAhead(pages[|pages| - 1].next, Items(pages))
    decreases |pages|
  {
    var n := |pages| - 1;
    var page, cursor := pages[n], CursorAt(pages, n);
    assert IsPage(tables[n], cursor, limit, page);
    assert n == 0 ==> Items(pages) == page.items;
    if page.next.Some? { PageIsAhead(tables[n], cursor, limit, page); }
    if n > 0 {
      ItemsFall(tables[..n], limit, pages[..n]);
      assert pages[..n][n - 1] == pages[n - 1];
      hide Falling, AllAhead, Before, Follows;
      AppendFalls(Items(pages[..n]), cursor, page.items);
      if page.next.Some? { AheadOfBoth(cursor, page.next, Items(pages[..n]), page.items); }
    }
  }

  /** A row that is past the cursor of the last page read, or has been seen. */
  lemma {:induction false} SteadyRowIsSeenOrAhead(tables: seq<Table>, limit: nat, pages: seq<Page>, k: Key)
    requires limit > 0 && Follows(tables, limit, pages)
    requires forall i | 0 <= i < |tables| :: k in tables[i]
    ensures k in Items(pages) || (pages[|pages| - 1].next.Some? && Past(pages[|pages| - 1].next, k))
    decreases |pages|
  {
    var n := |pages| - 1;
    var page := pages[n];
    assert IsPage(tables[n], CursorAt(pages, n), limit, page);
    if n > 0 {
      forall i | 0 <= i < n ensures k in tables[..n][i] { assert k in tables[i]; }
      SteadyRowIsSeenOrAhead(tables[..n], limit, pages[..n], k);
      assert pages[..n][n - 1] == pages[n - 1];
    }
    assert k in tables[n];
  }

  /** Every item was in the table when its page was read. */
  lemma {:induction false} ItemsWereThere(tables: seq<Table>, limit: nat, pages: seq<Page>, k: Key)
    requires limit > 0 && Follows(tables, limit, pages) && k in Items(pages)
    ensures exists i | 0 <= i < |tables| :: k in tables[i]
    decreases |pages|
  {
    var n := |pages| - 1;
    if k in pages[n].items {
      assert IsPage(tables[n], CursorAt(pages, n), limit, pages[n]);
      assert k in tables[n];
    } else if n > 0 {
      ItemsWereThere(tables[..n], limit, pages[..n], k);
      var i :| 0 <= i < n && k in tables[..n][i];
      assert k in tables[i];
    }
  }

  /**
   Following the cursors to the end, while rows come and go between the pages:
   the items fall strictly, so none is seen twice; each was there when its page
   was read; and a row that is there throughout is seen.
   */
  lemma SteadyRowsSeenOnce(tables: seq<Table>, limit: nat, pages: seq<Page>)
    requires limit > 0 && Follows(tables, limit, pages) && pages[|pages| - 1].next.None?
    ensures Falling(Items(pages))
    ensures forall k | k in Items(pages) :: exists i | 0 <= i < |tables| :: k in tables[i]
    ensures forall k | forall i | 0 <= i < |tables| :: k in tables[i] :: k in Items(pages)
  {
    ItemsFall(tables, limit, pages);
    forall k | k in Items(pages) ensures exists i | 0 <= i < |tables| :: k in tables[i] {
      ItemsWereThere(tables, limit, pages, k);
    }
    forall k | forall i | 0 <= i < |tables| :: k in tables[i] ensures k in Items(pages) {
      SteadyRowIsSeenOrAhead(tables, limit, pages, k);
    }
  }

  // ------------------------------------------------------------ the end of the list

  ghost function Ahead(t: Table, cursor: Option<Key>): set<Key> {
    set k | k in t && Past(cursor, k)
  }

  /** Rows appear only before the cursor: whatever is new is newer than what has been read. */
  ghost predicate OnlyNewerRows(tables: seq<Table>, pages: seq<Page>)
    requires |tables| == |pages|
  {
    forall i, j, k | 0 <= i < |tables| - 1 && j == i + 1 && k in tables[j] && Past(pages[i].next, k) :: k in tables[i]
  }

  lemma {:induction false} FallingSize(keys: seq<Key>)
    requires Falling(keys)
    ensures |set k | k in keys| == |keys|
    decreases |keys|
  {
    if keys != [] {
      var init, last := keys[..|keys| - 1], keys[|keys| - 1];
      FallingSize(init);
      assert (set k | k in keys) == (set k | k in init) + {last};
      assert last !in init;
    }
  }

  /** A page with a successor takes `limit` rows off what is ahead, and leaves some. */
  lemma PageShrinks(t: Table, cursor: Option<Key>, limit: nat, page: Page)
    requires limit > 0 && IsPage(t, cursor, limit, page) && page.next.Some?
    ensures |Ahead(t, page.next)| + limit <= |Ahead(t, cursor)| && Ahead(t, page.next) != {}
  {
    PageIsAhead(t, cursor, limit, page);
    var items := set k | k in page.items;
    FallingSize(page.items);
    forall k | k in Ahead(t, page.next) ensures k in Ahead(t, cursor) && k !in items {}
    SubsetSize(Ahead(t, page.next) + items, Ahead(t, cursor));
    var k :| k in t && Past(cursor, k) && k !in page.items;
    assert Before(k, page.items[limit - 1]);
    assert k in Ahead(t, page.next);
  }

  lemma {:induction false} PagesShrink(tables: seq<Table>, limit: nat, pages: seq<Page>)
    requires limit > 0 && Follows(tables, limit, pages) && OnlyNewerRows(tables, pages)
    ensures (|pages| - 1) * limit + |Ahead(tables[|pages| - 1], CursorAt(pages, |pages| - 1))| <= |tables[0]|
    decreases |pages|
  {
    var n := |pages| - 1;
    if n == 0 {
      assert Ahead(tables[0], None) == tables[0];
    } else {
      PagesShrink(tables[..n], limit, pages[..n]);
      assert pages[..n][n - 1] == pages[n - 1] && CursorAt(pages[..n], n - 1) == CursorAt(pages, n - 1);
      assert IsPage(tables[n - 1], CursorAt(pages, n - 1), limit, pages[n - 1]);
      PageShrinks(tables[n - 1], CursorAt(pages, n - 1), limit, pages[n - 1]);
      SubsetSize(Ahead(tables[n], pages[n - 1].next), Ahead(tables[n - 1], pages[n - 1].next));
      assert n * limit == (n - 1) * limit + limit;
    }
  }

  /**
   While rows are only removed, or added newer than the cursor, the list ends:
   no more pages than the first table fills.
   */
  lemma ListEnds(tables: seq<Table>, limit: nat, pages: seq<Page>)
    requires limit > 0 && Follows(tables, limit, pages) && OnlyNewerRows(tables, pages)
    ensures (|pages| - 1) * limit <= |tables[0]| && |pages| - 1 <= |tables[0]|
  {
    PagesShrink(tables, limit, pages);
    AtLeastOneEach(|pages| - 1, limit);
  }

  lemma AtLeastOneEach(n: nat, limit: nat)
    requires limit > 0
    ensures n <= n * limit
  {
  }

  lemma UnchangedListEnds(t: Table, tables: seq<Table>, limit: nat, pages: seq<Page>)
    requires limit > 0 && Follows(tables, limit, pages) && forall i | 0 <= i < |tables| :: tables[i] == t
    ensures |pages| <= |t| + 1
  {
    ListEnds(tables, limit, pages);
  }

  /** A client that follows the cursors of an unchanged table gets every row exactly once, in order. */
  method FollowCursors(t: Table, limit: nat) returns (pages: seq<Page>)
    requires limit > 0
    ensures Falling(Items(pages)) && forall k :: k in Items(pages) <==> k in t
  {
    var page := ListPage(t, None, limit);
    pages := [page];
    ghost var tables := [t];
    while page.next.Some?
      invariant Follows(tables, limit, pages) && page == pages[|pages| - 1]
      invariant forall i | 0 <= i < |tables| :: tables[i] == t
      invariant |pages| <= |t| + 1
      decreases |t| + 1 - |pages|
    {
      hide Follows, IsPage, Falling, Items;
      var next := ListPage(t, page.next, limit);
      MoreFollows(tables, limit, pages, t, next);
      pages, tables, page := pages + [next], tables + [t], next;
      UnchangedListEnds(t, tables, limit, pages);
    }
    SteadyRowsSeenOnce(tables, limit, pages);
  }

  lemma MoreFollows(tables: seq<Table>, limit: nat, pages: seq<Page>, t: Table, next: Page)
    requires limit > 0 && Follows(tables, limit, pages) && pages[|pages| - 1].next.Some?
    requires IsPage(t, pages[|pages| - 1].next, limit, next)
    ensures Follows(tables + [t], limit, pages + [next])
  {
    hide IsPage;
    var ts, ps := tables + [t], pages + [next];
    assert ts[..|pages|] == tables && ps[..|pages|] == pages;
    assert CursorAt(ps, |pages|) == pages[|pages| - 1].next;
  }
}
