/** The crawl database of src/db.ts: its four tables as a value, the effect of each statement
    on that value, and the object that runs the statements and transactions in place. */
module Database {
  import opened Prelude

  /** A frontier row as the code carries it around. An item that is not a row yet has id 0. */
  datatype Item = Item(url: Url, depth: int, parent: Option<Url>, id: nat)

  datatype FrontierRow = FrontierRow(id: nat, depth: int, parent: Option<Url>)

  datatype NodeRow = NodeRow(title: string, description: string, domain: string, depth: int, parent: Option<Url>,
                             popularity: nat, lang: string, https: bool, metaDescription: string,
                             ogTitle: string, ogDescription: string, contentLength: nat, crawledAt: nat)

  datatype FtsRow = FtsRow(url: Url, title: string, description: string, metaDescription: string,
                           ogTitle: string, ogDescription: string, domain: string)

  /** The argument of the saveNode transaction. */
  datatype Page = Page(url: Url, title: string, desc: string, dom: string, depth: int, parent: Option<Url>,
                       pop: nat, lang: string, https: bool, meta: string, ogt: string, ogd: string,
                       clen: nat, ts: nat, origUrl: Url)

  /** `frontier` is keyed by its UNIQUE url column; `nextId` is the next AUTOINCREMENT id;
      the full-text table has no key, so it is a multiset. */
  datatype Tables = Tables(nodes: map<Url, NodeRow>, visited: set<Url>, frontier: map<Url, FrontierRow>,
                           nextId: nat, fts: multiset<FtsRow>)

  const EMPTY := Tables(map[], {}, map[], 1, multiset{})

  function RowOf(p: Page): NodeRow {
    NodeRow(p.title, p.desc, p.dom, p.depth, p.parent, p.pop, p.lang, p.https, p.meta, p.ogt, p.ogd, p.clen, p.ts)
  }

  function FtsOf(u: Url, n: NodeRow): FtsRow {
    FtsRow(u, n.title, n.description, n.metaDescription, n.ogTitle, n.ogDescription, n.domain)
  }

  // ---------------------------------------------------------------- statements, as functions of the tables

  function Marked(t: Tables, u: Url): Tables { t.(visited := t.visited + {u}) }

  function Removed(t: Tables, us: set<Url>): Tables { t.(frontier := t.frontier - us) }

  /** INSERT OR IGNORE INTO frontier. */
  function Inserted(t: Tables, u: Url, depth: int, parent: Option<Url>): Tables {
    if u in t.frontier then t
    else t.(frontier := t.frontier[u := FrontierRow(t.nextId, depth, parent)], nextId := t.nextId + 1)
  }

  function InsertedMany(t: Tables, items: seq<Item>): Tables
    decreases items
  {
    if items == [] then t
    else
      var i := items[0];
      InsertedMany(Inserted(t, i.url, i.depth, i.parent), items[1..])
  }

  /** What a committed saveNode leaves behind. */
  function Saved(t: Tables, p: Page, ftsWorks: bool): Tables {
    Tables(t.nodes[p.url := RowOf(p)],
           t.visited + {p.url, p.origUrl},
           t.frontier - {p.url, p.origUrl},
           t.nextId,
           if ftsWorks then t.fts + multiset{FtsOf(p.url, RowOf(p))} else t.fts)
  }

  lemma BothLeave(visited: set<Url>, frontier: map<Url, FrontierRow>, u: Url, v: Url)
    ensures visited + {u, v} == if v != u then visited + {u} + {v} else visited + {u}
    ensures frontier - {u, v} == if v != u then frontier - {u} - {v} else frontier - {u}
  {
  }

  /** The frontier rows whose URL is already visited. */
  function Stale(t: Tables): set<Url> { t.frontier.Keys * t.visited }

  /** `t1` is `t0` without some visited frontier rows. */
  ghost predicate Trimmed(t0: Tables, t1: Tables) {
    && t1 == t0.(frontier := t1.frontier)
    && (forall u | u in t1.frontier :: u in t0.frontier && t1.frontier[u] == t0.frontier[u])
    && (forall u | u in t0.frontier && u !in t0.visited :: u in t1.frontier)
  }

  /** Row ids are positive, below the next id, and pairwise different. */
  ghost predicate WellFormed(t: Tables) {
    && t.nextId >= 1
    && (forall u | u in t.frontier :: 1 <= t.frontier[u].id < t.nextId)
    && (forall u, v | u in t.frontier && v in t.frontier && u != v :: t.frontier[u].id != t.frontier[v].id)
  }

  // ---------------------------------------------------------------- insertManyFrontier

  function Urls(items: seq<Item>): set<Url> { set i | i in items :: i.url }

  lemma UrlsCons(i: Item, rest: seq<Item>)
    ensures Urls([i] + rest) == {i.url} + Urls(rest)
  {
    forall u | u in {i.url} + Urls(rest) ensures u in Urls([i] + rest) {
      if u == i.url {
        assert i in [i] + rest;
      } else {
        var j :| j in rest && j.url == u;
        assert j in [i] + rest;
      }
    }
  }

  /** `r` is `t` after some insertions into the frontier: old rows are kept, new rows have fresh ids. */
  ghost predicate Extends(t: Tables, r: Tables) {
    && r == t.(frontier := r.frontier, nextId := r.nextId)
    && t.nextId <= r.nextId
    && (forall u | u in t.frontier :: u in r.frontier && r.frontier[u] == t.frontier[u])
    && (forall u | u in r.frontier && u !in t.frontier :: t.nextId <= r.frontier[u].id)
  }

  lemma InsertFrame(t: Tables, u: Url, depth: int, parent: Option<Url>)
    requires WellFormed(t)
    ensures var r := Inserted(t, u, depth, parent); WellFormed(r) && Extends(t, r)
  {
  }

  /** The rows that were there stay as they were, and ids stay unique. */
  lemma {:induction false} InsertManyFrame(t: Tables, items: seq<Item>)
    requires WellFormed(t)
    ensures WellFormed(InsertedMany(t, items)) && Extends(t, InsertedMany(t, items))
    decreases items
  {
    if items != [] {
      var i := items[0];
      var t1 := Inserted(t, i.url, i.depth, i.parent);
      InsertFrame(t, i.url, i.depth, i.parent);
      InsertManyFrame(t1, items[1..]);
      ExtendsTransitive(t, t1, InsertedMany(t, items));
    }
  }

  /** Every URL of the batch has a row afterwards, and no other URL gains one. */
  lemma {:induction false} InsertManyKeys(t: Tables, items: seq<Item>)
    ensures InsertedMany(t, items).frontier.Keys == t.frontier.Keys + Urls(items)
    decreases items
  {
    if items != [] {
      var i := items[0];
      InsertManyKeys(Inserted(t, i.url, i.depth, i.parent), items[1..]);
      UrlsCons(i, items[1..]);
      assert items == [i] + items[1..];
    }
  }

  lemma ExtendsTransitive(t0: Tables, t1: Tables, t2: Tables)
    requires Extends(t0, t1) && Extends(t1, t2)
    ensures Extends(t0, t2)
  {
  }

  /** A new row carries the depth and the parent of the first item with its URL. */
  lemma {:induction false} InsertManyOrigin(t: Tables, items: seq<Item>, k: nat)
    requires WellFormed(t)
    requires k < |items| && items[k].url !in t.frontier
    requires forall j | 0 <= j < k :: items[j].url != items[k].url
    ensures items[k].url in InsertedMany(t, items).frontier
    ensures var row := InsertedMany(t, items).frontier[items[k].url];
      row.depth == items[k].depth && row.parent == items[k].parent && row.id <= t.nextId + k
    decreases items
  {
    var i, rest := items[0], items[1..];
    var t1 := Inserted(t, i.url, i.depth, i.parent);
    InsertFrame(t, i.url, i.depth, i.parent);
    if k == 0 {
      InsertManyFrame(t1, rest);
    } else {
      assert rest[k - 1] == items[k] && i.url != items[k].url;
      assert forall j | 0 <= j < k - 1 :: rest[j] == items[j + 1];
      InsertManyOrigin(t1, rest, k - 1);
    }
  }

  /** The first item of the batch with a given URL. */
  lemma {:induction false} FirstWith(items: seq<Item>, u: Url) returns (k: nat)
    requires u in Urls(items)
    ensures k < |items| && items[k].url == u && forall j | 0 <= j < k :: items[j].url != u
    decreases items
  {
    if items[0].url == u {
      k := 0;
    } else {
      assert items == [items[0]] + items[1..];
      var k1 := FirstWith(items[1..], u);
      k := k1 + 1;
      assert forall j | 0 < j < k :: items[j] == items[1..][j - 1];
    }
  }

  // ---------------------------------------------------------------- getBatch

  ghost function Above(t: Tables, cursor: nat): set<Url> {
    set u | u in t.frontier && t.frontier[u].id > cursor
  }

  ghost predicate Least(t: Tables, cursor: nat, u: Url) {
    u in Above(t, cursor) && forall v | v in Above(t, cursor) :: t.frontier[u].id <= t.frontier[v].id
  }

  lemma {:induction false} LeastExists(t: Tables, cursor: nat, us: set<Url>) returns (u: Url)
    requires us != {} && us <= Above(t, cursor)
    ensures u in us && forall v | v in us :: t.frontier[u].id <= t.frontier[v].id
    decreases us
  {
    u :| u in us;
    if us != {u} {
      var v := LeastExists(t, cursor, us - {u});
      if t.frontier[v].id < t.frontier[u].id { u := v; }
    }
  }

  /** SELECT ... FROM frontier WHERE id > cursor ORDER BY id ASC LIMIT limit. */
  ghost function Batch(t: Tables, cursor: nat, limit: nat): seq<Item>
    decreases limit
  {
    if limit == 0 || Above(t, cursor) == {} then []
    else
      assert exists u :: Least(t, cursor, u) by {
        var u := LeastExists(t, cursor, Above(t, cursor));
        assert Least(t, cursor, u);
      }
      var u :| Least(t, cursor, u);
      [Item(u, t.frontier[u].depth, t.frontier[u].parent, t.frontier[u].id)] + Batch(t, t.frontier[u].id, limit - 1)
  }

  ghost predicate IsRow(t: Tables, i: Item) {
    i.url in t.frontier && t.frontier[i.url] == FrontierRow(i.id, i.depth, i.parent)
  }

  /** A non-empty batch is the lowest row above the cursor, followed by the batch above that row. */
  lemma BatchUnfold(t: Tables, cursor: nat, limit: nat)
    requires Batch(t, cursor, limit) != []
    ensures var b := Batch(t, cursor, limit);
      limit > 0 && IsRow(t, b[0]) && Least(t, cursor, b[0].url) && b[1..] == Batch(t, b[0].id, limit - 1)
  {
  }

  /** A batch holds at most `limit` rows of the table, all above the cursor, in strictly
      ascending id order. */
  lemma {:induction false} BatchRows(t: Tables, cursor: nat, limit: nat)
    ensures var b := Batch(t, cursor, limit);
      && |b| <= limit
      && (forall i | i in b :: IsRow(t, i) && i.id > cursor)
      && (forall j, k | 0 <= j < k < |b| :: b[j].id < b[k].id)
    decreases limit
  {
    var b := Batch(t, cursor, limit);
    if b != [] {
      BatchUnfold(t, cursor, limit);
      BatchRows(t, b[0].id, limit - 1);
      var rest := b[1..];
      assert b == [b[0]] + rest;
      forall j, k | 0 <= j < k < |b| ensures b[j].id < b[k].id {
        assert b[k] == rest[k - 1] && rest[k - 1] in rest;
        if j > 0 { assert b[j] == rest[j - 1]; }
      }
    }
  }

  /** A row above the cursor that is not in the batch is one the limit cut off: the batch is full
      and the row comes after its last one. */
  lemma {:induction false} BatchComplete(t: Tables, cursor: nat, limit: nat, u: Url)
    requires WellFormed(t) && u in Above(t, cursor)
    ensures var b := Batch(t, cursor, limit);
      u in Urls(b) || (|b| == limit && (b == [] || b[|b| - 1].id < t.frontier[u].id))
    decreases limit
  {
    var b := Batch(t, cursor, limit);
    if b != [] {
      BatchUnfold(t, cursor, limit);
      var rest := b[1..];
      assert b == [b[0]] + rest;
      if u != b[0].url {
        assert u in Above(t, b[0].id);
        BatchComplete(t, b[0].id, limit - 1, u);
      }
    }
  }

  // ---------------------------------------------------------------- the full-text table

  function AllFtsRows(t: Tables): set<FtsRow> { set u | u in t.nodes :: FtsOf(u, t.nodes[u]) }

  /** Every node has a search row equal to its current fields, and no search row points at a
      URL that is not a node. */
  ghost predicate Indexed(t: Tables) {
    && (forall u | u in t.nodes :: FtsOf(u, t.nodes[u]) in t.fts)
    && (forall r | r in t.fts :: r.url in t.nodes)
  }

  /** rebuildFtsIfNeeded: DELETE FROM nodes_fts, then one INSERT ... SELECT. Either may throw; the
      second is only run when the first worked. */
  function Rebuilt(t: Tables, deleteWorks: bool, insertWorks: bool): Tables {
    if !deleteWorks then t
    else if !insertWorks then t.(fts := multiset{})
    else t.(fts := multiset(AllFtsRows(t)))
  }

  /** A save keeps the index current exactly when its index insert works, or an equal row was
      already there. */
  lemma SaveKeepsIndex(t: Tables, p: Page, ftsWorks: bool)
    requires Indexed(t)
    ensures Indexed(Saved(t, p, ftsWorks)) <==> ftsWorks || FtsOf(p.url, RowOf(p)) in t.fts
  {
    var s := Saved(t, p, ftsWorks);
    if ftsWorks || FtsOf(p.url, RowOf(p)) in t.fts {
      forall u | u in s.nodes ensures FtsOf(u, s.nodes[u]) in s.fts {
        if u != p.url { assert FtsOf(u, t.nodes[u]) in t.fts; }
      }
    } else {
      assert s.nodes[p.url] == RowOf(p) && p.url in s.nodes;
    }
  }

  /** After a rebuild each node has exactly one search row and there are no others. */
  lemma RebuildIsExact(t: Tables)
    ensures var r := Rebuilt(t, true, true);
      && Indexed(r)
      && (forall u | u in t.nodes :: r.fts[FtsOf(u, t.nodes[u])] == 1)
      && |r.fts| == |t.nodes|
  {
    var r := Rebuilt(t, true, true);
    assert forall u | u in t.nodes :: FtsOf(u, t.nodes[u]) in AllFtsRows(t);
    AllFtsRowsSize(t.nodes.Keys, t);
    assert AllFtsRows(t) == set u | u in t.nodes.Keys :: FtsOf(u, t.nodes[u]);
    assert |r.fts| == |AllFtsRows(t)|;
  }

  lemma {:induction false} AllFtsRowsSize(us: set<Url>, t: Tables)
    requires us <= t.nodes.Keys
    ensures |set u | u in us :: FtsOf(u, t.nodes[u])| == |us|
  {
    if us != {} {
      var u :| u in us;
      AllFtsRowsSize(us - {u}, t);
      var rows := set v | v in us - {u} :: FtsOf(v, t.nodes[v]);
      assert (set v | v in us :: FtsOf(v, t.nodes[v])) == rows + {FtsOf(u, t.nodes[u])};
      assert FtsOf(u, t.nodes[u]) !in rows;
    }
  }

  /** A rebuild attempt loses the index exactly when the delete works, the insert does not, and
      there is a node to index. */
  lemma RebuildOutcome(t: Tables, deleteWorks: bool, insertWorks: bool)
    requires Indexed(t)
    ensures Indexed(Rebuilt(t, deleteWorks, insertWorks)) <==> !deleteWorks || insertWorks || t.nodes == map[]
  {
    if deleteWorks && insertWorks {
      RebuildIsExact(t);
    } else if deleteWorks && t.nodes != map[] {
      var u :| u in t.nodes;
      assert FtsOf(u, t.nodes[u]) !in Rebuilt(t, true, false).fts;
    }
  }

  // ---------------------------------------------------------------- the database object

  class CrawlDb {
    var nodes: map<Url, NodeRow>
    var visited: set<Url>
    var frontier: map<Url, FrontierRow>
    var nextId: nat
    var fts: multiset<FtsRow>

    function View(): Tables
      reads this
    {
      Tables(nodes, visited, frontier, nextId, fts)
    }

    constructor ()
      ensures View() == EMPTY
    {
      nodes, visited, frontier, nextId, fts := map[], {}, map[], 1, multiset{};
    }

    method InsertNode(p: Page)
      modifies this`nodes
      ensures nodes == old(nodes)[p.url := RowOf(p)]
    {
      nodes := nodes[p.url := RowOf(p)];
    }

    method MarkVisited(u: Url)
      modifies this`visited
      ensures View() == Marked(old(View()), u)
    {
      visited := visited + {u};
    }

    method DeleteFromFrontier(u: Url)
      modifies this`frontier
      ensures View() == Removed(old(View()), {u})
    {
      frontier := frontier - {u};
    }

    method InsertFrontier(u: Url, depth: int, parent: Option<Url>)
      modifies this`frontier, this`nextId
      ensures View() == Inserted(old(View()), u, depth, parent)
    {
      if u !in frontier {
        frontier := frontier[u := FrontierRow(nextId, depth, parent)];
        nextId := nextId + 1;
      }
    }

    /** The index insert, which is caught when it throws. */
    method InsertFts(p: Page, works: bool)
      modifies this`fts
      ensures fts == if works then old(fts) + multiset{FtsOf(p.url, RowOf(p))} else old(fts)
    {
      if works {
        fts := fts + multiset{FtsOf(p.url, RowOf(p))};
      }
    }

    /** ROLLBACK. */
    method Restore(t: Tables)
      modifies this
      ensures View() == t
    {
      nodes, visited, frontier, nextId, fts := t.nodes, t.visited, t.frontier, t.nextId, t.fts;
    }

    /** A URL becomes visited and leaves the frontier; the first or the second statement may throw. */
    method Leave(u: Url, failAt: int) returns (ok: bool)
      modifies this`visited, this`frontier
      ensures ok <==> !(1 <= failAt <= 2)
      ensures ok ==> visited == old(visited) + {u} && frontier == old(frontier) - {u}
    {
      if failAt == 1 { return false; }
      MarkVisited(u);
      if failAt == 2 { return false; }
      DeleteFromFrontier(u);
      ok := true;
    }

    /** The statements of saveNode in order, as far as they get: number `failAt` throws, if there is
        one with that number. The index insert is caught on its own. */
    method SaveStatements(p: Page, failAt: nat, ftsWorks: bool) returns (ok: bool)
      modifies this
      ensures ok <==> !(1 <= failAt <= if p.origUrl != p.url then 5 else 3)
      ensures ok ==> View() == Saved(old(View()), p, ftsWorks)
    {
      if failAt == 1 { return false; }
      InsertNode(p);
      ok := Leave(p.url, failAt - 1);
      if !ok { return; }
      if p.origUrl != p.url {
        ok := Leave(p.origUrl, failAt - 3);
        if !ok { return; }
      }
      InsertFts(p, ftsWorks);
      BothLeave(old(visited), old(frontier), p.url, p.origUrl);
    }

    /** The saveNode transaction: all of it happens, or none of it. */
    method SaveNode(p: Page, failAt: nat, ftsWorks: bool) returns (ok: bool)
      modifies this
      ensures ok <==> !(1 <= failAt <= if p.origUrl != p.url then 5 else 3)
      ensures View() == if ok then Saved(old(View()), p, ftsWorks) else old(View())
    {
      var before := View();
      ok := SaveStatements(p, failAt, ftsWorks);
      if !ok { Restore(before); }
    }

    /** The insertManyFrontier transaction; item number `failAt` throws, if there is one. */
    method InsertManyFrontier(items: seq<Item>, failAt: nat) returns (ok: bool)
      modifies this
      ensures ok <==> failAt >= |items|
      ensures View() == if ok then InsertedMany(old(View()), items) else old(View())
    {
      var before := View();
      for k := 0 to |items|
        invariant k <= failAt
        invariant InsertedMany(View(), items[k..]) == InsertedMany(before, items)
      {
        if k == failAt { Restore(before); return false; }
        InsertFrontier(items[k].url, items[k].depth, items[k].parent);
        assert items[k..][1..] == items[k + 1..];
      }
      ok := true;
    }

    /** DELETE FROM frontier WHERE id IN (rows whose URL is visited LIMIT limit). Which rows the
        limit picks is up to the engine. */
    method DeleteVisitedRows(limit: nat) returns (changes: nat)
      modifies this`frontier
      ensures Trimmed(old(View()), View())
      ensures changes == |old(frontier)| - |frontier| == Min(limit, |old(Stale(View()))|)
      ensures |Stale(View())| == old(|Stale(View())|) - changes
    {
      var stale := Stale(View());
      var victims: set<Url> := {};
      while |victims| < limit && victims != stale
        invariant victims <= stale && |victims| <= limit
        decreases |stale - victims|
      {
        var u :| u in stale - victims;
        assert stale - (victims + {u}) == (stale - victims) - {u};
        victims := victims + {u};
      }
      changes := |victims|;
      SubsetSize(victims, stale);
      frontier := frontier - victims;
      assert Stale(View()) == stale - victims;
      assert frontier.Keys == old(frontier).Keys - victims;
      assert |frontier.Keys| == |old(frontier).Keys| - |victims|;
    }

    /** rebuildFtsIfNeeded on the SQLite backend. */
    method RebuildFtsIfNeeded(existing: nat, ftsCount: nat, deleteWorks: bool, insertWorks: bool)
      modifies this`fts
      ensures View() == if 10 * ftsCount < 8 * existing then Rebuilt(old(View()), deleteWorks, insertWorks)
                        else old(View())
    {
      if 10 * ftsCount < 8 * existing && deleteWorks {
        fts := multiset{};
        if insertWorks {
          fts := fts + multiset(AllFtsRows(View()));
        }
      }
    }
  }

  lemma {:induction false} SubsetSize<T>(a: set<T>, b: set<T>)
    requires a <= b
    ensures |a| <= |b| && (|a| == |b| ==> a == b)
  {
    assert b == a + (b - a);
    if |a| == |b| { assert b - a == {}; }
  }
}
