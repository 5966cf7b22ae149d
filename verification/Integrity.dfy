/** The tables stay consistent in every interleaving of the crawl loop without Kafka input. */
module Integrity {
  import opened Prelude
  import opened Database
  import opened CrawlState
  import opened Scheduler
  import Lossless

  // ---------------------------------------------------------------- the invariant

  predicate ParentStored(t: Tables, parent: Option<Url>) { parent.Some? ==> parent.value in t.nodes }

  predicate GoodLink(t: Tables, depth: int, parent: Option<Url>) {
    RECRAWL <= depth <= MAX_DEPTH && ParentStored(t, parent)
  }

  predicate GoodItems(t: Tables, items: seq<Item>) { forall i | i in items :: GoodLink(t, i.depth, i.parent) }

  /** Node URLs are visited and node depths in range; frontier depths are in range or -1; every
      parent that is not null is a node. */
  ghost predicate Consistent(t: Tables) {
    && WellFormed(t)
    && (forall u | u in t.nodes :: u in t.visited)
    && (forall u | u in t.nodes :: 0 <= t.nodes[u].depth <= MAX_DEPTH && ParentStored(t, t.nodes[u].parent))
    && (forall u | u in t.frontier :: GoodLink(t, t.frontier[u].depth, t.frontier[u].parent))
  }

  /** An item that is not a re-crawl. */
  predicate Fetchable(t: Tables, i: Item) { GoodLink(t, i.depth, i.parent) && i.depth != RECRAWL }

  ghost predicate GoodBody(t: Tables, body: Body) {
    && GoodItems(t, body.rest)
    && match body.pc
       case HoldingBatch(rows) => GoodItems(t, rows)
       case ReadingVisited(item) => Fetchable(t, item)
       case HoldingVisited(item, _) => Fetchable(t, item)
       case CheckingRobots(item, _) => Fetchable(t, item)
       case _ => true
  }

  ghost predicate GoodFetch(t: Tables, fetch: Fetch) {
    && GoodLink(t, fetch.item.depth, fetch.item.parent)
    && match fetch.phase
       case Saving(page, _) =>
         fetch.item.depth >= 0 && page.depth == fetch.item.depth && page.parent == fetch.item.parent
       case Saved(page, _) => fetch.item.depth >= 0 && page.url in t.nodes
       case Linking(items) => GoodItems(t, items)
       case _ => true
  }

  ghost predicate Sound(s: Crawl) {
    && Consistent(s.tables)
    && (forall b | b in s.bodies :: GoodBody(s.tables, s.bodies[b]))
    && (forall f | f in s.fetches :: GoodFetch(s.tables, s.fetches[f]))
  }

  // ---------------------------------------------------------------- what statements do to it

  /** When a statement may run without breaking the consistency of the tables. */
  ghost predicate SafeOp(t: Tables, op: DbOp) {
    match op
    case Insert(_, depth, parent) => GoodLink(t, depth, parent)
    case Save(page, _) => 0 <= page.depth <= MAX_DEPTH && ParentStored(t, page.parent)
    case InsertAll(items) => GoodItems(t, items)
    case _ => true
  }

  lemma InsertAllConsistent(t: Tables, items: seq<Item>)
    requires Consistent(t) && GoodItems(t, items)
    ensures Consistent(InsertedMany(t, items))
  {
    InsertManyFrame(t, items);
    InsertManyKeys(t, items);
    var r := InsertedMany(t, items);
    forall u | u in r.frontier ensures GoodLink(r, r.frontier[u].depth, r.frontier[u].parent) {
      if u !in t.frontier {
        var k := FirstWith(items, u);
        InsertManyOrigin(t, items, k);
        assert items[k] in items;
      }
    }
  }

  /** An insertion keeps the tables consistent exactly when it is ignored, or its depth is in range
      and its parent is stored. This is what Kafka messages, which carry any depth and parent, do
      not guarantee. */
  lemma InsertConsistentIff(t: Tables, u: Url, depth: int, parent: Option<Url>)
    requires Consistent(t)
    ensures Consistent(Inserted(t, u, depth, parent)) <==> u in t.frontier || GoodLink(t, depth, parent)
  {
    InsertFrame(t, u, depth, parent);
    var r := Inserted(t, u, depth, parent);
    if u !in t.frontier {
      assert r.frontier[u] == FrontierRow(t.nextId, depth, parent);
      assert GoodLink(r, depth, parent) <==> GoodLink(t, depth, parent);
    }
  }

  lemma SaveConsistent(t: Tables, page: Page, ftsWorks: bool)
    requires Consistent(t) && 0 <= page.depth <= MAX_DEPTH && ParentStored(t, page.parent)
    ensures Consistent(Database.Saved(t, page, ftsWorks))
  {
  }

  lemma OpConsistent(t: Tables, op: DbOp)
    requires Consistent(t) && SafeOp(t, op)
    ensures Consistent(Executed(t, op))
  {
    match op
    case Insert(u, depth, parent) => InsertConsistentIff(t, u, depth, parent);
    case Save(page, ftsWorks) => SaveConsistent(t, page, ftsWorks);
    case InsertAll(items) => InsertAllConsistent(t, items);
    case _ =>
  }

  lemma OpGrows(t: Tables, op: DbOp)
    ensures t.nodes.Keys <= Executed(t, op).nodes.Keys
  {
    if op.InsertAll? { Lossless.InsertAllLeaves(t, op.items); }
  }

  lemma GoodBodyGrown(t0: Tables, t1: Tables, body: Body)
    requires GoodBody(t0, body) && t0.nodes.Keys <= t1.nodes.Keys
    ensures GoodBody(t1, body)
  {
  }

  lemma GoodFetchGrown(t0: Tables, t1: Tables, fetch: Fetch)
    requires GoodFetch(t0, fetch) && t0.nodes.Keys <= t1.nodes.Keys
    ensures GoodFetch(t1, fetch)
  {
  }

  // ---------------------------------------------------------------- what bodies and fetches do to it

  ghost predicate GoodNext(t: Tables, next: BodyNext) {
    match next
    case Stay(body) => GoodBody(t, body)
    case End(_) => true
    case Dispatch(item, _, rest) => GoodLink(t, item.depth, item.parent) && GoodItems(t, rest)
  }

  ghost predicate GoodAct(t: Tables, act: BodyAct) {
    SafeOp(t, act.op) && GoodNext(t, act.next) && (act.next.Dispatch? ==> act.op == Keep)
  }

  lemma ClassifiedGood(s: Crawl, body: Body, item: Item, blocked: bool)
    requires GoodBody(s.tables, body) && GoodLink(s.tables, item.depth, item.parent)
    ensures var act := Classified(s, body, item, blocked); act.op == Keep && GoodNext(s.tables, act.next)
  {
  }

  lemma NextItemGood(s: Crawl, body: Body, blocked: bool)
    requires GoodBody(s.tables, body)
    ensures var act := NextItem(s, body, blocked); act.op == Keep && GoodNext(s.tables, act.next)
  {
    if body.rest != [] {
      assert GoodItems(s.tables, body.rest[1..]);
      ClassifiedGood(s, body.(rest := body.rest[1..]), body.rest[0], blocked);
    }
  }

  /** The awaits before the item loop, and those of the branch that injects re-crawls and seeds. */
  lemma OutsideItemsGood(s: Crawl, body: Body, i: BodyInput)
    requires Consistent(s.tables) && GoodBody(s.tables, body) && !Lossless.Deletes(body.pc)
    ensures GoodAct(s.tables, BodyActOf(s, body, i))
  {
    if body.pc.ReadingBatch? { BatchRows(s.tables, body.pc.cursor, BATCH); }
  }

  /** The awaits of one item. */
  lemma InsideItemsGood(s: Crawl, body: Body, i: BodyInput)
    requires GoodBody(s.tables, body) && Lossless.Deletes(body.pc)
    ensures GoodAct(s.tables, BodyActOf(s, body, i))
  {
    if body.pc.AtItem? {
      NextItemGood(s, body, i.blocked);
    } else if body.pc.HoldingVisited? {
      ClassifiedGood(s, body, body.pc.item, i.blocked);
    }
  }

  lemma {:induction false} FollowedGood(st: Stats, depth: int, parent: Url, links: seq<Url>)
    ensures forall i | i in Followed(st, depth, parent, links) ::
              i.depth == depth + 1 <= MAX_DEPTH && i.parent == Some(parent)
  {
    if links != [] { FollowedGood(st, depth, parent, links[..|links| - 1]); }
  }

  ghost predicate GoodFetchAct(t: Tables, fetch: Fetch, act: FetchAct) {
    && SafeOp(t, act.op)
    && (act.next.To? ==> GoodFetch(Executed(t, act.op), fetch.(phase := act.next.phase)))
  }

  lemma FetchActGood(s: Crawl, fetch: Fetch, i: FetchInput)
    requires GoodFetch(s.tables, fetch)
    ensures GoodFetchAct(s.tables, fetch, FetchActOf(s, fetch, i))
  {
    OpGrows(s.tables, FetchActOf(s, fetch, i).op);
    if fetch.phase.Saved? {
      var page := fetch.phase.page;
      var counted := Tallied(s.stats, fetch.item.url.domain, Success(page.dom));
      FollowedGood(counted, fetch.item.depth, page.url, fetch.phase.links);
    }
  }

  // ---------------------------------------------------------------- every step keeps it

  lemma Reassembled(s: Crawl, r: Crawl)
    requires Sound(s) && Consistent(r.tables) && s.tables.nodes.Keys <= r.tables.nodes.Keys
    requires forall b | b in r.bodies :: (b in s.bodies && r.bodies[b] == s.bodies[b])
                                         || r.bodies[b] == Body(Yielding, [], false) || GoodBody(r.tables, r.bodies[b])
    requires forall f | f in r.fetches :: (f in s.fetches && r.fetches[f] == s.fetches[f])
                                          || GoodFetch(r.tables, r.fetches[f])
    ensures Sound(r)
  {
    forall b | b in r.bodies ensures GoodBody(r.tables, r.bodies[b]) {
      if b in s.bodies && r.bodies[b] == s.bodies[b] { GoodBodyGrown(s.tables, r.tables, s.bodies[b]); }
    }
    forall f | f in r.fetches ensures GoodFetch(r.tables, r.fetches[f]) {
      if f in s.fetches && r.fetches[f] == s.fetches[f] { GoodFetchGrown(s.tables, r.tables, s.fetches[f]); }
    }
  }

  lemma BodySound(s: Crawl, b: nat, act: BodyAct)
    requires Sound(s) && b in s.bodies && GoodAct(s.tables, act)
    ensures Sound(BodyMoved(s, b, act))
  {
    var r := BodyMoved(s, b, act);
    OpConsistent(s.tables, act.op);
    OpGrows(s.tables, act.op);
    if act.next.Stay? { GoodBodyGrown(s.tables, r.tables, act.next.body); }
    Reassembled(s, r);
  }

  lemma FetchSound(s: Crawl, f: nat, act: FetchAct)
    requires Sound(s) && f in s.fetches && GoodFetchAct(s.tables, s.fetches[f], act)
    ensures Sound(FetchMoved(s, f, act))
  {
    var r := FetchMoved(s, f, act);
    OpConsistent(s.tables, act.op);
    OpGrows(s.tables, act.op);
    assert r.tables == Executed(s.tables, act.op);
    Reassembled(s, r);
  }

  lemma ElsewhereSound(s: Crawl, e: Event)
    requires Sound(s) && Enabled(s, e) && Elsewhere(e) && SafeOp(s.tables, TimerOp(e))
    ensures Sound(Effect(s, e))
  {
    ElsewhereTables(s, e);
    ElsewhereBodies(s, e);
    ElsewhereFetches(s, e);
    OpConsistent(s.tables, TimerOp(e));
    OpGrows(s.tables, TimerOp(e));
    Reassembled(s, Effect(s, e));
  }

  lemma SoundStep(s: Crawl, e: Event)
    requires Sound(s) && Enabled(s, e) && !e.KafkaMessage?
    ensures Sound(Step(s, e))
  {
    if e.RunBody? {
      var body := s.bodies[e.b];
      if Lossless.Deletes(body.pc) { InsideItemsGood(s, body, e.inB); } else { OutsideItemsGood(s, body, e.inB); }
      BodySound(s, e.b, BodyActOf(s, body, e.inB));
    } else if e.RunFetch? {
      FetchActGood(s, s.fetches[e.f], e.inF);
      FetchSound(s, e.f, FetchActOf(s, s.fetches[e.f], e.inF));
    } else {
      ElsewhereSound(s, e);
    }
  }

  /** All items a body holds. */
  function ItemsOf(body: Body): seq<Item> {
    body.rest + match body.pc
      case HoldingBatch(rows) => rows
      case ReadingVisited(item) => [item]
      case HoldingVisited(item, _) => [item]
      case CheckingRobots(item, _) => [item]
      case _ => []
  }

  lemma ItemsOfGood(t: Tables, body: Body)
    requires GoodBody(t, body)
    ensures GoodItems(t, ItemsOf(body))
  {
  }

  predicate NoKafka(es: seq<Event>) { forall k | 0 <= k < |es| :: !es[k].KafkaMessage? }

  lemma {:induction false} SoundRun(s: Crawl, es: seq<Event>)
    requires Sound(s) && Legal(s, es) && NoKafka(es)
    ensures Sound(After(s, es))
    decreases |es|
  {
    if es != [] {
      SoundStep(s, es[0]);
      SoundRun(Step(s, es[0]), es[1..]);
    }
  }

  /** Database integrity over every run without Kafka input, from consistent tables such as those of
      an earlier run: node URLs are visited, depths are in range, and every parent of a node, of a
      frontier row, of an item of a live body or of an unfinished fetch is a stored node. The items
      of a body are the batch just read, the rest of its batch, and the item it is at. */
  lemma TablesStayConsistent(s: Crawl, es: seq<Event>)
    requires Initial(s) && Consistent(s.tables) && Legal(s, es) && NoKafka(es)
    ensures var r := After(s, es);
      && Consistent(r.tables)
      && (forall f | f in r.fetches :: GoodLink(r.tables, r.fetches[f].item.depth, r.fetches[f].item.parent))
      && (forall b | b in r.bodies :: GoodItems(r.tables, ItemsOf(r.bodies[b])))
  {
    SoundRun(s, es);
    forall b | b in After(s, es).bodies ensures GoodItems(After(s, es).tables, ItemsOf(After(s, es).bodies[b])) {
      ItemsOfGood(After(s, es).tables, After(s, es).bodies[b]);
    }
  }
}
