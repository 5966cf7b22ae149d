/** No URL is lost, in every interleaving of the crawl loop. */
module Lossless {
  import opened Prelude
  import opened Database
  import opened CrawlState
  import opened Scheduler

  /** The crawl is through with `u`: visited, without a domain, or on a blacklisted domain. */
  predicate Gone(t: Tables, black: set<string>, u: Url) {
    u in t.visited || u.domain == "" || u.domain in black
  }

  predicate Kept(t: Tables, black: set<string>, u: Url) { u in t.frontier || Gone(t, black, u) }

  // ---------------------------------------------------------------- what bodies and fetches know

  /** A body or fetch that is about to delete a URL knows that the crawl is through with it. */
  predicate Knows(t: Tables, black: set<string>, pc: Pc) {
    match pc
    case HoldingVisited(item, visited) => visited ==> item.url in t.visited
    case Discarding(u) => Gone(t, black, u)
    case RobotsDeleting(u) => u in t.visited
    case _ => true
  }

  predicate FetchKnows(t: Tables, fetch: Fetch) { fetch.phase.Deleting? ==> fetch.item.url in t.visited }

  predicate SafeDelete(t: Tables, black: set<string>, op: DbOp) {
    op.Delete? ==> forall u | u in op.urls :: Gone(t, black, u)
  }

  ghost predicate AllKnown(s: Crawl) {
    && (forall b | b in s.bodies :: Knows(s.tables, s.stats.domainBlacklist, s.bodies[b].pc))
    && (forall f | f in s.fetches :: FetchKnows(s.tables, s.fetches[f]))
  }

  ghost predicate NoneLost(s: Crawl) {
    AllKnown(s) && forall u | u in s.past.ever :: Kept(s.tables, s.stats.domainBlacklist, u)
  }

  // ---------------------------------------------------------------- statements

  /** Visited URLs, nodes and blacklisted domains only grow, and kept URLs are kept. */
  ghost predicate Advances(t0: Tables, black0: set<string>, t1: Tables, black1: set<string>) {
    && t0.visited <= t1.visited && t0.nodes.Keys <= t1.nodes.Keys && black0 <= black1
    && forall u | Kept(t0, black0, u) :: Kept(t1, black1, u)
  }

  /** A delete is the only statement that must know something: a save marks what it removes. */
  lemma OpAdvances(t: Tables, black0: set<string>, op: DbOp, black1: set<string>)
    requires SafeDelete(t, black0, op) && black0 <= black1
    ensures Advances(t, black0, Executed(t, op), black1)
  {
    if op.InsertAll? {
      InsertManyKeys(t, op.items);
      InsertAllLeaves(t, op.items);
    }
  }

  lemma {:induction false} InsertAllLeaves(t: Tables, items: seq<Item>)
    ensures InsertedMany(t, items).visited == t.visited && InsertedMany(t, items).nodes == t.nodes
    decreases items
  {
    if items != [] { InsertAllLeaves(Inserted(t, items[0].url, items[0].depth, items[0].parent), items[1..]); }
  }

  // ---------------------------------------------------------------- steps

  /** Only these steps end up about to delete something, or delete it. */
  predicate Deletes(pc: Pc) {
    pc.ReadingVisited? || pc.HoldingVisited? || pc.AtItem? || pc.CheckingRobots? || pc.Discarding?
    || pc.RobotsMarking? || pc.RobotsDeleting?
  }

  lemma OthersDeleteNothing(s: Crawl, body: Body, i: BodyInput)
    requires !Deletes(body.pc)
    ensures var act := BodyActOf(s, body, i);
      !act.op.Delete? && (act.next.Stay? ==> !act.next.body.pc.HoldingVisited? && !act.next.body.pc.Discarding?
                                             && !act.next.body.pc.RobotsDeleting?)
  {
  }

  lemma ClassifiedKnows(s: Crawl, body: Body, item: Item, blocked: bool)
    ensures var act := Classified(s, body, item, blocked);
      act.op == Keep && (act.next.Stay? ==> Knows(s.tables, s.stats.domainBlacklist, act.next.body.pc))
  {
  }

  lemma BodyActKnows(s: Crawl, body: Body, i: BodyInput)
    requires Knows(s.tables, s.stats.domainBlacklist, body.pc)
    ensures var act := BodyActOf(s, body, i);
      && SafeDelete(s.tables, s.stats.domainBlacklist, act.op)
      && (act.next.Stay? ==> Knows(Executed(s.tables, act.op), s.stats.domainBlacklist, act.next.body.pc))
  {
    if !Deletes(body.pc) {
      OthersDeleteNothing(s, body, i);
    } else if body.pc.AtItem? && body.rest != [] {
      ClassifiedKnows(s, body.(rest := body.rest[1..]), body.rest[0], i.blocked);
    } else if body.pc.HoldingVisited? {
      ClassifiedKnows(s, body, body.pc.item, i.blocked);
    }
  }

  lemma FetchActKnows(s: Crawl, fetch: Fetch, i: FetchInput)
    requires FetchKnows(s.tables, fetch)
    ensures var act := FetchActOf(s, fetch, i);
      && SafeDelete(s.tables, s.stats.domainBlacklist, act.op)
      && (act.next.To? ==> FetchKnows(Executed(s.tables, act.op), fetch.(phase := act.next.phase)))
  {
  }

  lemma Carried(s: Crawl, r: Crawl)
    requires NoneLost(s)
    requires Advances(s.tables, s.stats.domainBlacklist, r.tables, r.stats.domainBlacklist)
    requires r.past.ever <= s.past.ever + r.tables.frontier.Keys
    requires forall b | b in r.bodies :: (b in s.bodies && r.bodies[b] == s.bodies[b])
                                         || Knows(r.tables, r.stats.domainBlacklist, r.bodies[b].pc)
    requires forall f | f in r.fetches :: (f in s.fetches && r.fetches[f] == s.fetches[f])
                                          || FetchKnows(r.tables, r.fetches[f])
    ensures NoneLost(r)
  {
    forall b | b in r.bodies ensures Knows(r.tables, r.stats.domainBlacklist, r.bodies[b].pc) {
      if b in s.bodies && r.bodies[b] == s.bodies[b] {
        assert Knows(s.tables, s.stats.domainBlacklist, s.bodies[b].pc);
      }
    }
    forall f | f in r.fetches ensures FetchKnows(r.tables, r.fetches[f]) {
      if f in s.fetches && r.fetches[f] == s.fetches[f] {
        assert FetchKnows(s.tables, s.fetches[f]);
      }
    }
  }

  ghost predicate Onward(s: Crawl, r: Crawl) {
    NoneLost(Remembered(s, r)) && Advances(s.tables, s.stats.domainBlacklist, r.tables, r.stats.domainBlacklist)
  }

  lemma BodyMovedTables(s: Crawl, b: nat, act: BodyAct)
    requires b in s.bodies
    ensures BodyMoved(s, b, act).tables == Executed(s.tables, act.op)
    ensures BodyMoved(s, b, act).past.ever == s.past.ever
  {
  }

  /** The bodies and fetches a step of body `b` leaves: the others, the body itself, and a fetch. */
  lemma BodyMovedOthers(s: Crawl, b: nat, act: BodyAct)
    requires b in s.bodies
    ensures var r := BodyMoved(s, b, act);
      && (forall c | c in r.bodies ::
            (c in s.bodies && r.bodies[c] == s.bodies[c])
            || r.bodies[c].pc == if act.next.Stay? then act.next.body.pc else AtItem)
      && (forall f | f in r.fetches ::
            (f in s.fetches && r.fetches[f] == s.fetches[f]) || r.fetches[f].phase == Fetching)
  {
  }

  lemma BodyOnward(s: Crawl, b: nat, act: BodyAct)
    requires NoneLost(s) && b in s.bodies && SafeDelete(s.tables, s.stats.domainBlacklist, act.op)
    requires act.next.Stay? ==> Knows(Executed(s.tables, act.op), s.stats.domainBlacklist, act.next.body.pc)
    ensures Onward(s, BodyMoved(s, b, act))
  {
    OpAdvances(s.tables, s.stats.domainBlacklist, act.op, s.stats.domainBlacklist);
    BodyMovedTables(s, b, act);
    BodyStats(s, b, act);
    BodyMovedOthers(s, b, act);
    Carried(s, Remembered(s, BodyMoved(s, b, act)));
  }

  lemma FetchOnward(s: Crawl, f: nat, act: FetchAct)
    requires NoneLost(s) && f in s.fetches && SafeDelete(s.tables, s.stats.domainBlacklist, act.op)
    requires act.next.To? ==> FetchKnows(Executed(s.tables, act.op), s.fetches[f].(phase := act.next.phase))
    ensures Onward(s, FetchMoved(s, f, act))
  {
    var r := FetchMoved(s, f, act);
    TalliedGrows(s.stats, s.fetches[f].item.url.domain, act.tally);
    assert r.tables == Executed(s.tables, act.op);
    OpAdvances(s.tables, s.stats.domainBlacklist, act.op, r.stats.domainBlacklist);
    Carried(s, Remembered(s, r));
  }

  lemma TalliedGrows(st: Stats, d: string, tally: Tally)
    ensures st.domainBlacklist <= Tallied(st, d, tally).domainBlacklist
  {
  }

  lemma ElsewhereOnward(s: Crawl, e: Event)
    requires NoneLost(s) && Enabled(s, e) && Elsewhere(e)
    ensures Onward(s, Effect(s, e))
  {
    ElsewhereTables(s, e);
    ElsewhereOutcomes(s, e);
    ElsewherePast(s, e);
    ElsewhereBodies(s, e);
    ElsewhereFetches(s, e);
    OpAdvances(s.tables, s.stats.domainBlacklist, TimerOp(e), s.stats.domainBlacklist);
    Carried(s, Remembered(s, Effect(s, e)));
  }

  lemma StepOnward(s: Crawl, e: Event)
    requires NoneLost(s) && Enabled(s, e)
    ensures Onward(s, Effect(s, e))
  {
    if e.RunBody? {
      BodyActKnows(s, s.bodies[e.b], e.inB);
      BodyOnward(s, e.b, BodyActOf(s, s.bodies[e.b], e.inB));
    } else if e.RunFetch? {
      FetchActKnows(s, s.fetches[e.f], e.inF);
      FetchOnward(s, e.f, FetchActOf(s, s.fetches[e.f], e.inF));
    } else {
      ElsewhereOnward(s, e);
    }
  }

  lemma {:induction false} LosslessRun(s: Crawl, es: seq<Event>)
    requires NoneLost(s) && Legal(s, es)
    ensures NoneLost(After(s, es))
    ensures Advances(s.tables, s.stats.domainBlacklist, After(s, es).tables, After(s, es).stats.domainBlacklist)
    decreases |es|
  {
    if es != [] {
      StepOnward(s, es[0]);
      LosslessRun(Step(s, es[0]), es[1..]);
    }
  }

  /** No URL is lost: in every interleaving, from any tables, whatever statements fail and whatever
      Kafka delivers, each URL ever put in the frontier is still there, or is visited, or has no
      domain, or is on a blacklisted domain. */
  lemma NoUrlLost(s: Crawl, es: seq<Event>, u: Url)
    requires Initial(s) && Legal(s, es)
    ensures var r := After(s, es);
      u in r.past.ever ==>
        u in r.tables.frontier || u in r.tables.visited || u.domain == "" || u.domain in r.stats.domainBlacklist
  {
    LosslessRun(s, es);
    assert Kept(After(s, es).tables, After(s, es).stats.domainBlacklist, u) || u !in After(s, es).past.ever;
  }

  /** A URL the crawl is through with stays so: visited URLs, nodes and blacklisted domains are never
      forgotten. */
  lemma NothingForgotten(s: Crawl, es: seq<Event>, more: seq<Event>)
    requires Initial(s) && Legal(s, es) && Legal(After(s, es), more)
    ensures var r, t := After(s, es), After(After(s, es), more);
      && r.tables.visited <= t.tables.visited && r.tables.nodes.Keys <= t.tables.nodes.Keys
      && r.stats.domainBlacklist <= t.stats.domainBlacklist
  {
    LosslessRun(s, es);
    LosslessRun(After(s, es), more);
  }
}
