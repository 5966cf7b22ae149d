/** The cached per-domain node counts never fall behind the table. */
module DomainCache {
  import opened Prelude
  import opened Database
  import opened CrawlState
  import opened Scheduler
  import opened Wakeups
  import opened Accounting

  /** A save on `d` is committed, and the step that counts it has not run. */
  function Uncounted(d: string): Fetch -> bool { (f: Fetch) => f.phase.Saved? && f.phase.page.dom == d }

  function Lag(s: Crawl, d: string): nat { CountIf(s.fetches, Uncounted(d)) }

  function Cached(s: Crawl, d: string): nat { Get(s.stats.domainNodeCount, d) }

  ghost predicate Covers(s: Crawl) { forall d :: NodesOn(s.tables, d) <= Cached(s, d) + Lag(s, d) }

  lemma CountsAreNodes(t: Tables, d: string)
    ensures Get(DomainCounts(t), d) == NodesOn(t, d)
  {
    if d !in Domains(t) { CountNone(t.nodes, OnDomain(d)); }
  }

  /** What a fetch does to the cache and to its own phase, in terms of the database statement. */
  lemma FetchActCounts(s: Crawl, fetch: Fetch, i: FetchInput)
    ensures var act := FetchActOf(s, fetch, i);
      && (act.op.Save? ==> act.next == To(Saved(act.op.page, fetch.phase.links)) && act.tally == NoTally
                           && !fetch.phase.Saved?)
      && (!act.op.Save? ==> act.next == Finish || !act.next.phase.Saved?)
      && (fetch.phase.Saved? <==> act.tally.Success?)
      && (act.tally.Success? ==> act.tally.dom == fetch.phase.page.dom)
  {
  }

  lemma TalliedCache(st: Stats, d: string, tally: Tally)
    ensures Tallied(st, d, tally).domainNodeCount ==
            if tally.Success? then st.domainNodeCount[tally.dom := Get(st.domainNodeCount, tally.dom) + 1]
            else st.domainNodeCount
  {
  }

  lemma FetchMovedCovers(s: Crawl, f: nat, i: FetchInput)
    requires Covers(s) && f in s.fetches
    ensures Covers(FetchMoved(s, f, FetchActOf(s, s.fetches[f], i)))
  {
    var act := FetchActOf(s, s.fetches[f], i);
    var r := FetchMoved(s, f, act);
    FetchActCounts(s, s.fetches[f], i);
    TalliedCache(s.stats, s.fetches[f].item.url.domain, act.tally);
    forall d ensures NodesOn(r.tables, d) <= Cached(r, d) + Lag(r, d) {
      if act.next.To? {
        CountPut(s.fetches, f, s.fetches[f].(phase := act.next.phase), Uncounted(d));
      } else {
        CountDrop(s.fetches, f, Uncounted(d));
      }
      if act.op.Save? {
        CountPut(s.tables.nodes, act.op.page.url, RowOf(act.op.page), OnDomain(d));
      } else {
        OpNodes(s.tables, act.op);
      }
      assert NodesOn(s.tables, d) <= Cached(s, d) + Lag(s, d);
    }
  }

  lemma BodyMovedCovers(s: Crawl, b: nat, act: BodyAct)
    requires Shape(s) && Covers(s) && b in s.bodies && !act.op.Save?
    ensures Covers(BodyMoved(s, b, act))
  {
    OpNodes(s.tables, act.op);
    var r := BodyMoved(s, b, act);
    assert s.past.dispatched !in s.fetches;
    forall d ensures NodesOn(r.tables, d) <= Cached(r, d) + Lag(r, d) {
      if act.next.Dispatch? {
        CountPut(s.fetches, s.past.dispatched, Fetch(act.next.item, Fetching), Uncounted(d));
      }
      assert NodesOn(s.tables, d) <= Cached(s, d) + Lag(s, d);
    }
  }

  lemma RefreshedCache(st: Stats, nodeRows: nat, frontierRows: nat, worked: nat, counts: map<string, nat>)
    ensures FullyRefreshed(st, nodeRows, frontierRows, worked, Some(counts)).domainNodeCount == counts
    ensures FullyRefreshed(st, nodeRows, frontierRows, worked, None).domainNodeCount == st.domainNodeCount
  {
  }

  /** Only a full refresh replaces the cache. */
  lemma ElsewhereCache(s: Crawl, e: Event)
    requires Enabled(s, e) && Elsewhere(e) && !(e.FullRefreshTimer? && e.countsWork)
    ensures Effect(s, e).stats.domainNodeCount == s.stats.domainNodeCount
  {
    if e.FullRefreshTimer? || e.RefreshTimer? {
      RefreshedCache(s.stats, |s.tables.nodes|, |s.tables.frontier|, e.worked, map[]);
    }
  }

  lemma ElsewhereCovers(s: Crawl, e: Event)
    requires Covers(s) && Enabled(s, e) && Elsewhere(e)
    ensures Covers(Effect(s, e))
  {
    ElsewhereNodes(s, e);
    ElsewhereFetches(s, e);
    var r := Effect(s, e);
    forall d ensures NodesOn(r.tables, d) <= Cached(r, d) + Lag(r, d) {
      if e.FullRefreshTimer? && e.countsWork {
        CountsAreNodes(s.tables, d);
        RefreshedCache(s.stats, |s.tables.nodes|, |s.tables.frontier|, e.worked, DomainCounts(s.tables));
      } else {
        ElsewhereCache(s, e);
      }
      assert NodesOn(s.tables, d) <= Cached(s, d) + Lag(s, d);
    }
  }

  lemma CoversStep(s: Crawl, e: Event)
    requires Shape(s) && Covers(s) && Enabled(s, e)
    ensures Covers(Step(s, e))
  {
    if e.RunBody? {
      OnlyFetchesSave(s, s.bodies[e.b], e.inB);
      BodyMovedCovers(s, e.b, BodyActOf(s, s.bodies[e.b], e.inB));
    } else if e.RunFetch? {
      FetchMovedCovers(s, e.f, e.inF);
    } else {
      ElsewhereCovers(s, e);
    }
    var r := Effect(s, e);
    assert forall d :: NodesOn(Step(s, e).tables, d) == NodesOn(r.tables, d) && Lag(Step(s, e), d) == Lag(r, d);
  }

  lemma {:induction false} CoversRun(s: Crawl, es: seq<Event>)
    requires Shape(s) && Covers(s) && Legal(s, es)
    ensures Covers(After(s, es))
    decreases |es|
  {
    if es != [] {
      ShapeStep(s, es[0]);
      CoversStep(s, es[0]);
      CoversRun(Step(s, es[0]), es[1..]);
    }
  }

  /** The cache never undercounts: in every interleaving, through upserts, increments, and full
      refreshes at any time, the nodes stored for a domain are at most the cached count plus the
      saves that are committed but not counted. */
  lemma NeverUndercounts(s: Crawl, es: seq<Event>, d: string)
    requires Initial(s) && Legal(s, es)
    ensures NodesOn(After(s, es).tables, d) <= Cached(After(s, es), d) + Lag(After(s, es), d)
  {
    forall h ensures NodesOn(s.tables, h) <= Cached(s, h) + Lag(s, h) { CountsAreNodes(s.tables, h); }
    CoversRun(s, es);
  }

  lemma {:induction false} FollowedWanted(st: Stats, depth: int, parent: Url, links: seq<Url>)
    ensures forall i | i in Followed(st, depth, parent, links) :: Wanted(st, depth, i.url)
  {
    if links != [] { FollowedWanted(st, depth, parent, links[..|links| - 1]); }
  }

  /** The link loop therefore respects DOMAIN_MAX up to that lag: when it chooses a link to a
      domain on which no save is pending, the domain holds fewer than DOMAIN_MAX nodes. */
  lemma LinksRespectDomainMax(s: Crawl, es: seq<Event>, f: nat, i: FetchInput, link: Item)
    requires Initial(s) && Legal(s, es)
    requires var r := After(s, es);
      Enabled(r, RunFetch(f, i)) && r.fetches[f].phase.Saved?
      && FetchActOf(r, r.fetches[f], i).next.phase.Linking? && link in FetchActOf(r, r.fetches[f], i).next.phase.items
    ensures var r := Step(After(s, es), RunFetch(f, i));
      link.url.domain == "" || NodesOn(r.tables, link.url.domain) < DOMAIN_MAX + Lag(r, link.url.domain)
  {
    var r := After(s, es);
    var e := RunFetch(f, i);
    forall h ensures NodesOn(s.tables, h) <= Cached(s, h) + Lag(s, h) { CountsAreNodes(s.tables, h); }
    CoversRun(s, es);
    ShapeRun(s, es);
    CoversStep(r, e);
    var page, links := r.fetches[f].phase.page, r.fetches[f].phase.links;
    var counted := Tallied(r.stats, r.fetches[f].item.url.domain, Success(page.dom));
    FollowedWanted(counted, r.fetches[f].item.depth, page.url, links);
    assert Step(r, e).stats == counted;
    assert NodesOn(Step(r, e).tables, link.url.domain)
           <= Cached(Step(r, e), link.url.domain) + Lag(Step(r, e), link.url.domain);
  }
}
