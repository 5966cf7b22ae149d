/** Which links of a stored page a fetch chooses, and when it chooses none. */
module Links {
  import opened Prelude
  import opened Database
  import opened CrawlState
  import opened Scheduler
  import Integrity

  /** The links a fetch is about to insert. */
  function Chosen(s: Crawl, f: nat): seq<Item> {
    if f in s.fetches && s.fetches[f].phase.Linking? then s.fetches[f].phase.items else []
  }

  predicate Ascending(idx: seq<nat>) { forall j, k | 0 <= j < k < |idx| :: idx[j] < idx[k] }

  /** `chosen` is what is at the positions `idx` of the page. */
  predicate Picks(chosen: seq<Item>, idx: seq<nat>, links: seq<Url>, depth: int, parent: Url) {
    && |idx| == |chosen| && Ascending(idx)
    && forall k | 0 <= k < |idx| :: idx[k] < |links| && chosen[k] == Item(links[idx[k]], depth, Some(parent), 0)
  }

  /** Nothing speaks against the link: not the static blacklist, nor its depth, nor a limit on nodes or
      rows, nor the disk, nor its domain, which is neither full by the cache nor blacklisted. */
  predicate Welcome(st: Stats, depth: int, link: Url) {
    && !link.blacklisted && depth <= MAX_DEPTH
    && st.nodeCount < MAX_NODES && st.frontierCount < MAX_FRONTIER && !st.diskPaused
    && (link.domain == ""
        || (Get(st.domainNodeCount, link.domain) < DOMAIN_MAX && link.domain !in st.domainBlacklist))
  }

  predicate Complete(st: Stats, idx: seq<nat>, links: seq<Url>, depth: int) {
    forall j: nat | j < |links| :: j in idx <==> Welcome(st, depth, links[j])
  }

  lemma PicksNext(st: Stats, chosen: seq<Item>, idx: seq<nat>, links: seq<Url>, link: Url, depth: int, parent: Url)
    requires Picks(chosen, idx, links, depth, parent) && Complete(st, idx, links, depth)
    ensures Welcome(st, depth, link) ==>
              && Picks(chosen + [Item(link, depth, Some(parent), 0)], idx + [|links|], links + [link], depth, parent)
              && Complete(st, idx + [|links|], links + [link], depth)
    ensures !Welcome(st, depth, link) ==>
              Picks(chosen, idx, links + [link], depth, parent) && Complete(st, idx, links + [link], depth)
  {
    assert forall j: nat | j < |links| :: (links + [link])[j] == links[j];
  }

  lemma WantedIfWelcome(st: Stats, depth: int, link: Url)
    ensures Wanted(st, depth, link) <==> Welcome(st, depth + 1, link)
  {
  }

  lemma {:induction false} FollowedExactly(st: Stats, depth: int, parent: Url, links: seq<Url>) returns (idx: seq<nat>)
    ensures Picks(Followed(st, depth, parent, links), idx, links, depth + 1, parent)
    ensures Complete(st, idx, links, depth + 1)
  {
    if links == [] {
      idx := [];
    } else {
      var front, link := links[..|links| - 1], links[|links| - 1];
      var before := FollowedExactly(st, depth, parent, front);
      WantedIfWelcome(st, depth, link);
      PicksNext(st, Followed(st, depth, parent, front), before, front, link, depth + 1, parent);
      idx := if Wanted(st, depth, link) then before + [|front|] else before;
      assert front + [link] == links;
    }
  }

  /** The link loop of a fetch whose page has just been saved, exactly: it chooses the links at some
      ascending positions of the page, one level deeper, with the page as parent, and these are the
      positions of all links that nothing speaks against, after the save has been counted. */
  lemma ChoosesExactly(s: Crawl, f: nat, i: FetchInput) returns (idx: seq<nat>)
    requires Enabled(s, RunFetch(f, i)) && s.fetches[f].phase.Saved?
    ensures var r, item := Step(s, RunFetch(f, i)), s.fetches[f].item;
      && Picks(Chosen(r, f), idx, s.fetches[f].phase.links, item.depth + 1, s.fetches[f].phase.page.url)
      && Complete(r.stats, idx, s.fetches[f].phase.links, item.depth + 1)
  {
    var item, page, links := s.fetches[f].item, s.fetches[f].phase.page, s.fetches[f].phase.links;
    var counted := Tallied(s.stats, item.url.domain, Success(page.dom));
    idx := FollowedExactly(counted, item.depth, page.url, links);
    assert Step(s, RunFetch(f, i)).stats == counted;
    assert Chosen(Step(s, RunFetch(f, i)), f) == Followed(counted, item.depth, page.url, links);
  }

  // ---------------------------------------------------------------- when the crawl is full

  predicate IsRefresh(e: Event, worked: nat) {
    (e.RefreshTimer? && e.worked >= worked) || (e.FullRefreshTimer? && e.worked >= worked)
  }

  /** A refresh whose statements work makes the counters the numbers of rows. */
  lemma RefreshCounts(s: Crawl, e: Event)
    requires Enabled(s, e) && IsRefresh(e, 1)
    ensures Step(s, e).stats.nodeCount == |s.tables.nodes|
    ensures IsRefresh(e, 2) ==> Step(s, e).stats.frontierCount == |s.tables.frontier|
  {
  }

  ghost predicate Full(s: Crawl) { |s.tables.nodes| >= MAX_NODES && s.stats.nodeCount >= MAX_NODES }

  lemma NodesStay(s: Crawl, e: Event)
    requires Enabled(s, e)
    ensures |s.tables.nodes| <= |Step(s, e).tables.nodes|
  {
    StepTables(s, e);
    Integrity.OpGrows(s.tables, OpOf(s, e));
    SubsetSize(s.tables.nodes.Keys, Step(s, e).tables.nodes.Keys);
  }

  /** Only a refresh changes the count of nodes. */
  lemma CountStays(s: Crawl, e: Event)
    requires Enabled(s, e) && !IsRefresh(e, 1)
    ensures Step(s, e).stats.nodeCount == s.stats.nodeCount
  {
    if e.RunBody? {
      BodyStats(s, e.b, BodyActOf(s, s.bodies[e.b], e.inB));
    } else if e.RunFetch? {
      FetchCount(s, e.f, FetchActOf(s, s.fetches[e.f], e.inF));
    }
  }

  lemma FetchCount(s: Crawl, f: nat, act: FetchAct)
    requires f in s.fetches
    ensures FetchMoved(s, f, act).stats.nodeCount == s.stats.nodeCount
  {
    var d := s.fetches[f].item.url.domain;
    assert Tallied(s.stats, d, act.tally).nodeCount == s.stats.nodeCount;
  }

  lemma {:induction false} FullForever(s: Crawl, es: seq<Event>)
    requires Full(s) && Legal(s, es)
    ensures Full(After(s, es))
    decreases |es|
  {
    if es != [] {
      NodesStay(s, es[0]);
      if IsRefresh(es[0], 1) { RefreshCounts(s, es[0]); } else { CountStays(s, es[0]); }
      FullForever(Step(s, es[0]), es[1..]);
    }
  }

  lemma SomeBelowLimit(st: Stats, idx: seq<nat>, links: seq<Url>, depth: int)
    requires Complete(st, idx, links, depth) && forall k | 0 <= k < |idx| :: idx[k] < |links|
    ensures idx != [] ==> st.nodeCount < MAX_NODES
  {
    if idx != [] { assert idx[0] in idx; }
  }

  /** The node limit is for good: after a refresh that has counted MAX_NODES stored nodes, no scheduled
      call starts a body any more, and no fetch chooses a link, whatever happens. */
  lemma FullStops(s: Crawl, e: Event, es: seq<Event>)
    requires Enabled(s, e) && IsRefresh(e, 1) && |s.tables.nodes| >= MAX_NODES && Legal(Step(s, e), es)
    ensures var t := After(Step(s, e), es);
      && (Enabled(t, Wake) ==> Step(t, Wake).bodies == t.bodies)
      && (forall f, i | Enabled(t, RunFetch(f, i)) && t.fetches[f].phase.Saved? ::
            Chosen(Step(t, RunFetch(f, i)), f) == [])
  {
    NodesStay(s, e);
    RefreshCounts(s, e);
    FullForever(Step(s, e), es);
    var t := After(Step(s, e), es);
    forall f, i | Enabled(t, RunFetch(f, i)) && t.fetches[f].phase.Saved?
      ensures Chosen(Step(t, RunFetch(f, i)), f) == []
    {
      CountStays(t, RunFetch(f, i));
      var idx := ChoosesExactly(t, f, i);
      SomeBelowLimit(Step(t, RunFetch(f, i)).stats, idx, t.fetches[f].phase.links, t.fetches[f].item.depth + 1);
    }
  }

  /** A scheduled call starts exactly one body below the limit, and none at it. */
  lemma WakeStarts(s: Crawl)
    requires Enabled(s, Wake)
    ensures var r := Step(s, Wake);
      && r.wakeups == s.wakeups - 1
      && r.bodies == if s.stats.nodeCount < MAX_NODES then s.bodies[s.nextBody := Body(Yielding, [], false)]
                     else s.bodies
  {
  }

  // ---------------------------------------------------------------- what the timers do

  /** Each of the other events does its one thing to the tables or the counters. */
  lemma TimersDo(s: Crawl, e: Event)
    requires Enabled(s, e)
    ensures var t, r := s.tables, Step(s, e);
      && (e.DiskTimer? ==> r.tables == t && r.stats == s.stats.(diskPaused := e.paused))
      && (e.RecrawlReset? ==> r.tables == t && r.stats == s.stats.(recrawlAttempted := false))
      && (e.ClearTimer? ==> r.stats == s.stats && r.tables == t.(frontier := t.frontier - e.victims))
      && (e.CursorInit? ==> r.tables == t && r.stats == s.stats && Some(r.cursor) == s.firstCursor)
      && (e.SeedTimer? ==> r.stats == s.stats && InsertedRow(t, r.tables, e.url, 0, None))
      && (e.KafkaMessage? ==> r.stats == s.stats && InsertedRow(t, r.tables, e.msgUrl, e.msgDepth, e.msgParent))
  {
  }

  /** A row for the URL under a new id, unless it has one. */
  predicate InsertedRow(t: Tables, r: Tables, u: Url, depth: int, parent: Option<Url>) {
    if u in t.frontier then r == t
    else
      && r == t.(nextId := r.nextId, frontier := t.frontier[u := FrontierRow(t.nextId, depth, parent)])
      && r.nextId > t.nextId
  }
}
