/** The crawler over all its processes. A process ends when an unguarded await throws, or when it is
    killed; its parent starts the next one, which finds the tables and nothing else. */
module Restarts {
  import opened Prelude
  import opened Database
  import opened CrawlState
  import opened Scheduler
  import Integrity
  import Lossless

  // ---------------------------------------------------------------- what a start does to the tables

  /** cleanupFrontier drops a frontier that is too large, and removes visited rows otherwise. */
  ghost predicate Cleaned(t: Tables, r: Tables) { Trimmed(t, r) || r == t.(frontier := map[], nextId := 1) }

  function SeedItems(seeds: seq<Url>): seq<Item> {
    seq(|seeds|, k requires 0 <= k < |seeds| => Item(seeds[k], 0, None, 0))
  }

  /** initializeCrawl: the cleanup, perhaps a rebuild of the search index, and the seeds whose
      insertion works. `c` is the tables after the cleanup. */
  ghost predicate Initialized(t: Tables, c: Tables, seeds: seq<Url>, r: Tables) {
    Cleaned(t, c) && r == InsertedMany(c.(fts := r.fts), SeedItems(seeds))
  }

  /** One process: its start, what it does until it ends, by a throw or from outside, and its end. */
  datatype Life = Life(start: Crawl, cleaned: Tables, seeds: seq<Url>, es: seq<Event>, end: Crawl)

  ghost predicate Lived(l: Life) { Initial(l.start) && Legal(l.start, l.es) && l.end == After(l.start, l.es) }

  /** The k-th process starts from the tables that the one before has left. */
  ghost predicate Follows(ls: seq<Life>, k: nat) {
    && k < |ls| && Lived(ls[k])
    && (k > 0 ==> Initialized(ls[k - 1].end.tables, ls[k].cleaned, ls[k].seeds, ls[k].start.tables))
  }

  ghost predicate Lives(ls: seq<Life>) { forall k | 0 <= k < |ls| :: Follows(ls, k) }

  // ---------------------------------------------------------------- consistency and growth

  lemma SeedsGood(t: Tables, seeds: seq<Url>)
    ensures Integrity.GoodItems(t, SeedItems(seeds))
  {
  }

  lemma CleanedConsistent(t: Tables, c: Tables)
    requires Integrity.Consistent(t) && Cleaned(t, c)
    ensures Integrity.Consistent(c)
  {
  }

  lemma IndexLeavesConsistent(c: Tables, fts: multiset<FtsRow>)
    requires Integrity.Consistent(c)
    ensures Integrity.Consistent(c.(fts := fts))
  {
  }

  lemma StartConsistent(t: Tables, c: Tables, seeds: seq<Url>, r: Tables)
    requires Integrity.Consistent(t) && Initialized(t, c, seeds, r)
    ensures Integrity.Consistent(r)
  {
    var x := c.(fts := r.fts);
    CleanedConsistent(t, c);
    IndexLeavesConsistent(c, r.fts);
    SeedsGood(x, seeds);
    Integrity.InsertAllConsistent(x, SeedItems(seeds));
  }

  lemma StartGrows(t: Tables, c: Tables, seeds: seq<Url>, r: Tables)
    requires Initialized(t, c, seeds, r)
    ensures r.visited == t.visited && r.nodes == t.nodes
  {
    Lossless.InsertAllLeaves(c.(fts := r.fts), SeedItems(seeds));
  }

  lemma LifeConsistent(ls: seq<Life>, k: nat)
    requires Follows(ls, k) && Integrity.NoKafka(ls[k].es)
    requires Integrity.Consistent(if k == 0 then ls[0].start.tables else ls[k - 1].end.tables)
    ensures Integrity.Consistent(ls[k].start.tables) && Integrity.Consistent(ls[k].end.tables)
  {
    if k > 0 { StartConsistent(ls[k - 1].end.tables, ls[k].cleaned, ls[k].seeds, ls[k].start.tables); }
    Integrity.TablesStayConsistent(ls[k].start, ls[k].es);
  }

  ghost predicate ConsistentAt(ls: seq<Life>, k: nat)
    requires k < |ls|
  {
    Integrity.Consistent(ls[k].start.tables) && Integrity.Consistent(ls[k].end.tables)
  }

  ghost predicate ConsistentOn(ls: seq<Life>, k: nat) {
    0 < k < |ls| && (ConsistentAt(ls, k - 1) ==> ConsistentAt(ls, k))
  }

  lemma {:induction false} ConsistentFurther(ls: seq<Life>, k: nat)
    requires forall i | 0 < i < |ls| :: ConsistentOn(ls, i)
    requires k < |ls| && ConsistentAt(ls, 0)
    ensures ConsistentAt(ls, k)
    decreases k
  {
    if k > 0 {
      ConsistentFurther(ls, k - 1);
      assert ConsistentOn(ls, k);
    }
  }

  /** The tables stay consistent through any number of processes, however they end, as long as none
      of them gets Kafka input. */
  lemma ConsistentForever(ls: seq<Life>, k: nat)
    requires Lives(ls) && k < |ls| && Integrity.Consistent(ls[0].start.tables)
    requires forall j | 0 <= j < |ls| :: Integrity.NoKafka(ls[j].es)
    ensures Integrity.Consistent(ls[k].start.tables) && Integrity.Consistent(ls[k].end.tables)
  {
    LifeConsistent(ls, 0);
    forall i | 0 < i < |ls| ensures ConsistentOn(ls, i) {
      if ConsistentAt(ls, i - 1) { LifeConsistent(ls, i); }
    }
    ConsistentFurther(ls, k);
  }

  ghost predicate Grown(t: Tables, r: Tables) { t.visited <= r.visited && t.nodes.Keys <= r.nodes.Keys }

  lemma LifeGrows(ls: seq<Life>, k: nat)
    requires Follows(ls, k)
    ensures Grown(ls[k].start.tables, ls[k].end.tables)
    ensures k > 0 ==> Grown(ls[k - 1].end.tables, ls[k].end.tables)
  {
    Lossless.LosslessRun(ls[k].start, ls[k].es);
    if k > 0 { StartGrows(ls[k - 1].end.tables, ls[k].cleaned, ls[k].seeds, ls[k].start.tables); }
  }

  lemma GrownFurther(t: Tables, m: Tables, r: Tables)
    requires Grown(t, m) && Grown(m, r)
    ensures Grown(t, r)
  {
  }

  /** Visited URLs and nodes are never forgotten by a later process. */
  lemma {:induction false} GrowsForever(ls: seq<Life>, j: nat, k: nat)
    requires Lives(ls) && j <= k < |ls|
    ensures Grown(ls[j].start.tables, ls[k].end.tables)
    decreases k
  {
    LifeGrows(ls, k);
    if j < k {
      GrowsForever(ls, j, k - 1);
      GrownFurther(ls[j].start.tables, ls[k - 1].end.tables, ls[k].end.tables);
    }
  }

  // ---------------------------------------------------------------- no URL is lost

  /** The domains that some process up to the k-th had blacklisted when it ended. The next process
      does not know them any more. */
  function Blacklisted(ls: seq<Life>, k: nat): set<string>
    requires k < |ls|
  {
    ls[k].end.stats.domainBlacklist + if k == 0 then {} else Blacklisted(ls, k - 1)
  }

  /** The start finds no frontier so large that it drops it. */
  ghost predicate Keeps(ls: seq<Life>, k: nat) { 0 < k < |ls| && Trimmed(ls[k - 1].end.tables, ls[k].cleaned) }

  ghost predicate NeverDropped(ls: seq<Life>) { forall k | 0 < k < |ls| :: Keeps(ls, k) }

  lemma StartKeeps(t: Tables, c: Tables, seeds: seq<Url>, r: Tables, black: set<string>, u: Url)
    requires Initialized(t, c, seeds, r) && Trimmed(t, c) && Lossless.Kept(t, black, u)
    ensures Lossless.Kept(r, black, u)
  {
    var x := c.(fts := r.fts);
    InsertManyKeys(x, SeedItems(seeds));
    Lossless.InsertAllLeaves(x, SeedItems(seeds));
  }

  /** A process keeps what an earlier blacklist accounts for, and what its own does. */
  lemma RunKeeps(s: Crawl, es: seq<Event>, black: set<string>, u: Url)
    requires Initial(s) && Legal(s, es) && Lossless.Kept(s.tables, black, u)
    ensures Lossless.Kept(After(s, es).tables, After(s, es).stats.domainBlacklist + black, u)
  {
    Lossless.LosslessRun(s, es);
    if u.domain !in black { assert Lossless.Kept(s.tables, s.stats.domainBlacklist, u); }
  }

  lemma KeptByNext(ls: seq<Life>, k: nat, u: Url)
    requires Follows(ls, k) && Keeps(ls, k) && Lossless.Kept(ls[k - 1].end.tables, Blacklisted(ls, k - 1), u)
    ensures Lossless.Kept(ls[k].end.tables, Blacklisted(ls, k), u)
  {
    var l, black := ls[k], Blacklisted(ls, k - 1);
    StartKeeps(ls[k - 1].end.tables, l.cleaned, l.seeds, l.start.tables, black, u);
    RunKeeps(l.start, l.es, black, u);
    assert Blacklisted(ls, k) == l.end.stats.domainBlacklist + black;
  }

  lemma KeptAtEnd(ls: seq<Life>, k: nat, u: Url)
    requires Follows(ls, k) && u in ls[k].end.past.ever
    ensures Lossless.Kept(ls[k].end.tables, Blacklisted(ls, k), u)
  {
    Lossless.NoUrlLost(ls[k].start, ls[k].es, u);
    assert ls[k].end.stats.domainBlacklist <= Blacklisted(ls, k);
  }

  predicate KeptAt(ls: seq<Life>, k: nat, u: Url)
    requires k < |ls|
  {
    Lossless.Kept(ls[k].end.tables, Blacklisted(ls, k), u)
  }

  predicate KeptOn(ls: seq<Life>, k: nat, u: Url) { 0 < k < |ls| && (KeptAt(ls, k - 1, u) ==> KeptAt(ls, k, u)) }

  lemma {:induction false} KeptFurther(ls: seq<Life>, j: nat, k: nat, u: Url)
    requires forall i | 0 < i < |ls| :: KeptOn(ls, i, u)
    requires j <= k < |ls| && KeptAt(ls, j, u)
    ensures KeptAt(ls, k, u)
    decreases k
  {
    if j < k {
      KeptFurther(ls, j, k - 1, u);
      assert KeptOn(ls, k, u);
    }
  }

  /** No URL is lost over all processes either: unless a start drops a frontier that is too large,
      each URL that was ever in the frontier of some process is, when a later one ends, still there
      or visited, or has no domain, or is on a domain that some process had blacklisted. */
  lemma NoUrlLostForever(ls: seq<Life>, j: nat, k: nat, u: Url)
    requires Lives(ls) && NeverDropped(ls) && j <= k < |ls| && u in ls[j].end.past.ever
    ensures Lossless.Kept(ls[k].end.tables, Blacklisted(ls, k), u)
  {
    KeptAtEnd(ls, j, u);
    forall i | 0 < i < |ls| ensures KeptOn(ls, i, u) {
      assert Follows(ls, i) && Keeps(ls, i);
      if KeptAt(ls, i - 1, u) { KeptByNext(ls, i, u); }
    }
    KeptFurther(ls, j, k, u);
  }

  /** A start that drops the frontier loses exactly the unvisited URLs that are not seeds. */
  lemma DropLoses(t: Tables, seeds: seq<Url>, r: Tables, u: Url)
    requires Initialized(t, t.(frontier := map[], nextId := 1), seeds, r) && u in t.frontier
    ensures u in r.frontier || u in r.visited <==> u in seeds || u in t.visited
  {
    var c := t.(frontier := map[], nextId := 1);
    InsertManyKeys(c.(fts := r.fts), SeedItems(seeds));
    Lossless.InsertAllLeaves(c.(fts := r.fts), SeedItems(seeds));
    assert Urls(SeedItems(seeds)) == set v | v in seeds by {
      forall v | v in seeds ensures v in Urls(SeedItems(seeds)) {
        var k :| 0 <= k < |seeds| && seeds[k] == v;
        assert SeedItems(seeds)[k] in SeedItems(seeds);
      }
    }
  }
}
