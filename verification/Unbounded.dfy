/** The number of unfinished fetches has no bound in terms of CONCURRENCY: runs that reach any number. */
module Unbounded {
  import opened Prelude
  import opened Database
  import opened CrawlState
  import opened Scheduler
  import opened Turns
  import opened Overshoot

  // ---------------------------------------------------------------- as many hosts as it takes

  function Name(k: nat): Url {
    var text := seq(k, _ => 'x');
    Url(text, text, text, false)
  }

  lemma NamesDiffer(j: nat, k: nat)
    requires j != k
    ensures Name(j).domain != Name(k).domain && Name(j).origin != Name(k).origin && Name(j) != Name(k)
  {
    assert |Name(j).domain| == j && |Name(k).domain| == k;
    assert |Name(j).origin| == j && |Name(k).origin| == k;
  }

  /** Nothing in the state mentions the URL, its origin or its domain. */
  predicate Free(fr: Frame, u: Url) {
    && u !in fr.tables.frontier && u !in fr.tables.visited && u.origin !in fr.checked
    && u.domain !in fr.inflight && u.domain !in fr.failed
  }

  predicate Waiter(body: Body) { body.pc.CheckingRobots? && body.rest == [] && body.startedAny }

  /** `n` bodies wait for robots.txt, nothing is being fetched, and a call is scheduled. */
  ghost predicate Round(fr: Frame, n: nat) {
    && fr.active == 0 && fr.wakeups == 1 && fr.nextBody == n && fr.dispatched == n && fr.fetches == map[]
    && (forall b: nat :: b in fr.bodies <==> b < n) && (forall b | b in fr.bodies :: Waiter(fr.bodies[b]))
    && WellFormed(fr.tables) && fr.cursor < fr.tables.nextId
    && (forall u | u in fr.tables.frontier :: fr.tables.frontier[u].id <= fr.cursor)
    && (forall k: nat | k >= 2 * n + 10 :: Free(fr, Name(k)))
  }

  // ---------------------------------------------------------------- one more body

  function U(n: nat): Url { Name(2 * n + 10) }

  function V(n: nat): Url { Name(2 * n + 11) }

  function First(fr: Frame, n: nat): Item { Item(U(n), 0, None, fr.tables.nextId) }

  function Second(fr: Frame, n: nat): Item { Item(V(n), 0, None, fr.tables.nextId + 1) }

  /** The seeding timer adds two URLs, ... */
  function Seeded(fr: Frame, n: nat): Frame {
    var f1 := fr.(tables := Inserted(fr.tables, U(n), 0, None));
    f1.(tables := Inserted(f1.tables, V(n), 0, None))
  }

  /** ... a body reads them, ... */
  function Taken(fr: Frame, n: nat): Frame { Begun(Seeded(fr, n)).(cursor := fr.tables.nextId + 1) }

  /** ... fetches the first, ... */
  function Started(fr: Frame, n: nat): Frame {
    Charged(Taken(fr, n).(checked := Taken(fr, n).checked + {U(n).origin}), First(fr, n), 0)
  }

  /** ... and waits for the robots.txt of the second. The first fetch fails. */
  function Next(fr: Frame, n: nat): Frame {
    Finished(GivenUp(Waits(Started(fr, n), n, Second(fr, n), 0, [], true), First(fr, n)), n, First(fr, n))
  }

  lemma Seeds(s: Crawl, es: seq<Event>, m: Crawl, fr: Frame, u: Url) returns (es2: seq<Event>, r: Crawl)
    requires Path(s, es, m) && Shows(m, fr) && Alone(fr, fr.nextBody) && fr.nextBody !in fr.bodies
    ensures Path(s, es2, r) && Shows(r, fr.(tables := Inserted(fr.tables, u, 0, None)))
  {
    es2, r := es + [SeedTimer(u)], Step(m, SeedTimer(u));
    Onwards(s, es, m, SeedTimer(u));
  }

  lemma TwoRows(t: Tables, cursor: nat, u: Url, v: Url)
    requires Above(t, cursor) == {u, v} && cursor < t.frontier[u].id < t.frontier[v].id
    ensures Batch(t, cursor, BATCH) == [RowItem(t, u)] + [RowItem(t, v)]
  {
    var i, j := t.frontier[u].id, t.frontier[v].id;
    assert u in Above(t, cursor) && v in Above(t, cursor);
    assert forall w | w in Above(t, i) || w in Above(t, j) :: w in Above(t, cursor);
    assert Above(t, i) == {v} && Above(t, j) == {};
    var b := Batch(t, cursor, BATCH);
    assert b != [];
    BatchUnfold(t, cursor, BATCH);
    BatchUnfold(t, i, BATCH - 1);
    assert b == [b[0]] + b[1..] && b[1..] == [b[1]] + b[1..][1..];
  }

  lemma SeededRows(fr: Frame, n: nat)
    requires Round(fr, n)
    ensures Batch(Seeded(fr, n).tables, fr.cursor, BATCH) == [First(fr, n)] + [Second(fr, n)]
    ensures U(n) !in fr.tables.visited && V(n) !in fr.tables.visited
  {
    NamesDiffer(2 * n + 10, 2 * n + 11);
    assert Free(fr, Name(2 * n + 10)) && Free(fr, Name(2 * n + 11));
    var t := Seeded(fr, n).tables;
    assert t.frontier == fr.tables.frontier[U(n) := FrontierRow(fr.tables.nextId, 0, None)]
                                           [V(n) := FrontierRow(fr.tables.nextId + 1, 0, None)];
    assert Above(t, fr.cursor) == {U(n), V(n)};
    TwoRows(t, fr.cursor, U(n), V(n));
  }

  lemma SeedsBoth(s: Crawl, es: seq<Event>, m: Crawl, fr: Frame, n: nat) returns (es2: seq<Event>, r: Crawl)
    requires Path(s, es, m) && Shows(m, fr) && Round(fr, n)
    ensures Path(s, es2, r) && Shows(r, Seeded(fr, n))
  {
    var es1, s1 := Seeds(s, es, m, fr, U(n));
    es2, r := Seeds(s, es1, s1, fr.(tables := Inserted(fr.tables, U(n), 0, None)), V(n));
  }

  lemma RoundReads(s: Crawl, es: seq<Event>, m: Crawl, fr: Frame, n: nat) returns (es2: seq<Event>, r: Crawl)
    requires Path(s, es, m) && Shows(m, fr) && Round(fr, n)
    ensures Path(s, es2, r) && Shows(r, Put(Taken(fr, n), n, AtItem, [First(fr, n)] + [Second(fr, n)], false))
  {
    SeededRows(fr, n);
    var es1, s1 := SeedsBoth(s, es, m, fr, n);
    var es3, s3 := Reads(s, es1, s1, Seeded(fr, n));
    es2, r := Takes(s, es3, s3, Begun(Seeded(fr, n)), n, [First(fr, n)] + [Second(fr, n)]);
  }

  lemma RoundFree(fr: Frame, n: nat)
    requires Round(fr, n)
    ensures Fresh(Taken(fr, n), First(fr, n)) && U(n).origin !in Taken(fr, n).checked
    ensures Fresh(Started(fr, n), Second(fr, n)) && V(n).origin !in Started(fr, n).checked
    ensures Get(fr.inflight, U(n).domain) == 0 && Get(Started(fr, n).inflight, V(n).domain) == 0
    ensures U(n).domain !in fr.failed
  {
    NamesDiffer(2 * n + 10, 2 * n + 11);
    assert Free(fr, Name(2 * n + 10)) && Free(fr, Name(2 * n + 11));
    assert |U(n).domain| == 2 * n + 10 && |V(n).domain| == 2 * n + 11;
  }

  lemma AsksFirst(s: Crawl, es: seq<Event>, m: Crawl, fr: Frame, n: nat) returns (es2: seq<Event>, r: Crawl)
    requires Path(s, es, m) && Round(fr, n)
    requires Shows(m, Put(Taken(fr, n), n, AtItem, [First(fr, n)] + [Second(fr, n)], false))
    ensures Path(s, es2, r) && Shows(r, Put(Started(fr, n), n, AtItem, [Second(fr, n)], true))
  {
    RoundFree(fr, n);
    var one, two, f1 := First(fr, n), Second(fr, n), Taken(fr, n);
    var es1, s1 := Asks(s, es, m, f1, n, one, [two], false);
    es2, r := Answered(s, es1, s1, f1.(checked := f1.checked + {one.url.origin}), n, one, 0, [two], false);
  }

  lemma RoundAsks(s: Crawl, es: seq<Event>, m: Crawl, fr: Frame, n: nat) returns (es2: seq<Event>, r: Crawl)
    requires Path(s, es, m) && Round(fr, n)
    requires Shows(m, Put(Taken(fr, n), n, AtItem, [First(fr, n)] + [Second(fr, n)], false))
    ensures Path(s, es2, r) && Shows(r, Waits(Started(fr, n), n, Second(fr, n), 0, [], true))
  {
    RoundFree(fr, n);
    var es1, s1 := AsksFirst(s, es, m, fr, n);
    assert [Second(fr, n)] == [Second(fr, n)] + [];
    es2, r := Asks(s, es1, s1, Started(fr, n), n, Second(fr, n), [], true);
  }

  lemma RoundFails(s: Crawl, es: seq<Event>, m: Crawl, fr: Frame, n: nat) returns (es2: seq<Event>, r: Crawl)
    requires Path(s, es, m) && Round(fr, n) && Shows(m, Waits(Started(fr, n), n, Second(fr, n), 0, [], true))
    ensures Path(s, es2, r) && Shows(r, Next(fr, n))
  {
    var f1 := Waits(Started(fr, n), n, Second(fr, n), 0, [], true);
    OneFetch(fr, n);
    es2, r := Fails(s, es, m, f1, n, First(fr, n));
  }

  lemma OneFetch(fr: Frame, n: nat)
    requires Round(fr, n)
    ensures var f1 := Waits(Started(fr, n), n, Second(fr, n), 0, [], true);
      In(f1, n, First(fr, n), Fetching) == f1 && AloneFetch(f1, n) && U(n).domain !in f1.failed
  {
    RoundFree(fr, n);
  }

  lemma NextTables(fr: Frame, n: nat)
    requires Round(fr, n)
    ensures var t := Next(fr, n).tables;
      && t.visited == fr.tables.visited + {U(n)} && t.nextId == fr.tables.nextId + 2
      && t.frontier == fr.tables.frontier[V(n) := FrontierRow(fr.tables.nextId + 1, 0, None)]
  {
    NamesDiffer(2 * n + 10, 2 * n + 11);
    assert Free(fr, Name(2 * n + 10)) && Free(fr, Name(2 * n + 11));
  }

  lemma NextFree(fr: Frame, n: nat, k: nat)
    requires Round(fr, n) && k >= 2 * n + 12
    ensures Free(Next(fr, n), Name(k))
  {
    NextTables(fr, n);
    NamesDiffer(2 * n + 10, k);
    NamesDiffer(2 * n + 11, k);
    assert Free(fr, Name(k));
  }

  lemma NextRows(fr: Frame, n: nat)
    requires Round(fr, n)
    ensures var t := Next(fr, n).tables;
      WellFormed(t) && forall u | u in t.frontier :: t.frontier[u].id <= fr.tables.nextId + 1
  {
    NextTables(fr, n);
  }

  lemma NextRound(fr: Frame, n: nat)
    requires Round(fr, n)
    ensures Round(Next(fr, n), n + 1)
  {
    NextRows(fr, n);
    NextTables(fr, n);
    var r := Next(fr, n);
    assert r.fetches == map[] && r.cursor == fr.tables.nextId + 1;
    assert r.bodies == fr.bodies[n := Body(CheckingRobots(Second(fr, n), 0), [], true)];
    forall k: nat | k >= 2 * (n + 1) + 10 ensures Free(r, Name(k)) { NextFree(fr, n, k); }
  }

  // ---------------------------------------------------------------- any number of them

  const START := Overshoot.START.(tables := TABLES.(frontier := map[]), firstCursor := None,
                                  stats := Overshoot.START.stats.(frontierCount := 0),
                                  past := Overshoot.START.past.(ever := {}))

  const EMPTIED := Frame(START.tables, 0, 0, {}, 1, map[], 0, map[], 0, map[], map[], false)

  lemma Begins()
    ensures Initial(START) && Path(START, [], START) && Shows(START, EMPTIED) && Round(EMPTIED, 0)
  {
    assert DomainCounts(START.tables) == DomainCounts(TABLES) by {
      assert Domains(START.tables) == Domains(TABLES);
      assert forall d :: NodesOn(START.tables, d) == NodesOn(TABLES, d);
    }
    assert |OLD.text| == 9;
    forall k: nat | k >= 10 ensures Free(EMPTIED, Name(k)) { assert |Name(k).text| == k; }
  }

  lemma OneMore(s: Crawl, es: seq<Event>, m: Crawl, fr: Frame, n: nat)
    returns (es2: seq<Event>, r: Crawl, fr2: Frame)
    requires Path(s, es, m) && Shows(m, fr) && Round(fr, n)
    ensures Path(s, es2, r) && Shows(r, fr2) && Round(fr2, n + 1)
  {
    fr2 := Next(fr, n);
    var es1, s1 := RoundReads(s, es, m, fr, n);
    var es3, s3 := RoundAsks(s, es1, s1, fr, n);
    es2, r := RoundFails(s, es3, s3, fr, n);
    NextRound(fr, n);
  }

  lemma {:induction false} Gathers(s: Crawl, fr0: Frame, n: nat) returns (es: seq<Event>, r: Crawl, fr: Frame)
    requires Path(s, [], s) && Shows(s, fr0) && Round(fr0, 0)
    ensures Path(s, es, r) && Shows(r, fr) && Round(fr, n)
  {
    if n == 0 {
      es, r, fr := [], s, fr0;
    } else {
      var es1, s1, f1 := Gathers(s, fr0, n - 1);
      es, r, fr := OneMore(s, es1, s1, f1, n - 1);
    }
  }

  /** Only bodies that wait for robots.txt, `n` of them, and fetches. */
  ghost predicate Gathered(fr: Frame, n: nat) {
    && (forall b: nat :: b in fr.bodies <==> b < n) && (forall b | b in fr.bodies :: Waiter(fr.bodies[b]))
    && (forall f | f in fr.fetches :: fr.fetches[f].phase == Fetching)
  }

  function Released(fr: Frame, b: nat): Frame
    requires b in fr.bodies && fr.bodies[b].pc.CheckingRobots?
  {
    Charged(fr.(bodies := fr.bodies - {b}), fr.bodies[b].pc.item, fr.bodies[b].pc.inflight)
  }

  lemma ReleasedGathered(fr: Frame, n: nat)
    requires Gathered(fr, n + 1)
    ensures Gathered(Released(fr, n), n)
  {
    assert n in fr.bodies;
  }

  /** The last of them is answered: it dispatches, and is over. */
  lemma Releases(s: Crawl, es: seq<Event>, m: Crawl, fr: Frame, n: nat)
    returns (es2: seq<Event>, r: Crawl, fr2: Frame)
    requires Path(s, es, m) && Shows(m, fr) && Gathered(fr, n + 1)
    ensures Path(s, es2, r) && Shows(r, fr2) && Gathered(fr2, n) && fr2.active == fr.active + 1
  {
    assert n in fr.bodies;
    fr2 := Released(fr, n);
    ReleasedGathered(fr, n);
    var pc := fr.bodies[n].pc;
    var f1 := fr.(bodies := fr.bodies - {n});
    assert Put(f1, n, pc, [], true).bodies == fr.bodies;
    var es1, s1 := Answered(s, es, m, f1, n, pc.item, pc.inflight, [], true);
    es2, r := Leaves(s, es1, s1, fr2, n, []);
  }

  lemma {:induction false} ReleasesAll(s: Crawl, es: seq<Event>, m: Crawl, fr: Frame, n: nat)
    returns (es2: seq<Event>, r: Crawl)
    requires Path(s, es, m) && Shows(m, fr) && Gathered(fr, n)
    ensures Path(s, es2, r) && r.active == fr.active + n
    decreases n
  {
    if n == 0 {
      es2, r := es, m;
    } else {
      var es1, s1, f1 := Releases(s, es, m, fr, n - 1);
      es2, r := ReleasesAll(s, es1, s1, f1, n - 1);
    }
  }

  lemma RoundGathered(fr: Frame, n: nat)
    requires Round(fr, n)
    ensures Gathered(fr, n)
  {
  }

  lemma Reaches(s: Crawl, fr0: Frame, n: nat) returns (es: seq<Event>)
    requires Path(s, [], s) && Shows(s, fr0) && Round(fr0, 0)
    ensures Uninterrupted(s, es) && Legal(s, es) && After(s, es).active == n
  {
    var es1, s1, fr := Gathers(s, fr0, n);
    RoundGathered(fr, n);
    var r;
    es, r := ReleasesAll(s, es1, s1, fr, n);
  }

  /** No bound at all: for every n there is a run from an initial state, without any overlap of turns,
      after which n fetches are unfinished. */
  lemma AnyNumber(n: nat) returns (es: seq<Event>)
    ensures Initial(START) && Uninterrupted(START, es) && Legal(START, es) && After(START, es).active == n
  {
    Begins();
    es := Reaches(START, EMPTIED, n);
  }
}
