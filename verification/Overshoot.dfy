/** A run, possible on SQLite, in which three limits fail at once: three fetches are unfinished with
    CONCURRENCY 2, all on one domain with DOMAIN_LIMIT 2, two of them for the same URL. */
module Overshoot {
  import opened Prelude
  import opened Database
  import opened CrawlState
  import opened Scheduler
  import opened Turns
  import Politeness

  ghost predicate Path(s: Crawl, es: seq<Event>, r: Crawl) {
    Uninterrupted(s, es) && Legal(s, es) && After(s, es) == r
  }

  lemma {:induction false} Onwards(s: Crawl, es: seq<Event>, m: Crawl, e: Event)
    requires Path(s, es, m) && Enabled(m, e) && InTurn(m, e)
    ensures Path(s, es + [e], Step(m, e))
    decreases |es|
  {
    var more := es + [e];
    if es == [] {
      assert more[0] == e && more[1..] == [];
    } else {
      Onwards(Step(s, es[0]), es[1..], m, e);
      assert more[0] == es[0] && more[1..] == es[1..] + [e];
    }
  }

  // ---------------------------------------------------------------- the scene

  /** A page of an earlier run, and three new URLs, two of them on one domain. */
  const OLD := Url("http://n/", "n", "http://n", false)
  const FIRST := Url("http://a/", "a", "http://a", false)
  const HOT := Url("http://b/", "b", "http://b", false)
  const SIDE := Url("http://b/2", "b", "http://b", false)
  const FIRST_ITEM := Item(FIRST, 0, None, 1)
  const HOT_ITEM := Item(HOT, 0, None, 2)
  const SIDE_ITEM := Item(SIDE, 0, None, 3)
  const OLD_ITEM := Item(OLD, RECRAWL, None, 4)

  const TABLES := Tables(map[OLD := NodeRow("", "", "n", 0, None, 1, "", false, "", "", "", 0, 0)], {OLD},
                         map[FIRST := FrontierRow(1, 0, None), HOT := FrontierRow(2, 0, None),
                             SIDE := FrontierRow(3, 0, None)], 4, multiset{})

  const START := Crawl(TABLES, FRESH.(nodeCount := 1, frontierCount := 3, domainNodeCount := DomainCounts(TABLES)),
                       0, 0, Some(0), {}, 1, map[], 0, map[], false,
                       History(false, {FIRST, HOT, SIDE}, 0, 0, 0, false, false))

  lemma StartIsInitial()
    ensures Initial(START)
  {
    assert TABLES.frontier.Keys == {FIRST, HOT, SIDE};
  }

  /** What the environment decides: statements work, robots.txt blocks nothing, fetches fail. */
  const IN := BodyInput(true, false, None, [OLD])
  const LOST := FetchInput(None, true, true)

  function RowItem(t: Tables, u: Url): Item
    requires u in t.frontier
  {
    Item(u, t.frontier[u].depth, t.frontier[u].parent, t.frontier[u].id)
  }

  lemma ThreeRows(t: Tables, u: Url, v: Url, w: Url)
    requires t.frontier.Keys == {u, v, w}
    requires 0 < t.frontier[u].id < t.frontier[v].id < t.frontier[w].id
    ensures Batch(t, 0, BATCH) == [RowItem(t, u), RowItem(t, v), RowItem(t, w)]
  {
    var i, j, k := t.frontier[u].id, t.frontier[v].id, t.frontier[w].id;
    assert u in Above(t, 0) && Above(t, i) == {v, w} && Above(t, j) == {w} && Above(t, k) == {};
    var b := Batch(t, 0, BATCH);
    assert b != [];
    BatchUnfold(t, 0, BATCH);
    BatchUnfold(t, i, BATCH - 1);
    BatchUnfold(t, j, BATCH - 2);
    assert b == [b[0]] + b[1..] && b[1..] == [b[1]] + b[1..][1..];
    assert b[1..][1..] == [RowItem(t, w)];
  }

  // ---------------------------------------------------------------- what a step does to the scene

  /** The parts of a state that decide how the run goes on. */
  datatype Frame = Frame(tables: Tables, active: int, cursor: nat, checked: set<string>, wakeups: nat,
                         bodies: map<nat, Body>, nextBody: nat, fetches: map<nat, Fetch>, dispatched: nat,
                         inflight: map<string, nat>, failed: map<string, nat>, attempted: bool)

  ghost predicate Shows(s: Crawl, fr: Frame) {
    && s.tables == fr.tables && s.active == fr.active && s.cursor == fr.cursor && s.domainsChecked == fr.checked
    && s.wakeups == fr.wakeups && s.bodies == fr.bodies && s.nextBody == fr.nextBody && s.fetches == fr.fetches
    && s.past.dispatched == fr.dispatched && s.firstCursor.None? && !s.exited
    && s.stats.nodeCount == 1 && s.stats.frontierCount <= 3 && s.stats.domainBlacklist == {}
    && s.stats.domainSuccess == map[] && s.stats.domainInflight == fr.inflight && s.stats.domainFail == fr.failed
    && s.stats.recrawlAttempted == fr.attempted
  }

  /** Nobody but body `b` is past an await that lets others in. */
  predicate Alone(fr: Frame, b: nat) {
    && (forall c | c in fr.bodies && c != b :: Pauses(fr.bodies[c].pc))
    && (forall f | f in fr.fetches :: fr.fetches[f].phase == Fetching)
  }

  function Put(fr: Frame, b: nat, pc: Pc, rest: seq<Item>, startedAny: bool): Frame {
    fr.(bodies := fr.bodies[b := Body(pc, rest, startedAny)])
  }

  /** A fetch of `item` is under way. */
  function Charged(fr: Frame, item: Item, inflight: nat): Frame {
    fr.(active := fr.active + 1, inflight := fr.inflight[item.url.domain := inflight + 1],
        fetches := fr.fetches[fr.dispatched := Fetch(item, Fetching)], dispatched := fr.dispatched + 1)
  }

  function Fetches(fr: Frame, b: nat, item: Item, inflight: nat, rest: seq<Item>): Frame {
    Put(Charged(fr, item, inflight), b, AtItem, rest, true)
  }

  lemma Wakes(s: Crawl, es: seq<Event>, m: Crawl, fr: Frame) returns (es2: seq<Event>, r: Crawl)
    requires Path(s, es, m) && Shows(m, fr) && Alone(fr, fr.nextBody) && fr.nextBody !in fr.bodies && fr.wakeups > 0
    ensures Path(s, es2, r)
    ensures Shows(r, Put(fr, fr.nextBody, Yielding, [], false).(wakeups := fr.wakeups - 1, nextBody := fr.nextBody + 1))
  {
    es2, r := es + [Wake], Step(m, Wake);
    Onwards(s, es, m, Wake);
  }

  function Moved(fr: Frame, b: nat, act: BodyAct): Frame
    requires act.next.Stay?
  {
    fr.(tables := Executed(fr.tables, act.op), cursor := act.cursor, checked := act.domainsChecked,
        attempted := act.recrawlAttempted, bodies := fr.bodies[b := act.next.body])
  }

  /** The next step of a body that stays in its own code. */
  lemma Moves(s: Crawl, es: seq<Event>, m: Crawl, fr: Frame, b: nat) returns (es2: seq<Event>, r: Crawl)
    requires Path(s, es, m) && Shows(m, fr) && Alone(fr, b) && b in fr.bodies
    requires Enabled(m, RunBody(b, IN)) && BodyActOf(m, fr.bodies[b], IN).next.Stay?
    ensures Path(s, es2, r) && Shows(r, Moved(fr, b, BodyActOf(m, fr.bodies[b], IN)))
    ensures r.past.raced == m.past.raced
  {
    es2, r := es + [RunBody(b, IN)], Step(m, RunBody(b, IN));
    Onwards(s, es, m, RunBody(b, IN));
  }

  lemma Ends(s: Crawl, es: seq<Event>, m: Crawl, fr: Frame, b: nat, wake: bool) returns (es2: seq<Event>, r: Crawl)
    requires Path(s, es, m) && Shows(m, fr) && Alone(fr, b) && b in fr.bodies && !fr.bodies[b].pc.ReadingTargets?
    requires var act := BodyActOf(m, fr.bodies[b], IN); act == Goto(m, fr.bodies[b], Keep, Yielding).(next := End(wake))
    ensures Path(s, es2, r) && Shows(r, fr.(bodies := fr.bodies - {b}, wakeups := fr.wakeups + One(wake)))
  {
    es2, r := es + [RunBody(b, IN)], Step(m, RunBody(b, IN));
    Onwards(s, es, m, RunBody(b, IN));
  }

  lemma DispatchShows(m: Crawl, fr: Frame, b: nat, act: BodyAct)
    requires Shows(m, fr) && b in m.bodies && act.next.Dispatch? && act.op == Keep && act.cursor == fr.cursor
    requires act.domainsChecked == fr.checked && act.recrawlAttempted == fr.attempted
    ensures var r := BodyMoved(m, b, act);
      && Shows(r, Fetches(fr, b, act.next.item, act.next.inflight, act.next.rest))
      && r.past.raced == (m.past.raced || Get(fr.inflight, act.next.item.url.domain) != act.next.inflight)
  {
    BodyStats(m, b, act);
  }

  lemma SameShown(m: Crawl, r: Crawl, fr: Frame)
    requires Shows(r, fr)
    ensures Shows(Remembered(m, r), fr)
  {
  }

  lemma Dispatches(s: Crawl, es: seq<Event>, m: Crawl, fr: Frame, b: nat, item: Item, inflight: nat, rest: seq<Item>)
    returns (es2: seq<Event>, r: Crawl)
    requires Path(s, es, m) && Shows(m, fr) && Alone(fr, b) && b in fr.bodies && !fr.bodies[b].pc.ReadingTargets?
    requires var act := BodyActOf(m, fr.bodies[b], IN);
      && act.op == Keep && act.next == Dispatch(item, inflight, rest) && act.cursor == fr.cursor
      && act.domainsChecked == fr.checked && act.recrawlAttempted == fr.attempted
    ensures Path(s, es2, r) && Shows(r, Fetches(fr, b, item, inflight, rest))
    ensures r.past.raced == (m.past.raced || Get(fr.inflight, item.url.domain) != inflight)
  {
    var act := BodyActOf(m, fr.bodies[b], IN);
    es2, r := es + [RunBody(b, IN)], Step(m, RunBody(b, IN));
    Onwards(s, es, m, RunBody(b, IN));
    DispatchShows(m, fr, b, act);
    SameShown(m, BodyMoved(m, b, act), Fetches(fr, b, item, inflight, rest));
  }

  // ---------------------------------------------------------------- the legs of the run

  lemma PutTwice(fr: Frame, b: nat, pc: Pc, rest: seq<Item>, startedAny: bool, body: Body)
    ensures Put(fr, b, pc, rest, startedAny).bodies[b := body] == fr.bodies[b := body]
  {
  }

  lemma Yields(s: Crawl, es: seq<Event>, m: Crawl, fr: Frame, b: nat) returns (es2: seq<Event>, r: Crawl)
    requires Path(s, es, m) && Shows(m, Put(fr, b, Yielding, [], false)) && Alone(fr, b) && fr.active < CONCURRENCY
    ensures Path(s, es2, r) && Shows(r, Put(fr, b, ReadingBatch(fr.cursor), [], false))
  {
    es2, r := Moves(s, es, m, Put(fr, b, Yielding, [], false), b);
    PutTwice(fr, b, Yielding, [], false, Body(ReadingBatch(fr.cursor), [], false));
  }

  lemma Queries(s: Crawl, es: seq<Event>, m: Crawl, fr: Frame, b: nat) returns (es2: seq<Event>, r: Crawl)
    requires Path(s, es, m) && Shows(m, Put(fr, b, ReadingBatch(fr.cursor), [], false)) && Alone(fr, b)
    ensures Path(s, es2, r) && Shows(r, Put(fr, b, HoldingBatch(Batch(fr.tables, fr.cursor, BATCH)), [], false))
  {
    es2, r := Moves(s, es, m, Put(fr, b, ReadingBatch(fr.cursor), [], false), b);
    var rows := Batch(fr.tables, fr.cursor, BATCH);
    PutTwice(fr, b, ReadingBatch(fr.cursor), [], false, Body(HoldingBatch(rows), [], false));
  }

  /** A scheduled call begins. */
  function Begun(fr: Frame): Frame { fr.(wakeups := Max(0, fr.wakeups - 1), nextBody := fr.nextBody + 1) }

  /** A scheduled call: from its start to the answer of getBatch. */
  lemma Reads(s: Crawl, es: seq<Event>, m: Crawl, fr: Frame) returns (es2: seq<Event>, r: Crawl)
    requires Path(s, es, m) && Shows(m, fr) && Alone(fr, fr.nextBody) && fr.nextBody !in fr.bodies
    requires fr.wakeups > 0 && fr.active < CONCURRENCY
    ensures Path(s, es2, r)
    ensures Shows(r, Put(Begun(fr), fr.nextBody, HoldingBatch(Batch(fr.tables, fr.cursor, BATCH)), [], false))
  {
    var es1, s1 := Wakes(s, es, m, fr);
    var es3, s3 := Yields(s, es1, s1, Begun(fr), fr.nextBody);
    es2, r := Queries(s, es3, s3, Begun(fr), fr.nextBody);
  }

  lemma Takes(s: Crawl, es: seq<Event>, m: Crawl, fr: Frame, b: nat, rows: seq<Item>)
    returns (es2: seq<Event>, r: Crawl)
    requires Path(s, es, m) && Shows(m, Put(fr, b, HoldingBatch(rows), [], false)) && Alone(fr, b) && rows != []
    ensures Path(s, es2, r) && Shows(r, Put(fr.(cursor := rows[|rows| - 1].id), b, AtItem, rows, false))
  {
    es2, r := Moves(s, es, m, Put(fr, b, HoldingBatch(rows), [], false), b);
    PutTwice(fr, b, HoldingBatch(rows), [], false, Body(AtItem, rows, false));
  }

  lemma Picks(s: Crawl, es: seq<Event>, m: Crawl, fr: Frame, b: nat, item: Item, rest: seq<Item>, started: bool)
    returns (es2: seq<Event>, r: Crawl)
    requires Path(s, es, m) && Shows(m, Put(fr, b, AtItem, [item] + rest, started)) && Alone(fr, b)
    requires fr.active < CONCURRENCY && item.depth == 0
    ensures Path(s, es2, r) && Shows(r, Put(fr, b, ReadingVisited(item), rest, started))
  {
    assert ([item] + rest)[1..] == rest;
    es2, r := Moves(s, es, m, Put(fr, b, AtItem, [item] + rest, started), b);
    PutTwice(fr, b, AtItem, [item] + rest, started, Body(ReadingVisited(item), rest, started));
  }

  lemma Looks(s: Crawl, es: seq<Event>, m: Crawl, fr: Frame, b: nat, item: Item, rest: seq<Item>, started: bool)
    returns (es2: seq<Event>, r: Crawl)
    requires Path(s, es, m) && Shows(m, Put(fr, b, ReadingVisited(item), rest, started)) && Alone(fr, b)
    requires item.url !in fr.tables.visited
    ensures Path(s, es2, r) && Shows(r, Put(fr, b, HoldingVisited(item, false), rest, started))
  {
    es2, r := Moves(s, es, m, Put(fr, b, ReadingVisited(item), rest, started), b);
    PutTwice(fr, b, ReadingVisited(item), rest, started, Body(HoldingVisited(item, false), rest, started));
  }

  function Waits(fr: Frame, b: nat, item: Item, n: nat, rest: seq<Item>, started: bool): Frame {
    Put(fr.(checked := fr.checked + {item.url.origin}), b, CheckingRobots(item, n), rest, started)
  }

  predicate Fresh(fr: Frame, item: Item) {
    item.depth == 0 && item.url.domain != "" && item.url !in fr.tables.visited
    && Get(fr.inflight, item.url.domain) < DOMAIN_LIMIT && fr.active < CONCURRENCY
  }

  lemma Checks(s: Crawl, es: seq<Event>, m: Crawl, fr: Frame, b: nat, item: Item, rest: seq<Item>, started: bool)
    returns (es2: seq<Event>, r: Crawl)
    requires Path(s, es, m) && Shows(m, Put(fr, b, HoldingVisited(item, false), rest, started)) && Alone(fr, b)
    requires Fresh(fr, item) && item.url.origin !in fr.checked
    ensures Path(s, es2, r) && Shows(r, Waits(fr, b, item, Get(fr.inflight, item.url.domain), rest, started))
  {
    var n := Get(fr.inflight, item.url.domain);
    es2, r := Moves(s, es, m, Put(fr, b, HoldingVisited(item, false), rest, started), b);
    PutTwice(fr, b, HoldingVisited(item, false), rest, started, Body(CheckingRobots(item, n), rest, started));
  }

  lemma Goes(s: Crawl, es: seq<Event>, m: Crawl, fr: Frame, b: nat, item: Item, rest: seq<Item>, started: bool)
    returns (es2: seq<Event>, r: Crawl)
    requires Path(s, es, m) && Shows(m, Put(fr, b, HoldingVisited(item, false), rest, started)) && Alone(fr, b)
    requires Fresh(fr, item) && item.url.origin in fr.checked
    ensures Path(s, es2, r) && Shows(r, Fetches(fr, b, item, Get(fr.inflight, item.url.domain), rest))
  {
    var n := Get(fr.inflight, item.url.domain);
    es2, r := Dispatches(s, es, m, Put(fr, b, HoldingVisited(item, false), rest, started), b, item, n, rest);
    PutTwice(fr, b, HoldingVisited(item, false), rest, started, Body(AtItem, rest, true));
  }

  /** A new item whose origin has not been checked: up to the wait for robots.txt. */
  lemma Asks(s: Crawl, es: seq<Event>, m: Crawl, fr: Frame, b: nat, item: Item, rest: seq<Item>, started: bool)
    returns (es2: seq<Event>, r: Crawl)
    requires Path(s, es, m) && Shows(m, Put(fr, b, AtItem, [item] + rest, started)) && Alone(fr, b)
    requires Fresh(fr, item) && item.url.origin !in fr.checked
    ensures Path(s, es2, r) && Shows(r, Waits(fr, b, item, Get(fr.inflight, item.url.domain), rest, started))
  {
    var es1, s1 := Picks(s, es, m, fr, b, item, rest, started);
    var es3, s3 := Looks(s, es1, s1, fr, b, item, rest, started);
    es2, r := Checks(s, es3, s3, fr, b, item, rest, started);
  }

  /** A new item whose origin was checked before: up to its fetch. */
  lemma Starts(s: Crawl, es: seq<Event>, m: Crawl, fr: Frame, b: nat, item: Item, rest: seq<Item>, started: bool)
    returns (es2: seq<Event>, r: Crawl)
    requires Path(s, es, m) && Shows(m, Put(fr, b, AtItem, [item] + rest, started)) && Alone(fr, b)
    requires Fresh(fr, item) && item.url.origin in fr.checked
    ensures Path(s, es2, r) && Shows(r, Fetches(fr, b, item, Get(fr.inflight, item.url.domain), rest))
  {
    var es1, s1 := Picks(s, es, m, fr, b, item, rest, started);
    var es3, s3 := Looks(s, es1, s1, fr, b, item, rest, started);
    es2, r := Goes(s, es3, s3, fr, b, item, rest, started);
  }

  /** robots.txt answers, and the item is fetched. */
  lemma Answered(s: Crawl, es: seq<Event>, m: Crawl, fr: Frame, b: nat, item: Item, n: nat, rest: seq<Item>,
                 started: bool)
    returns (es2: seq<Event>, r: Crawl)
    requires Path(s, es, m) && Shows(m, Put(fr, b, CheckingRobots(item, n), rest, started)) && Alone(fr, b)
    ensures Path(s, es2, r) && Shows(r, Fetches(fr, b, item, n, rest))
    ensures r.past.raced == (m.past.raced || Get(fr.inflight, item.url.domain) != n)
  {
    es2, r := Dispatches(s, es, m, Put(fr, b, CheckingRobots(item, n), rest, started), b, item, n, rest);
    PutTwice(fr, b, CheckingRobots(item, n), rest, started, Body(AtItem, rest, true));
  }

  // ---------------------------------------------------------------- a fetch that fails, and a re-crawl

  /** A fetch between its first answer and the end of its finally block. */
  predicate AloneFetch(fr: Frame, f: nat) {
    && (forall c | c in fr.bodies :: Pauses(fr.bodies[c].pc))
    && (forall g | g in fr.fetches && g != f :: fr.fetches[g].phase == Fetching)
  }

  function In(fr: Frame, f: nat, item: Item, phase: Phase): Frame {
    fr.(fetches := fr.fetches[f := Fetch(item, phase)])
  }

  lemma FailureReported(s: Crawl, es: seq<Event>, m: Crawl, fr: Frame, f: nat, item: Item)
    returns (es2: seq<Event>, r: Crawl)
    requires Path(s, es, m) && Shows(m, In(fr, f, item, Fetching)) && AloneFetch(fr, f) && item.url.domain !in fr.failed
    ensures Path(s, es2, r)
    ensures Shows(r, In(fr.(failed := fr.failed[item.url.domain := 1]), f, item, Marking(false)))
  {
    es2, r := es + [RunFetch(f, LOST)], Step(m, RunFetch(f, LOST));
    Onwards(s, es, m, RunFetch(f, LOST));
    assert r.fetches == fr.fetches[f := Fetch(item, Marking(false))];
  }

  lemma FailureMarked(s: Crawl, es: seq<Event>, m: Crawl, fr: Frame, f: nat, item: Item)
    returns (es2: seq<Event>, r: Crawl)
    requires Path(s, es, m) && Shows(m, In(fr, f, item, Marking(false))) && AloneFetch(fr, f)
    ensures Path(s, es2, r)
    ensures Shows(r, In(fr.(tables := Marked(fr.tables, item.url)), f, item, Deleting(false)))
  {
    es2, r := es + [RunFetch(f, LOST)], Step(m, RunFetch(f, LOST));
    Onwards(s, es, m, RunFetch(f, LOST));
    assert r.fetches == fr.fetches[f := Fetch(item, Deleting(false))];
  }

  lemma FailureDeleted(s: Crawl, es: seq<Event>, m: Crawl, fr: Frame, f: nat, item: Item)
    returns (es2: seq<Event>, r: Crawl)
    requires Path(s, es, m) && Shows(m, In(fr, f, item, Deleting(false))) && AloneFetch(fr, f)
    ensures Path(s, es2, r)
    ensures Shows(r, In(fr.(tables := Removed(fr.tables, {item.url})), f, item, Settled))
  {
    es2, r := es + [RunFetch(f, LOST)], Step(m, RunFetch(f, LOST));
    Onwards(s, es, m, RunFetch(f, LOST));
    assert r.fetches == fr.fetches[f := Fetch(item, Settled)];
  }

  lemma Finishes(s: Crawl, es: seq<Event>, m: Crawl, fr: Frame, f: nat, item: Item)
    returns (es2: seq<Event>, r: Crawl)
    requires Path(s, es, m) && Shows(m, In(fr, f, item, Settled)) && AloneFetch(fr, f)
    ensures Path(s, es2, r)
    ensures Shows(r, Finished(fr, f, item))
  {
    es2, r := es + [RunFetch(f, LOST)], Step(m, RunFetch(f, LOST));
    Onwards(s, es, m, RunFetch(f, LOST));
    assert r.fetches == fr.fetches - {f};
  }

  function Finished(fr: Frame, f: nat, item: Item): Frame {
    var d := item.url.domain;
    fr.(active := fr.active - 1, wakeups := fr.wakeups + 1, fetches := fr.fetches - {f},
        inflight := fr.inflight[d := Max(0, Get(fr.inflight, d) - 1)])
  }

  /** The fetch fails: its URL is given up, and a call is scheduled. */
  function GivenUp(fr: Frame, item: Item): Frame {
    var f1 := fr.(failed := fr.failed[item.url.domain := 1]);
    var f2 := f1.(tables := Marked(f1.tables, item.url));
    f2.(tables := Removed(f2.tables, {item.url}))
  }

  lemma Fails(s: Crawl, es: seq<Event>, m: Crawl, fr: Frame, f: nat, item: Item) returns (es2: seq<Event>, r: Crawl)
    requires Path(s, es, m) && Shows(m, In(fr, f, item, Fetching)) && AloneFetch(fr, f) && item.url.domain !in fr.failed
    ensures Path(s, es2, r) && Shows(r, Finished(GivenUp(fr, item), f, item))
  {
    var f1 := fr.(failed := fr.failed[item.url.domain := 1]);
    var es1, s1 := FailureReported(s, es, m, fr, f, item);
    var es3, s3 := FailureMarked(s, es1, s1, f1, f, item);
    var f3 := f1.(tables := Marked(f1.tables, item.url));
    var es4, s4 := FailureDeleted(s, es3, s3, f3, f, item);
    es2, r := Finishes(s, es4, s4, GivenUp(fr, item), f, item);
  }

  lemma FindsNothing(s: Crawl, es: seq<Event>, m: Crawl, fr: Frame, b: nat) returns (es2: seq<Event>, r: Crawl)
    requires Path(s, es, m) && Shows(m, Put(fr, b, HoldingBatch([]), [], false)) && Alone(fr, b)
    requires fr.active == 0 && !fr.attempted
    ensures Path(s, es2, r) && Shows(r, Put(fr.(cursor := 0, attempted := true), b, ReadingTargets, [], false))
  {
    es2, r := Moves(s, es, m, Put(fr, b, HoldingBatch([]), [], false), b);
    PutTwice(fr, b, HoldingBatch([]), [], false, Body(ReadingTargets, [], false));
  }

  lemma FindsTargets(s: Crawl, es: seq<Event>, m: Crawl, fr: Frame, b: nat) returns (es2: seq<Event>, r: Crawl)
    requires Path(s, es, m) && Shows(m, Put(fr, b, ReadingTargets, [], false)) && Alone(fr, b)
    requires fr.tables.nodes == TABLES.nodes
    ensures Path(s, es2, r) && Shows(r, Put(fr, b, InjectingTargets([OLD]), [], false))
  {
    assert IsSample(m.tables, 1, [OLD]);
    es2, r := Moves(s, es, m, Put(fr, b, ReadingTargets, [], false), b);
    PutTwice(fr, b, ReadingTargets, [], false, Body(InjectingTargets([OLD]), [], false));
  }

  lemma InjectsTarget(s: Crawl, es: seq<Event>, m: Crawl, fr: Frame, b: nat) returns (es2: seq<Event>, r: Crawl)
    requires Path(s, es, m) && Shows(m, Put(fr, b, InjectingTargets([OLD]), [], false)) && Alone(fr, b)
    ensures Path(s, es2, r)
    ensures Shows(r, Put(fr.(tables := Inserted(fr.tables, OLD, RECRAWL, None)), b, InjectingTargets([]), [], false))
  {
    assert [OLD][1..] == [];
    es2, r := Moves(s, es, m, Put(fr, b, InjectingTargets([OLD]), [], false), b);
    PutTwice(fr, b, InjectingTargets([OLD]), [], false, Body(InjectingTargets([]), [], false));
  }

  lemma EndsInjecting(s: Crawl, es: seq<Event>, m: Crawl, fr: Frame, b: nat) returns (es2: seq<Event>, r: Crawl)
    requires Path(s, es, m) && Shows(m, Put(fr, b, InjectingTargets([]), [], false)) && Alone(fr, b) && b !in fr.bodies
    ensures Path(s, es2, r) && Shows(r, fr.(wakeups := fr.wakeups + 1))
  {
    es2, r := Ends(s, es, m, Put(fr, b, InjectingTargets([]), [], false), b, true);
    assert Put(fr, b, InjectingTargets([]), [], false).bodies - {b} == fr.bodies;
  }

  function Injected(fr: Frame): Frame {
    var f1 := fr.(tables := Inserted(fr.tables, OLD, RECRAWL, None));
    f1.(wakeups := f1.wakeups + 1)
  }

  lemma Injects(s: Crawl, es: seq<Event>, m: Crawl, fr: Frame, b: nat) returns (es2: seq<Event>, r: Crawl)
    requires Path(s, es, m) && Shows(m, Put(fr, b, InjectingTargets([OLD]), [], false))
    requires Alone(fr, b) && b !in fr.bodies
    ensures Path(s, es2, r) && Shows(r, Injected(fr))
  {
    var es1, s1 := InjectsTarget(s, es, m, fr, b);
    es2, r := EndsInjecting(s, es1, s1, fr.(tables := Inserted(fr.tables, OLD, RECRAWL, None)), b);
  }

  /** An empty batch while no fetch is unfinished: the cursor is reset, and the stored page is
      injected for re-crawling. */
  lemma Recrawls(s: Crawl, es: seq<Event>, m: Crawl, fr: Frame, b: nat) returns (es2: seq<Event>, r: Crawl)
    requires Path(s, es, m) && Shows(m, Put(fr, b, HoldingBatch([]), [], false)) && Alone(fr, b) && b !in fr.bodies
    requires fr.active == 0 && !fr.attempted && fr.tables.nodes == TABLES.nodes
    ensures Path(s, es2, r) && Shows(r, Injected(fr.(cursor := 0, attempted := true)))
  {
    var f1 := fr.(cursor := 0, attempted := true);
    var es1, s1 := FindsNothing(s, es, m, fr, b);
    var es3, s3 := FindsTargets(s, es1, s1, f1, b);
    es2, r := Injects(s, es3, s3, f1, b);
  }

  /** The batch is at its end, or two fetches are under way: the body is over. */
  lemma Leaves(s: Crawl, es: seq<Event>, m: Crawl, fr: Frame, b: nat, rest: seq<Item>)
    returns (es2: seq<Event>, r: Crawl)
    requires Path(s, es, m) && Shows(m, Put(fr, b, AtItem, rest, true)) && Alone(fr, b) && b !in fr.bodies
    requires fr.active >= CONCURRENCY || rest == []
    ensures Path(s, es2, r) && Shows(r, fr)
  {
    es2, r := Ends(s, es, m, Put(fr, b, AtItem, rest, true), b, false);
    assert Put(fr, b, AtItem, rest, true).bodies - {b} == fr.bodies;
  }

  // ---------------------------------------------------------------- the run

  const SET := Frame(TABLES, 0, 0, {}, 1, map[], 0, map[], 0, map[], map[], false)

  lemma CursorSet() returns (es: seq<Event>, r: Crawl)
    ensures Path(START, es, r) && Shows(r, SET)
  {
    StartIsInitial();
    es, r := [] + [CursorInit], Step(START, CursorInit);
    assert Path(START, [], START);
    Onwards(START, [], START, CursorInit);
  }

  /** Body 0 has read its batch. */
  const READ := SET.(cursor := 3, wakeups := 0, nextBody := 1)

  lemma FirstBatch(es: seq<Event>, m: Crawl) returns (es2: seq<Event>, r: Crawl)
    requires Path(START, es, m) && Shows(m, SET)
    ensures Path(START, es2, r)
    ensures Shows(r, Put(READ, 0, AtItem, [FIRST_ITEM] + [HOT_ITEM, SIDE_ITEM], false))
  {
    ThreeRows(TABLES, FIRST, HOT, SIDE);
    var rows := [FIRST_ITEM, HOT_ITEM, SIDE_ITEM];
    assert rows == [FIRST_ITEM] + [HOT_ITEM, SIDE_ITEM];
    var es1, s1 := Reads(START, es, m, SET);
    es2, r := Takes(START, es1, s1, Begun(SET), 0, rows);
  }

  /** Its first item is being fetched. */
  const FETCHING := READ.(active := 1, checked := {FIRST.origin}, inflight := map["a" := 1],
                          fetches := map[0 := Fetch(FIRST_ITEM, Fetching)], dispatched := 1)

  lemma FirstItem(es: seq<Event>, m: Crawl) returns (es2: seq<Event>, r: Crawl)
    requires Path(START, es, m) && Shows(m, Put(READ, 0, AtItem, [FIRST_ITEM] + [HOT_ITEM, SIDE_ITEM], false))
    ensures Path(START, es2, r) && Shows(r, Put(FETCHING, 0, AtItem, [HOT_ITEM, SIDE_ITEM], true))
  {
    var es1, s1 := Asks(START, es, m, READ, 0, FIRST_ITEM, [HOT_ITEM, SIDE_ITEM], false);
    var f1 := READ.(checked := READ.checked + {FIRST.origin});
    es2, r := Answered(START, es1, s1, f1, 0, FIRST_ITEM, 0, [HOT_ITEM, SIDE_ITEM], false);
    assert Charged(f1, FIRST_ITEM, 0) == FETCHING;
  }

  /** And the body waits for the robots.txt of the hot URL. */
  const BUSY := Put(FETCHING.(checked := {FIRST.origin, HOT.origin}), 0, CheckingRobots(HOT_ITEM, 0), [SIDE_ITEM], true)

  lemma BusyWaits()
    ensures Waits(FETCHING, 0, HOT_ITEM, 0, [SIDE_ITEM], true) == BUSY
    ensures [HOT_ITEM, SIDE_ITEM] == [HOT_ITEM] + [SIDE_ITEM]
  {
    assert FETCHING.checked + {HOT.origin} == {FIRST.origin, HOT.origin};
  }

  lemma HotItem(es: seq<Event>, m: Crawl) returns (es2: seq<Event>, r: Crawl)
    requires Path(START, es, m) && Shows(m, Put(FETCHING, 0, AtItem, [HOT_ITEM, SIDE_ITEM], true))
    ensures Path(START, es2, r) && Shows(r, BUSY)
  {
    BusyWaits();
    es2, r := Asks(START, es, m, FETCHING, 0, HOT_ITEM, [SIDE_ITEM], true);
  }

  const T1 := TABLES.(visited := {OLD, FIRST},
                      frontier := map[HOT := FrontierRow(2, 0, None), SIDE := FrontierRow(3, 0, None)])

  /** The first fetch has failed. */
  const ALONE := BUSY.(tables := T1, active := 0, wakeups := 1, fetches := map[], inflight := map["a" := 0],
                       failed := map["a" := 1])

  lemma FirstFetch(es: seq<Event>, m: Crawl) returns (es2: seq<Event>, r: Crawl)
    requires Path(START, es, m) && Shows(m, BUSY)
    ensures Path(START, es2, r) && Shows(r, ALONE)
  {
    assert In(BUSY, 0, FIRST_ITEM, Fetching) == BUSY;
    es2, r := Fails(START, es, m, BUSY, 0, FIRST_ITEM);
    FirstGivenUp();
  }

  lemma FirstGivenUp()
    ensures Finished(GivenUp(BUSY, FIRST_ITEM), 0, FIRST_ITEM) == ALONE
  {
    assert GivenUp(BUSY, FIRST_ITEM).tables == T1;
  }

  const T2 := T1.(frontier := map[HOT := FrontierRow(2, 0, None), SIDE := FrontierRow(3, 0, None),
                                  OLD := FrontierRow(4, RECRAWL, None)], nextId := 5)

  /** Body 1 has found nothing above the cursor, and reset it. */
  const RESET := ALONE.(tables := T2, cursor := 0, wakeups := 1, nextBody := 2, attempted := true)

  lemma NothingLeft()
    ensures Batch(ALONE.tables, ALONE.cursor, BATCH) == []
    ensures Injected(Begun(ALONE).(cursor := 0, attempted := true)) == RESET
  {
    assert Above(T1, 3) == {};
  }

  lemma SecondBody(es: seq<Event>, m: Crawl) returns (es2: seq<Event>, r: Crawl)
    requires Path(START, es, m) && Shows(m, ALONE)
    ensures Path(START, es2, r) && Shows(r, RESET)
  {
    NothingLeft();
    var es1, s1 := Reads(START, es, m, ALONE);
    es2, r := Recrawls(START, es1, s1, Begun(ALONE), 1);
  }

  const READ2 := RESET.(cursor := 4, wakeups := 0, nextBody := 3)

  lemma ThirdRows()
    ensures Batch(RESET.tables, RESET.cursor, BATCH) == [HOT_ITEM] + [SIDE_ITEM, OLD_ITEM]
    ensures Begun(RESET).(cursor := ([HOT_ITEM] + [SIDE_ITEM, OLD_ITEM])[2].id) == READ2
  {
    ThreeRows(T2, HOT, SIDE, OLD);
  }

  lemma ThirdReads(es: seq<Event>, m: Crawl) returns (es2: seq<Event>, r: Crawl)
    requires Path(START, es, m) && Shows(m, RESET)
    ensures Path(START, es2, r)
    ensures Shows(r, Put(Begun(RESET), 2, HoldingBatch([HOT_ITEM] + [SIDE_ITEM, OLD_ITEM]), [], false))
  {
    ThirdRows();
    es2, r := Reads(START, es, m, RESET);
  }

  lemma ThirdBatch(es: seq<Event>, m: Crawl) returns (es2: seq<Event>, r: Crawl)
    requires Path(START, es, m)
    requires Shows(m, Put(Begun(RESET), 2, HoldingBatch([HOT_ITEM] + [SIDE_ITEM, OLD_ITEM]), [], false))
    ensures Path(START, es2, r) && Shows(r, Put(READ2, 2, AtItem, [HOT_ITEM] + [SIDE_ITEM, OLD_ITEM], false))
  {
    ThirdRows();
    es2, r := Takes(START, es, m, Begun(RESET), 2, [HOT_ITEM] + [SIDE_ITEM, OLD_ITEM]);
  }

  const FETCHING2 := READ2.(active := 1, inflight := map["a" := 0, "b" := 1],
                            fetches := map[1 := Fetch(HOT_ITEM, Fetching)], dispatched := 2)

  lemma HotItemAgain(es: seq<Event>, m: Crawl) returns (es2: seq<Event>, r: Crawl)
    requires Path(START, es, m) && Shows(m, Put(READ2, 2, AtItem, [HOT_ITEM] + [SIDE_ITEM, OLD_ITEM], false))
    ensures Path(START, es2, r) && Shows(r, Put(FETCHING2, 2, AtItem, [SIDE_ITEM, OLD_ITEM], true))
  {
    es2, r := Starts(START, es, m, READ2, 2, HOT_ITEM, [SIDE_ITEM, OLD_ITEM], false);
    assert Charged(READ2, HOT_ITEM, 0) == FETCHING2;
  }

  /** Body 2 has fetched both items of the hot domain, and is over. */
  const FULL := FETCHING2.(active := 2, inflight := map["a" := 0, "b" := 2],
                           fetches := map[1 := Fetch(HOT_ITEM, Fetching), 2 := Fetch(SIDE_ITEM, Fetching)],
                           dispatched := 3)

  lemma SideCharged()
    ensures Charged(FETCHING2, SIDE_ITEM, 1) == FULL && [SIDE_ITEM, OLD_ITEM] == [SIDE_ITEM] + [OLD_ITEM]
  {
  }

  lemma SideItem(es: seq<Event>, m: Crawl) returns (es2: seq<Event>, r: Crawl)
    requires Path(START, es, m) && Shows(m, Put(FETCHING2, 2, AtItem, [SIDE_ITEM, OLD_ITEM], true))
    ensures Path(START, es2, r) && Shows(r, Put(FULL, 2, AtItem, [OLD_ITEM], true))
  {
    SideCharged();
    es2, r := Starts(START, es, m, FETCHING2, 2, SIDE_ITEM, [OLD_ITEM], true);
  }

  lemma ThirdEnds(es: seq<Event>, m: Crawl) returns (es2: seq<Event>, r: Crawl)
    requires Path(START, es, m) && Shows(m, Put(FULL, 2, AtItem, [OLD_ITEM], true))
    ensures Path(START, es2, r) && Shows(r, FULL)
  {
    es2, r := Leaves(START, es, m, FULL, 2, [OLD_ITEM]);
  }

  lemma FullWaits()
    ensures Put(FULL, 0, CheckingRobots(HOT_ITEM, 0), [SIDE_ITEM], true) == FULL
  {
  }

  lemma RobotsAnswer(es: seq<Event>, m: Crawl) returns (es2: seq<Event>, r: Crawl)
    requires Path(START, es, m) && Shows(m, FULL)
    ensures Path(START, es2, r) && r.past.raced && r.active == 3 && Politeness.Inflight(r, "b") == 1
    ensures r.fetches == FULL.fetches[3 := Fetch(HOT_ITEM, Fetching)]
  {
    FullWaits();
    es2, r := Answered(START, es, m, FULL, 0, HOT_ITEM, 0, [SIDE_ITEM], true);
  }

  /** From the start to the moment the first fetch has failed, and on to the robots.txt answer. */
  lemma FirstHalf() returns (es: seq<Event>, r: Crawl)
    ensures Path(START, es, r) && Shows(r, ALONE)
  {
    var es1, s1 := CursorSet();
    var es2, s2 := FirstBatch(es1, s1);
    var es3, s3 := FirstItem(es2, s2);
    var es4, s4 := HotItem(es3, s3);
    es, r := FirstFetch(es4, s4);
  }

  lemma SecondHalf(es: seq<Event>, m: Crawl) returns (es2: seq<Event>, r: Crawl)
    requires Path(START, es, m) && Shows(m, ALONE)
    ensures Path(START, es2, r) && Shows(r, FULL)
  {
    var es1, s1 := SecondBody(es, m);
    var es3, s3 := ThirdReads(es1, s1);
    var es4, s4 := ThirdBatch(es3, s3);
    var es5, s5 := HotItemAgain(es4, s4);
    var es6, s6 := SideItem(es5, s5);
    es2, r := ThirdEnds(es6, s6);
  }

  lemma AllOnOneHost(fs: map<nat, Fetch>)
    requires fs == FULL.fetches[3 := Fetch(HOT_ITEM, Fetching)]
    ensures CountIf(fs, Politeness.OnHost("b")) == 3
    ensures exists f, g :: f in fs && g in fs && f != g && fs[f].item.url == fs[g].item.url == HOT
  {
    assert KeysWhere(fs, Politeness.OnHost("b")) == {1, 2, 3};
    assert fs[1].item.url == fs[3].item.url == HOT;
  }

  /** Three limits that are none: a run from an initial state, uninterrupted as on SQLite, comes to
      three unfinished fetches with CONCURRENCY 2, all three on one domain with DOMAIN_LIMIT 2 and two
      of them for the same URL, while the counter of the domain says 1. What makes it possible is
      the wait for robots.txt between the guards and the dispatch. */
  lemma ConcurrencyExceeded() returns (es: seq<Event>)
    ensures Initial(START) && Uninterrupted(START, es) && Legal(START, es)
    ensures var r := After(START, es);
      && r.active == 3 > CONCURRENCY && r.past.raced
      && Politeness.Unfinished(r, "b") == 3 > DOMAIN_LIMIT && Politeness.Inflight(r, "b") == 1
      && exists f, g :: f in r.fetches && g in r.fetches && f != g
                        && r.fetches[f].item.url == r.fetches[g].item.url == HOT
  {
    StartIsInitial();
    var es1, s1 := FirstHalf();
    var es2, s2 := SecondHalf(es1, s1);
    var r;
    es, r := RobotsAnswer(es2, s2);
    AllOnOneHost(r.fetches);
  }
}
