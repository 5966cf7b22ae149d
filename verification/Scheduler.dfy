/** The crawl loop of src/queue.ts (startCrawlLoop) as a state machine.

    Several processNext bodies and fetch continuations are alive at once and share the tables,
    the counters and the loop variables. A body runs from one await to the next without
    interruption, so each step below is the code between two awaits, or one database statement.
    A statement is a step of its own, separate from the code that waits for its answer, and so
    is the head of the item loop: the relation allows every interleaving of the program, whether
    the statement runs at the call or later, and some more. */
module Scheduler {
  import opened Prelude
  import opened Database
  import opened CrawlState

  const MAX_NODES := 50000000
  const MAX_FRONTIER := 10000000
  const CONCURRENCY := 2
  const DOMAIN_LIMIT := 2
  const DOMAIN_MAX := 200
  const QUEUE_LOW_WATER := 10000
  const MAX_DEPTH := 10
  const BATCH := 50
  const RECRAWL_BATCH := 15
  const CLEAR_LIMIT := 10000
  const RECRAWL := -1  // the depth of an item injected for re-crawling

  // ---------------------------------------------------------------- the state

  /** Where a processNext body stands: the await it is in, and what it remembers across it. */
  datatype Pc =
    | Yielding
    | ReadingBatch(cursor: nat)
    | HoldingBatch(rows: seq<Item>)
    | ReadingTargets
    | InjectingTargets(urls: seq<Url>)
    | Seeding
    | InsertingSeed(url: Url)
    | AtItem
    | ReadingVisited(item: Item)
    | HoldingVisited(item: Item, visited: bool)
    | CheckingRobots(item: Item, inflight: nat)
    | Discarding(url: Url)
    | RobotsMarking(url: Url)
    | RobotsDeleting(url: Url)

  datatype Body = Body(pc: Pc, rest: seq<Item>, startedAny: bool)

  /** Where the continuation of a dispatched fetch stands. `again` tells the two users of
      markVisited-then-delete apart: a re-crawl that succeeded, or a fetch that failed. */
  datatype Phase =
    | Fetching
    | Saving(page: Page, links: seq<Url>)
    | Saved(page: Page, links: seq<Url>)
    | SaveFailed
    | Marking(again: bool)
    | Deleting(again: bool)
    | Recrawled
    | Linking(items: seq<Item>)
    | Settled

  datatype Fetch = Fetch(item: Item, phase: Phase)

  /** What the proofs remember of the past; no step looks at it. */
  datatype History = History(
    done: bool,          // some body saw nodeCount >= MAX_NODES
    ever: set<Url>,      // every URL that was ever in the frontier
    dispatched: nat,     // fetches started
    recrawled: nat,      // re-crawls counted as success
    window: nat,         // the most bodies ever between the concurrency check and the increment
    raced: bool,         // some dispatch read an in-flight count that had changed when it wrote it back
    indexFault: bool)    // some index insert failed inside a committed save

  datatype Crawl = Crawl(tables: Tables, stats: Stats, active: int, cursor: nat, firstCursor: Option<nat>,
                         domainsChecked: set<string>, wakeups: nat, bodies: map<nat, Body>, nextBody: nat,
                         fetches: map<nat, Fetch>, exited: bool, past: History)

  // ---------------------------------------------------------------- the outside world

  /** The parts of a fetched page that reach the database. */
  datatype Content = Content(title: string, meta: string, ogt: string, ogd: string, lang: string,
                             clen: nat, pop: nat, https: bool, ts: nat)

  datatype Response = Response(finalUrl: Url, content: Content, links: seq<Url>)

  /** What the environment decides in one step of a body: whether a guarded statement works,
      whether robots.txt blocks the item, which seed comes next, which nodes are re-crawled. */
  datatype BodyInput = BodyInput(works: bool, blocked: bool, seed: Option<Url>, targets: seq<Url>)

  /** The same for a fetch; a missing response stands for a failed fetch or a parse error. */
  datatype FetchInput = FetchInput(response: Option<Response>, works: bool, ftsWorks: bool)

  datatype Event =
    | Wake
    | RunBody(b: nat, inB: BodyInput)
    | Throw(b: nat)
    | RunFetch(f: nat, inF: FetchInput)
    | CursorInit
    | RefreshTimer(worked: nat)
    | FullRefreshTimer(worked: nat, countsWork: bool)
    | ClearTimer(victims: set<Url>)
    | DiskTimer(paused: bool)
    | SeedTimer(url: Url)
    | RecrawlReset
    | KafkaMessage(msgUrl: Url, msgDepth: int, msgParent: Option<Url>)

  function PageOf(i: Item, r: Response): Page {
    var c := r.content;
    Page(r.finalUrl, c.title, if c.meta != "" then c.meta else c.ogd, r.finalUrl.domain, i.depth, i.parent,
         c.pop, c.lang, c.https, c.meta, c.ogt, c.ogd, c.clen, c.ts, i.url)
  }

  // ---------------------------------------------------------------- which links a page adds

  /** A link is followed unless one of the guards of the link loop rejects it. */
  predicate Wanted(s: Stats, depth: int, link: Url) {
    && !link.blacklisted
    && depth + 1 <= MAX_DEPTH
    && s.nodeCount < MAX_NODES
    && s.frontierCount < MAX_FRONTIER
    && !s.diskPaused
    && !(link.domain != "" && (Get(s.domainNodeCount, link.domain) >= DOMAIN_MAX || link.domain in s.domainBlacklist))
  }

  function Followed(s: Stats, depth: int, parent: Url, links: seq<Url>): seq<Item> {
    if links == [] then []
    else
      var before, link := Followed(s, depth, parent, links[..|links| - 1]), links[|links| - 1];
      if Wanted(s, depth, link) then before + [Item(link, depth + 1, Some(parent), 0)] else before
  }

  lemma {:induction false} NoneFollowed(s: Stats, depth: int, parent: Url, links: seq<Url>, k: nat)
    requires k <= |links| && forall j | k <= j < |links| :: !Wanted(s, depth, links[j])
    ensures Followed(s, depth, parent, links) == Followed(s, depth, parent, links[..k])
  {
    if k < |links| {
      var front := links[..|links| - 1];
      NoneFollowed(s, depth, parent, front, k);
      assert front[..k] == links[..k];
    } else {
      assert links[..k] == links;
    }
  }

  /** The link loop of a finished fetch. Three guards leave the loop early: they do not depend on
      the link, so no later link would have passed them. */
  method CollectLinks(state: CrawlState, depth: int, finalUrl: Url, links: seq<Url>) returns (batch2: seq<Item>)
    ensures batch2 == Followed(state.View(), depth, finalUrl, links)
  {
    batch2 := [];
    for k := 0 to |links|
      invariant batch2 == Followed(state.View(), depth, finalUrl, links[..k])
    {
      var link := links[k];
      assert links[..k + 1][..k] == links[..k];
      if link.blacklisted { continue; }
      if depth + 1 > MAX_DEPTH { continue; }
      if state.nodeCount >= MAX_NODES || state.frontierCount >= MAX_FRONTIER || state.diskPaused {
        NoneFollowed(state.View(), depth, finalUrl, links, k);
        return;
      }
      var ld := link.domain;
      if ld != "" && (state.GetDomainCount(ld) >= DOMAIN_MAX || state.IsDomainBlacklisted(ld)) { continue; }
      batch2 := batch2 + [Item(link, depth + 1, Some(finalUrl), 0)];
    }
    assert links[..|links|] == links;
  }

  // ---------------------------------------------------------------- database statements

  /** The statement or transaction a step runs. */
  datatype DbOp =
    | Keep
    | Mark(url: Url)
    | Delete(urls: set<Url>)
    | Insert(url: Url, depth: int, parent: Option<Url>)
    | Save(page: Page, ftsWorks: bool)
    | InsertAll(items: seq<Item>)

  function Executed(t: Tables, op: DbOp): Tables {
    match op
    case Keep => t
    case Mark(u) => Marked(t, u)
    case Delete(us) => Removed(t, us)
    case Insert(u, depth, parent) => Inserted(t, u, depth, parent)
    case Save(page, ftsWorks) => Database.Saved(t, page, ftsWorks)
    case InsertAll(items) => InsertedMany(t, items)
  }

  function When(works: bool, op: DbOp): DbOp { if works then op else Keep }

  // ---------------------------------------------------------------- steps of a processNext body

  /** How a step leaves its body: at another await, over (with or without a scheduled successor),
      or back at the item loop after dispatching a fetch. */
  datatype BodyNext =
    | Stay(body: Body)
    | End(wake: bool)
    | Dispatch(item: Item, inflight: nat, rest: seq<Item>)

  datatype BodyAct = BodyAct(op: DbOp, next: BodyNext, cursor: nat, recrawlAttempted: bool,
                             domainsChecked: set<string>, window: nat)

  function InWindow(): Body -> bool {
    (x: Body) => x.pc.ReadingVisited? || x.pc.HoldingVisited? || x.pc.CheckingRobots?
  }

  /** A step that changes nothing but the tables and its own body. */
  function Plain(s: Crawl, op: DbOp, next: BodyNext): BodyAct {
    BodyAct(op, next, s.cursor, s.stats.recrawlAttempted, s.domainsChecked, s.past.window)
  }

  function Goto(s: Crawl, body: Body, op: DbOp, pc: Pc): BodyAct { Plain(s, op, Stay(body.(pc := pc))) }

  /** The answer of getBatch is there: lines 197-218. */
  function BatchSeen(s: Crawl, rows: seq<Item>): BodyAct {
    var cursor := if rows == [] then 0 else rows[|rows| - 1].id;
    var plain := Plain(s, Keep, Stay(Body(AtItem, rows, false))).(cursor := cursor);
    if rows == [] && s.active == 0 then
      if s.stats.frontierCount < QUEUE_LOW_WATER then
        if s.stats.nodeCount > 0 && !s.stats.recrawlAttempted
        then plain.(next := Stay(Body(ReadingTargets, [], false)), recrawlAttempted := true)
        else plain.(next := Stay(Body(Seeding, [], false)), recrawlAttempted := false)
      else plain.(next := End(true))
    else plain
  }

  /** The head of the item loop, lines 221-224; when the loop is over, line 306. */
  function NextItem(s: Crawl, body: Body, blocked: bool): BodyAct {
    if body.rest == [] || s.active >= CONCURRENCY then Plain(s, Keep, End(!body.startedAny && s.active == 0))
    else
      var item, popped := body.rest[0], body.(rest := body.rest[1..]);
      var act := if item.depth == RECRAWL then Classified(s, popped, item, blocked)
                 else Goto(s, popped, Keep, ReadingVisited(item));
      act.(window := Max(s.past.window, CountIf(s.bodies, InWindow()) + 1))
  }

  /** Domain, blacklist and in-flight guards, then robots.txt: lines 231-246. */
  function Classified(s: Crawl, body: Body, item: Item, blocked: bool): BodyAct {
    var d := item.url.domain;
    if d == "" || d in s.stats.domainBlacklist then Goto(s, body, Keep, Discarding(item.url))
    else
      var inflight := Get(s.stats.domainInflight, d);
      if inflight >= DOMAIN_LIMIT then Goto(s, body, Keep, AtItem)
      else if item.depth == RECRAWL then Plain(s, Keep, Dispatch(item, inflight, body.rest))
      else if item.url.origin !in s.domainsChecked then
        Goto(s, body, Keep, CheckingRobots(item, inflight)).(domainsChecked := s.domainsChecked + {item.url.origin})
      else Judged(s, body, item, inflight, blocked)
  }

  /** The robots.txt rules are known: lines 247-257. */
  function Judged(s: Crawl, body: Body, item: Item, inflight: nat, blocked: bool): BodyAct {
    if blocked then Goto(s, body, Keep, RobotsMarking(item.url))
    else Plain(s, Keep, Dispatch(item, inflight, body.rest))
  }

  /** The code of a body from one await to the next. */
  ghost function BodyActOf(s: Crawl, body: Body, i: BodyInput): BodyAct {
    match body.pc
    case Yielding =>
      if s.active >= CONCURRENCY then Plain(s, Keep, End(false)) else Goto(s, body, Keep, ReadingBatch(s.cursor))
    case ReadingBatch(cursor) => Goto(s, body, Keep, HoldingBatch(Batch(s.tables, cursor, BATCH)))
    case HoldingBatch(rows) => BatchSeen(s, rows)
    case ReadingTargets => Goto(s, body, Keep, InjectingTargets(i.targets))
    case InjectingTargets(urls) =>
      if urls == [] then Plain(s, Keep, End(true))
      else Goto(s, body, When(i.works, Insert(urls[0], RECRAWL, None)), InjectingTargets(urls[1..]))
    case Seeding => (
      match i.seed
      case None => Plain(s, Keep, End(true))
      case Some(u) => Goto(s, body, Keep, if u in s.tables.visited then Seeding else InsertingSeed(u)))
    case InsertingSeed(u) => Goto(s, body, When(i.works, Insert(u, 0, None)), Seeding)
    case AtItem => NextItem(s, body, i.blocked)
    case ReadingVisited(item) => Goto(s, body, Keep, HoldingVisited(item, item.url in s.tables.visited))
    case HoldingVisited(item, visited) =>
      if visited then Goto(s, body, Keep, Discarding(item.url)) else Classified(s, body, item, i.blocked)
    case CheckingRobots(item, inflight) => Judged(s, body, item, inflight, i.blocked)
    case Discarding(u) => Goto(s, body, When(i.works, Delete({u})), AtItem)
    case RobotsMarking(u) => Goto(s, body, Mark(u), RobotsDeleting(u))
    case RobotsDeleting(u) => Goto(s, body, Delete({u}), AtItem)
  }

  /** The effect of such a step; dispatching is lines 257-262. */
  function BodyMoved(s: Crawl, b: nat, act: BodyAct): Crawl
    requires b in s.bodies
  {
    var s1 := s.(tables := Executed(s.tables, act.op), cursor := act.cursor, domainsChecked := act.domainsChecked,
                 stats := s.stats.(recrawlAttempted := act.recrawlAttempted), past := s.past.(window := act.window));
    match act.next
    case Stay(body) => s1.(bodies := s.bodies[b := body])
    case End(wake) => s1.(bodies := s.bodies - {b}, wakeups := s.wakeups + One(wake))
    case Dispatch(item, inflight, rest) =>
      var d := item.url.domain;
      s1.(active := s.active + 1,
          bodies := s.bodies[b := Body(AtItem, rest, true)],
          stats := InflightSet(s1.stats, d, inflight + 1),
          fetches := s.fetches[s.past.dispatched := Fetch(item, Fetching)],
          past := s1.past.(dispatched := s.past.dispatched + 1,
                           raced := s.past.raced || Get(s.stats.domainInflight, d) != inflight))
  }

  /** Awaits of a body that no try block surrounds. Nobody handles the promise of processNext, nor
      rejections as such, so a throw there ends the process of the crawler, all bodies and fetches
      with it; what is left of it are the tables. */
  predicate Unguarded(pc: Pc) {
    || pc.ReadingBatch? || pc.ReadingTargets? || pc.Seeding? || pc.ReadingVisited?
    || pc.RobotsMarking? || pc.RobotsDeleting?
  }

  // ---------------------------------------------------------------- steps of a fetch

  /** What a step reports to the counters. */
  datatype Tally = NoTally | Failure | Success(dom: string) | RecrawlSuccess

  function Tallied(s: Stats, d: string, tally: Tally): Stats {
    match tally
    case NoTally => s
    case Failure => Failed(s.(fail := s.fail + 1), d)
    case Success(dom) => Succeeded(Counted(s.(success := s.success + 1), dom), d)
    case RecrawlSuccess => s.(success := s.success + 1)
  }

  datatype FetchNext = To(phase: Phase) | Finish

  datatype FetchAct = FetchAct(op: DbOp, tally: Tally, next: FetchNext)

  /** The continuation of a fetch from one await to the next: lines 262-303. */
  function FetchActOf(s: Crawl, fetch: Fetch, i: FetchInput): FetchAct {
    var item := fetch.item;
    match fetch.phase
    case Fetching => (
      match i.response
      case None => FetchAct(Keep, Failure, To(Marking(false)))
      case Some(r) =>
        FetchAct(Keep, NoTally, To(if item.depth == RECRAWL then Marking(true) else Saving(PageOf(item, r), r.links))))
    case Saving(page, links) =>
      if i.works then FetchAct(Save(page, i.ftsWorks), NoTally, To(Saved(page, links)))
      else FetchAct(Keep, NoTally, To(SaveFailed))
    case Saved(page, links) =>
      var counted := Tallied(s.stats, item.url.domain, Success(page.dom));
      var items := Followed(counted, item.depth, page.url, links);
      FetchAct(Keep, Success(page.dom), To(if items == [] then Settled else Linking(items)))
    case SaveFailed => FetchAct(Keep, Failure, To(Settled))
    case Marking(again) =>
      FetchAct(When(i.works, Mark(item.url)), NoTally,
               To(if i.works then Deleting(again) else if again then Recrawled else Settled))
    case Deleting(again) =>
      FetchAct(When(i.works, Delete({item.url})), NoTally, To(if again then Recrawled else Settled))
    case Recrawled => FetchAct(Keep, RecrawlSuccess, To(Settled))
    case Linking(items) => FetchAct(When(i.works, InsertAll(items)), NoTally, To(Settled))
    case Settled => FetchAct(Keep, NoTally, Finish)
  }

  function FetchMoved(s: Crawl, f: nat, act: FetchAct): Crawl
    requires f in s.fetches
  {
    var d := s.fetches[f].item.url.domain;
    var stats := Tallied(s.stats, d, act.tally);
    var s1 := s.(tables := Executed(s.tables, act.op),
                 past := s.past.(recrawled := s.past.recrawled + One(act.tally.RecrawlSuccess?),
                                 indexFault := s.past.indexFault || (act.op.Save? && !act.op.ftsWorks)));
    match act.next
    case To(phase) => s1.(stats := stats, fetches := s.fetches[f := s.fetches[f].(phase := phase)])
    case Finish =>
      s1.(active := s.active - 1, stats := InflightSet(stats, d, Get(stats.domainInflight, d) - 1),
          wakeups := s.wakeups + 1, fetches := s.fetches - {f})
  }

  // ---------------------------------------------------------------- the whole machine

  predicate Distinct<T(==)>(q: seq<T>) { forall j, k | 0 <= j < k < |q| :: q[j] != q[k] }

  /** SELECT url FROM nodes ORDER BY RANDOM() LIMIT limit. */
  predicate IsSample(t: Tables, limit: nat, urls: seq<Url>) {
    Distinct(urls) && |urls| == Min(limit, |t.nodes|) && forall u | u in urls :: u in t.nodes
  }

  /** A process that has exited does nothing any more: no body, fetch or timer of it runs. */
  predicate Enabled(s: Crawl, e: Event) {
    !s.exited &&
    match e
    case Wake => s.wakeups > 0
    case RunBody(b, i) =>
      && b in s.bodies
      && (s.bodies[b].pc.ReadingTargets? ==> IsSample(s.tables, Min(s.stats.nodeCount, RECRAWL_BATCH), i.targets))
    case Throw(b) => b in s.bodies && Unguarded(s.bodies[b].pc)
    case RunFetch(f, i) => f in s.fetches
    case CursorInit => s.firstCursor.Some?
    case ClearTimer(victims) => victims <= Stale(s.tables) && |victims| == Min(CLEAR_LIMIT, |Stale(s.tables)|)
    case RecrawlReset => s.stats.frontierCount > 0
    case _ => true
  }

  /** The statement of a timer or of a Kafka message. */
  function TimerOp(e: Event): DbOp {
    match e
    case ClearTimer(victims) => Delete(victims)
    case SeedTimer(u) => Insert(u, 0, None)
    case KafkaMessage(u, depth, parent) => Insert(u, depth, parent)
    case _ => Keep
  }

  function TimerStats(s: Crawl, e: Event): Stats {
    match e
    case RefreshTimer(worked) => Refreshed(s.stats, |s.tables.nodes|, |s.tables.frontier|, worked)
    case FullRefreshTimer(worked, countsWork) =>
      FullyRefreshed(s.stats, |s.tables.nodes|, |s.tables.frontier|, worked, CountsQuery(s.tables, countsWork))
    case DiskTimer(paused) => s.stats.(diskPaused := paused)
    case RecrawlReset => s.stats.(recrawlAttempted := false)
    case _ => s.stats
  }

  /** A timer or a finished fetch calls processNext: lines 184-190. */
  function Started(s: Crawl): Crawl
    requires s.wakeups > 0
  {
    var s1 := s.(wakeups := s.wakeups - 1);
    if s.stats.nodeCount >= MAX_NODES then s1.(past := s.past.(done := true))
    else s1.(bodies := s.bodies[s.nextBody := Body(Yielding, [], false)], nextBody := s.nextBody + 1)
  }

  ghost function Effect(s: Crawl, e: Event): Crawl
    requires Enabled(s, e)
  {
    match e
    case Wake => Started(s)
    case RunBody(b, i) => BodyMoved(s, b, BodyActOf(s, s.bodies[b], i))
    case Throw(b) => s.(exited := true)
    case RunFetch(f, i) => FetchMoved(s, f, FetchActOf(s, s.fetches[f], i))
    case CursorInit => s.(cursor := s.firstCursor.value, firstCursor := None)
    case _ => s.(tables := Executed(s.tables, TimerOp(e)), stats := TimerStats(s, e))
  }

  /** The statement a step runs. */
  ghost function OpOf(s: Crawl, e: Event): DbOp
    requires Enabled(s, e)
  {
    match e
    case RunBody(b, i) => BodyActOf(s, s.bodies[b], i).op
    case RunFetch(f, i) => FetchActOf(s, s.fetches[f], i).op
    case _ => TimerOp(e)
  }

  function Remembered(s: Crawl, r: Crawl): Crawl {
    r.(past := r.past.(ever := s.past.ever + r.tables.frontier.Keys))
  }

  ghost function Step(s: Crawl, e: Event): Crawl
    requires Enabled(s, e)
  {
    Remembered(s, Effect(s, e))
  }

  /** processNext has just been called for the first time, on tables left by earlier runs and
      counters that fullRefresh has loaded from them. */
  ghost predicate Initial(s: Crawl) {
    && WellFormed(s.tables)
    && s.stats.domainNodeCount == DomainCounts(s.tables)
    && s.stats == FRESH.(nodeCount := s.stats.nodeCount, frontierCount := s.stats.frontierCount,
                         domainNodeCount := s.stats.domainNodeCount)
    && s.active == 0 && s.cursor == 0 && s.domainsChecked == {}
    && s.wakeups == 1 && s.bodies == map[] && s.fetches == map[] && !s.exited
    && s.past == History(false, s.tables.frontier.Keys, 0, 0, 0, false, false)
  }

  /** The events of `es` can happen one after the other, starting in `s`. */
  ghost predicate Legal(s: Crawl, es: seq<Event>)
    decreases |es|
  {
    es == [] || (Enabled(s, es[0]) && Legal(Step(s, es[0]), es[1..]))
  }

  ghost function After(s: Crawl, es: seq<Event>): Crawl
    requires Legal(s, es)
    decreases |es|
  {
    if es == [] then s else After(Step(s, es[0]), es[1..])
  }

  // ---------------------------------------------------------------- what the other events leave alone

  predicate Elsewhere(e: Event) { !e.RunBody? && !e.RunFetch? }

  predicate SamePast(s: History, r: History) {
    && r.dispatched == s.dispatched && r.recrawled == s.recrawled
    && r.ever == s.ever && r.window == s.window && r.raced == s.raced && r.indexFault == s.indexFault
  }

  lemma TimerOutcomes(s: Crawl, e: Event)
    ensures SameOutcomes(s.stats, TimerStats(s, e)) && TimerStats(s, e).domainBlacklist == s.stats.domainBlacklist
  {
    match e
    case RefreshTimer(worked) =>
      RefreshKeepsOutcomes(s.stats, |s.tables.nodes|, |s.tables.frontier|, worked, None);
    case FullRefreshTimer(worked, countsWork) =>
      RefreshKeepsOutcomes(s.stats, |s.tables.nodes|, |s.tables.frontier|, worked, CountsQuery(s.tables, countsWork));
    case _ =>
  }

  lemma ElsewhereOutcomes(s: Crawl, e: Event)
    requires Enabled(s, e) && Elsewhere(e)
    ensures SameOutcomes(s.stats, Effect(s, e).stats)
    ensures Effect(s, e).stats.domainBlacklist == s.stats.domainBlacklist
  {
    TimerOutcomes(s, e);
  }

  lemma ElsewhereFetches(s: Crawl, e: Event)
    requires Enabled(s, e) && Elsewhere(e)
    ensures Effect(s, e).fetches == s.fetches && Effect(s, e).active == s.active
  {
  }

  lemma ElsewherePast(s: Crawl, e: Event)
    requires Enabled(s, e) && Elsewhere(e)
    ensures SamePast(s.past, Effect(s, e).past)
  {
  }

  lemma ElsewhereTables(s: Crawl, e: Event)
    requires Enabled(s, e) && Elsewhere(e)
    ensures Effect(s, e).tables == Executed(s.tables, TimerOp(e))
  {
  }

  lemma ElsewhereNodes(s: Crawl, e: Event)
    requires Enabled(s, e) && Elsewhere(e)
    ensures Effect(s, e).tables.nodes == s.tables.nodes && Effect(s, e).tables.fts == s.tables.fts
  {
    ElsewhereTables(s, e);
  }

  /** A step of a body changes no counter but the in-flight counts. */
  lemma BodyStats(s: Crawl, b: nat, act: BodyAct)
    requires b in s.bodies
    ensures var r := BodyMoved(s, b, act).stats;
      r == s.stats.(recrawlAttempted := r.recrawlAttempted, domainInflight := r.domainInflight)
  {
    var st := s.stats.(recrawlAttempted := act.recrawlAttempted);
    if act.next.Dispatch? {
      assert BodyMoved(s, b, act).stats == InflightSet(st, act.next.item.url.domain, act.next.inflight + 1);
    } else {
      assert BodyMoved(s, b, act).stats == st;
    }
  }

  lemma StepTables(s: Crawl, e: Event)
    requires Enabled(s, e)
    ensures Step(s, e).tables == Executed(s.tables, OpOf(s, e))
  {
    if Elsewhere(e) { ElsewhereTables(s, e); }
  }

  /** No bodies but those that were there and one that has just started. */
  lemma ElsewhereBodies(s: Crawl, e: Event)
    requires Enabled(s, e) && Elsewhere(e)
    ensures forall b | b in Effect(s, e).bodies ::
              (b in s.bodies && Effect(s, e).bodies[b] == s.bodies[b]) || Effect(s, e).bodies[b].pc == Yielding
  {
  }
}
