/** What becomes of a fetch, from its dispatch to the end of its finally block, with anything else
    happening in between: what it stores, what it gives up, and what it reports. */
module Lifecycle {
  import opened Prelude
  import opened Database
  import opened CrawlState
  import opened Scheduler
  import opened Turns
  import Lossless

  // ---------------------------------------------------------------- moments of a run

  /** At some moment of the run, its start and its end included, the URL is not in the frontier. */
  ghost predicate SometimeOut(s: Crawl, es: seq<Event>, u: Url)
    requires Legal(s, es)
    decreases |es|
  {
    u !in s.tables.frontier || (es != [] && SometimeOut(Step(s, es[0]), es[1..], u))
  }

  lemma OpVisited(t: Tables, op: DbOp)
    ensures t.visited <= Executed(t, op).visited
  {
    if op.InsertAll? { Lossless.InsertAllLeaves(t, op.items); }
  }

  lemma {:induction false} VisitedRun(s: Crawl, es: seq<Event>)
    requires Legal(s, es)
    ensures s.tables.visited <= After(s, es).tables.visited
    decreases |es|
  {
    if es != [] {
      StepTables(s, es[0]);
      OpVisited(s.tables, OpOf(s, es[0]));
      VisitedRun(Step(s, es[0]), es[1..]);
    }
  }

  // ---------------------------------------------------------------- the steps of one fetch

  /** A fetch that has been dispatched; identifiers are not used again. */
  predicate Dispatched(s: Crawl, f: nat) { f in s.fetches && f < s.past.dispatched }

  predicate IsOwn(e: Event, f: nat) { e.RunFetch? && e.f == f }

  /** What the environment answers in the steps of fetch `f`, in order: the page or an error first. */
  function Answers(es: seq<Event>, f: nat): seq<FetchInput> {
    if es == [] then [] else if IsOwn(es[0], f) then [es[0].inF] + Answers(es[1..], f) else Answers(es[1..], f)
  }

  predicate AllWork(es: seq<Event>, f: nat) { forall i | i in Answers(es, f) :: i.works }

  lemma OthersKeepFetch(s: Crawl, e: Event, f: nat)
    requires Enabled(s, e) && Dispatched(s, f) && !IsOwn(e, f)
    ensures Dispatched(Step(s, e), f) && Step(s, e).fetches[f] == s.fetches[f]
  {
    if Elsewhere(e) {
      ElsewhereFetches(s, e);
      ElsewherePast(s, e);
    }
  }

  lemma OwnStep(s: Crawl, e: Event, f: nat)
    requires Enabled(s, e) && Dispatched(s, f) && IsOwn(e, f)
    ensures var act, r := FetchActOf(s, s.fetches[f], e.inF), Step(s, e);
      && (act.next == Finish <==> f !in r.fetches)
      && (act.next.To? ==> Dispatched(r, f) && r.fetches[f] == s.fetches[f].(phase := act.next.phase))
      && r.tables == Executed(s.tables, act.op)
  {
  }

  lemma AnswersStep(es: seq<Event>, f: nat)
    requires es != [] && AllWork(es, f)
    ensures AllWork(es[1..], f) && (IsOwn(es[0], f) ==> es[0].inF.works)
  {
    assert forall i | i in Answers(es[1..], f) :: i in Answers(es, f);
    if IsOwn(es[0], f) { assert es[0].inF in Answers(es, f); }
  }

  // ---------------------------------------------------------------- re-crawls and failures

  predicate GivingUp(phase: Phase) { phase.Marking? || phase.Deleting? }

  /** From the moment a fetch is about to mark its URL. */
  lemma {:induction false} GivesUpFrom(s: Crawl, es: seq<Event>, f: nat)
    requires Dispatched(s, f) && Legal(s, es) && f !in After(s, es).fetches && AllWork(es, f)
    requires GivingUp(s.fetches[f].phase)
    requires s.fetches[f].phase.Deleting? ==> s.fetches[f].item.url in s.tables.visited
    ensures s.fetches[f].item.url in After(s, es).tables.visited && SometimeOut(s, es, s.fetches[f].item.url)
    decreases |es|
  {
    var e, r, u := es[0], Step(s, es[0]), s.fetches[f].item.url;
    AnswersStep(es, f);
    if !IsOwn(e, f) {
      OthersKeepFetch(s, e, f);
      StepTables(s, e);
      OpVisited(s.tables, OpOf(s, e));
      GivesUpFrom(r, es[1..], f);
    } else {
      OwnStep(s, e, f);
      if s.fetches[f].phase.Marking? {
        GivesUpFrom(r, es[1..], f);
      } else {
        VisitedRun(r, es[1..]);
      }
    }
  }

  /** A re-crawl, or a fetch that fails, is given up for good: when it is finished and none of its own
      statements has failed, its URL is visited, and its row has left the frontier since. */
  lemma {:induction false} GivesUp(s: Crawl, es: seq<Event>, f: nat)
    requires Dispatched(s, f) && s.fetches[f].phase == Fetching
    requires Legal(s, es) && f !in After(s, es).fetches && AllWork(es, f)
    requires s.fetches[f].item.depth == RECRAWL || (Answers(es, f) != [] && Answers(es, f)[0].response.None?)
    ensures s.fetches[f].item.url in After(s, es).tables.visited && SometimeOut(s, es, s.fetches[f].item.url)
    decreases |es|
  {
    var e, r := es[0], Step(s, es[0]);
    AnswersStep(es, f);
    if !IsOwn(e, f) {
      OthersKeepFetch(s, e, f);
      GivesUp(r, es[1..], f);
    } else {
      OwnStep(s, e, f);
      GivesUpFrom(r, es[1..], f);
    }
  }

  // ---------------------------------------------------------------- pages that are stored

  /** The page is stored as the crawler found it, column by column; its URL and the one it was fetched
      under are visited and out of the frontier; and other pages are as before. */
  ghost predicate Stored(before: Tables, t: Tables, item: Item, r: Response, indexed: bool) {
    var u, c := r.finalUrl, r.content;
    var desc := if c.meta != "" then c.meta else c.ogd;
    && u in t.nodes
    && t.nodes[u].title == c.title && t.nodes[u].description == desc && t.nodes[u].metaDescription == c.meta
    && t.nodes[u].ogTitle == c.ogt && t.nodes[u].ogDescription == c.ogd && t.nodes[u].lang == c.lang
    && t.nodes[u].domain == u.domain && t.nodes[u].depth == item.depth && t.nodes[u].parent == item.parent
    && t.nodes[u].contentLength == c.clen && t.nodes[u].popularity == c.pop && t.nodes[u].https == c.https
    && t.nodes[u].crawledAt == c.ts
    && (forall v | v in before.nodes && v != u :: v in t.nodes && t.nodes[v] == before.nodes[v])
    && u in t.visited && item.url in t.visited && u !in t.frontier && item.url !in t.frontier
    && (indexed ==> FtsRow(u, c.title, desc, c.meta, c.ogt, c.ogd, u.domain) in t.fts)
  }

  lemma SaveStores(t: Tables, item: Item, r: Response, ftsWorks: bool)
    ensures Stored(t, Database.Saved(t, PageOf(item, r), ftsWorks), item, r, ftsWorks)
  {
  }

  /** At some moment of the run the page has just been stored. */
  ghost predicate SometimeStored(s: Crawl, es: seq<Event>, item: Item, r: Response, indexed: bool)
    requires Legal(s, es)
    decreases |es|
  {
    es != [] && (Stored(s.tables, Step(s, es[0]).tables, item, r, indexed)
                 || SometimeStored(Step(s, es[0]), es[1..], item, r, indexed))
  }

  lemma {:induction false} StoresFrom(s: Crawl, es: seq<Event>, f: nat, r: Response)
    requires Dispatched(s, f) && Legal(s, es) && f !in After(s, es).fetches && AllWork(es, f)
    requires s.fetches[f].phase == Saving(PageOf(s.fetches[f].item, r), r.links)
    ensures Answers(es, f) != [] && SometimeStored(s, es, s.fetches[f].item, r, Answers(es, f)[0].ftsWorks)
    decreases |es|
  {
    var e, t := es[0], Step(s, es[0]);
    AnswersStep(es, f);
    if !IsOwn(e, f) {
      OthersKeepFetch(s, e, f);
      StoresFrom(t, es[1..], f, r);
    } else {
      OwnStep(s, e, f);
      SaveStores(s.tables, s.fetches[f].item, r, e.inF.ftsWorks);
    }
  }

  /** A new page that is fetched is stored: when the fetch is finished and none of its own statements
      has failed, there was a moment at which the page had just been stored. */
  lemma {:induction false} StoresPage(s: Crawl, es: seq<Event>, f: nat, r: Response)
    requires Dispatched(s, f) && s.fetches[f].phase == Fetching && s.fetches[f].item.depth != RECRAWL
    requires Legal(s, es) && f !in After(s, es).fetches && AllWork(es, f)
    requires Answers(es, f) != [] && Answers(es, f)[0].response == Some(r)
    ensures |Answers(es, f)| > 1 && SometimeStored(s, es, s.fetches[f].item, r, Answers(es, f)[1].ftsWorks)
    decreases |es|
  {
    var e, t := es[0], Step(s, es[0]);
    AnswersStep(es, f);
    if !IsOwn(e, f) {
      OthersKeepFetch(s, e, f);
      StoresPage(t, es[1..], f, r);
    } else {
      OwnStep(s, e, f);
      StoresFrom(t, es[1..], f, r);
    }
  }

  // ---------------------------------------------------------------- saves that fail

  /** No step of fetch `f` changes the tables. */
  ghost predicate LeavesTables(s: Crawl, es: seq<Event>, f: nat)
    requires Legal(s, es)
    decreases |es|
  {
    es == [] || ((IsOwn(es[0], f) ==> Step(s, es[0]).tables == s.tables) && LeavesTables(Step(s, es[0]), es[1..], f))
  }

  predicate Failing(phase: Phase) { phase.SaveFailed? || phase.Settled? }

  lemma {:induction false} LeavesFrom(s: Crawl, es: seq<Event>, f: nat)
    requires Legal(s, es) && (f in s.fetches ==> Failing(s.fetches[f].phase)) && f < s.past.dispatched
    ensures LeavesTables(s, es, f)
    decreases |es|
  {
    if es != [] {
      LeavesStep(s, es[0], f);
      LeavesFrom(Step(s, es[0]), es[1..], f);
    }
  }

  lemma LeavesStep(s: Crawl, e: Event, f: nat)
    requires Enabled(s, e) && (f in s.fetches ==> Failing(s.fetches[f].phase)) && f < s.past.dispatched
    ensures IsOwn(e, f) ==> Step(s, e).tables == s.tables
    ensures var r := Step(s, e); (f in r.fetches ==> Failing(r.fetches[f].phase)) && f < r.past.dispatched
  {
    if Elsewhere(e) {
      ElsewhereFetches(s, e);
      ElsewherePast(s, e);
    } else if IsOwn(e, f) {
      OwnStep(s, e, f);
    }
  }

  /** A page whose save fails is left for later: no step of the fetch changes the tables, so its URL is
      neither marked nor removed by it. */
  lemma {:induction false} FailedSaveLeaves(s: Crawl, es: seq<Event>, f: nat)
    requires Dispatched(s, f) && Legal(s, es) && |Answers(es, f)| > 1
    requires s.fetches[f].phase == Fetching && s.fetches[f].item.depth != RECRAWL
    requires Answers(es, f)[0].response.Some? && !Answers(es, f)[1].works
    ensures LeavesTables(s, es, f)
    decreases |es|
  {
    if !IsOwn(es[0], f) {
      OthersKeepFetch(s, es[0], f);
      FailedSaveLeaves(Step(s, es[0]), es[1..], f);
    } else {
      OwnStep(s, es[0], f);
      SaveFails(Step(s, es[0]), es[1..], f);
    }
  }

  lemma {:induction false} SaveFails(s: Crawl, es: seq<Event>, f: nat)
    requires Dispatched(s, f) && Legal(s, es) && s.fetches[f].phase.Saving?
    requires Answers(es, f) != [] && !Answers(es, f)[0].works
    ensures LeavesTables(s, es, f)
    decreases |es|
  {
    if !IsOwn(es[0], f) {
      OthersKeepFetch(s, es[0], f);
      SaveFails(Step(s, es[0]), es[1..], f);
    } else {
      OwnStep(s, es[0], f);
      LeavesFrom(Step(s, es[0]), es[1..], f);
    }
  }

  // ---------------------------------------------------------------- links that are inserted

  /** At some moment of the run all the URLs have just been offered to the frontier: each has a row
      there, the one it had before or one with its own depth and parent. */
  ghost predicate SometimeLinked(s: Crawl, es: seq<Event>, items: seq<Item>)
    requires Legal(s, es)
    decreases |es|
  {
    es != [] && (Linked(s.tables, Step(s, es[0]).tables, items) || SometimeLinked(Step(s, es[0]), es[1..], items))
  }

  ghost predicate Linked(before: Tables, t: Tables, items: seq<Item>) {
    && (forall u | u in before.frontier :: u in t.frontier && t.frontier[u] == before.frontier[u])
    && (forall i | i in items :: i.url in t.frontier)
    && (forall u | u in t.frontier && u !in before.frontier :: RowFrom(items, u, t.frontier[u]))
  }

  ghost predicate RowFrom(items: seq<Item>, u: Url, row: FrontierRow) {
    exists i :: i in items && i.url == u && row.depth == i.depth && row.parent == i.parent
  }

  lemma InsertLinks(t: Tables, items: seq<Item>)
    requires WellFormed(t)
    ensures Linked(t, InsertedMany(t, items), items)
  {
    InsertManyFrame(t, items);
    InsertManyKeys(t, items);
    var r := InsertedMany(t, items);
    forall i | i in items ensures i.url in r.frontier { assert i.url in Urls(items); }
    forall u | u in r.frontier && u !in t.frontier ensures RowFrom(items, u, r.frontier[u]) {
      var k := FirstWith(items, u);
      InsertManyOrigin(t, items, k);
      assert items[k] in items;
    }
  }

  lemma FormStep(s: Crawl, e: Event)
    requires Enabled(s, e) && WellFormed(s.tables)
    ensures WellFormed(Step(s, e).tables)
  {
    StepTables(s, e);
    OpWellFormed(s.tables, OpOf(s, e));
  }

  lemma LinkedLater(s: Crawl, es: seq<Event>, items: seq<Item>)
    requires Legal(s, es) && es != [] && SometimeLinked(Step(s, es[0]), es[1..], items)
    ensures SometimeLinked(s, es, items)
  {
  }

  lemma LinkedNow(s: Crawl, es: seq<Event>, items: seq<Item>)
    requires Legal(s, es) && es != [] && WellFormed(s.tables)
    requires Step(s, es[0]).tables == InsertedMany(s.tables, items)
    ensures SometimeLinked(s, es, items)
  {
    InsertLinks(s.tables, items);
  }

  /** The links a fetch has chosen are in the frontier once it is finished, unless the insertion fails. */
  lemma {:induction false} LinksArrive(s: Crawl, es: seq<Event>, f: nat, items: seq<Item>)
    requires WellFormed(s.tables) && Dispatched(s, f) && s.fetches[f].phase == Linking(items)
    requires Legal(s, es) && f !in After(s, es).fetches && AllWork(es, f)
    ensures SometimeLinked(s, es, items)
    decreases |es|
  {
    AnswersStep(es, f);
    if !IsOwn(es[0], f) {
      OthersKeepFetch(s, es[0], f);
      FormStep(s, es[0]);
      LinksArrive(Step(s, es[0]), es[1..], f, items);
      LinkedLater(s, es, items);
    } else {
      OwnStep(s, es[0], f);
      LinkedNow(s, es, items);
    }
  }

  // ---------------------------------------------------------------- what a fetch reports

  /** Changes of the totals, and of the counters of one domain. */
  datatype Score = Score(success: int, fail: int, good: int, bad: int)

  function Change(s: Stats, r: Stats, d: string): Score {
    Score(r.success - s.success, r.fail - s.fail, Get(r.domainSuccess, d) - Get(s.domainSuccess, d),
          Get(r.domainFail, d) - Get(s.domainFail, d))
  }

  function Plus(a: Score, b: Score): Score {
    Score(a.success + b.success, a.fail + b.fail, a.good + b.good, a.bad + b.bad)
  }

  /** What the own steps of fetch `f` change in all. */
  ghost function Scored(s: Crawl, es: seq<Event>, f: nat, d: string): Score
    requires Legal(s, es)
    decreases |es|
  {
    if es == [] then Score(0, 0, 0, 0)
    else
      var r := Step(s, es[0]);
      var rest := Scored(r, es[1..], f, d);
      if IsOwn(es[0], f) then Plus(Change(s.stats, r.stats, d), rest) else rest
  }

  const NOTHING := Score(0, 0, 0, 0)
  const FAILURE := Score(0, 1, 0, 1)
  const RECRAWLED := Score(1, 0, 0, 0)
  const SUCCESS := Score(1, 0, 1, 0)

  /** What is still to be reported in a phase, when the save, if it is still to come, works or not. */
  function Due(phase: Phase, saves: bool): Score {
    match phase
    case Saving(_, _) => if saves then SUCCESS else FAILURE
    case Saved(_, _) => SUCCESS
    case SaveFailed => FAILURE
    case Marking(again) => if again then RECRAWLED else NOTHING
    case Deleting(again) => if again then RECRAWLED else NOTHING
    case Recrawled => RECRAWLED
    case _ => NOTHING
  }

  function DueNext(next: FetchNext, saves: bool): Score {
    match next case Finish => NOTHING case To(phase) => Due(phase, saves)
  }

  function TallyScore(tally: Tally): Score {
    match tally
    case NoTally => NOTHING
    case Failure => FAILURE
    case Success(_) => SUCCESS
    case RecrawlSuccess => RECRAWLED
  }

  lemma TalliedScore(st: Stats, d: string, tally: Tally)
    ensures Change(st, Tallied(st, d, tally), d) == TallyScore(tally)
  {
  }

  lemma OwnChange(s: Crawl, e: Event, f: nat)
    requires Enabled(s, e) && Dispatched(s, f) && IsOwn(e, f)
    ensures var d, act := s.fetches[f].item.url.domain, FetchActOf(s, s.fetches[f], e.inF);
      Change(s.stats, Step(s, e).stats, d) == TallyScore(act.tally)
  {
    TalliedScore(s.stats, s.fetches[f].item.url.domain, FetchActOf(s, s.fetches[f], e.inF).tally);
  }

  lemma DueStep(s: Crawl, fetch: Fetch, i: FetchInput, later: bool)
    requires fetch.phase != Fetching
    ensures var act := FetchActOf(s, fetch, i);
      Due(fetch.phase, i.works)
      == Plus(TallyScore(act.tally), DueNext(act.next, later))
  {
    var act := FetchActOf(s, fetch, i);
    PlusNothing();
    if act.next.To? {
      if fetch.phase.Saving? {
        assert act.tally == NoTally && Due(act.next.phase, later) == if i.works then SUCCESS else FAILURE;
      } else if fetch.phase.Saved? || fetch.phase.SaveFailed? || fetch.phase.Recrawled? {
        assert Due(act.next.phase, later) == NOTHING;
      } else {
        assert act.tally == NoTally && Due(act.next.phase, later) == Due(fetch.phase, i.works);
      }
    }
  }

  lemma PlusNothing()
    ensures forall a :: Plus(a, NOTHING) == a && Plus(NOTHING, a) == a
  {
  }

  /** The step in which the answer comes. */
  lemma DueFirst(s: Crawl, item: Item, i: FetchInput, saves: bool)
    ensures var act := FetchActOf(s, Fetch(item, Fetching), i);
      && act.next.To? && act.next.phase != Fetching
      && Plus(TallyScore(act.tally), Due(act.next.phase, saves)) == Verdict(item, i, saves)
  {
    PlusNothing();
    if i.response.None? {
      assert FetchActOf(s, Fetch(item, Fetching), i).tally == Failure;
    } else if item.depth == RECRAWL {
      assert FetchActOf(s, Fetch(item, Fetching), i) == FetchAct(Keep, NoTally, To(Marking(true)));
    } else {
      assert FetchActOf(s, Fetch(item, Fetching), i).next.phase.Saving?;
    }
  }

  /** One failure if the fetch or the save has failed, one success otherwise; a re-crawl that is
      fetched is a success in all, but not of its domain. */
  function Verdict(item: Item, first: FetchInput, saves: bool): Score {
    if first.response.None? then Score(0, 1, 0, 1)
    else if item.depth == RECRAWL then Score(1, 0, 0, 0)
    else if saves then Score(1, 0, 1, 0)
    else Score(0, 1, 0, 1)
  }

  lemma ScoredOther(s: Crawl, es: seq<Event>, f: nat, d: string)
    requires Legal(s, es) && es != [] && !IsOwn(es[0], f)
    ensures Scored(s, es, f, d) == Scored(Step(s, es[0]), es[1..], f, d) && Answers(es, f) == Answers(es[1..], f)
  {
  }

  lemma ScoredOwn(s: Crawl, es: seq<Event>, f: nat)
    requires Legal(s, es) && es != [] && IsOwn(es[0], f) && Dispatched(s, f)
    ensures var d, act := s.fetches[f].item.url.domain, FetchActOf(s, s.fetches[f], es[0].inF);
      Scored(s, es, f, d) == Plus(TallyScore(act.tally), Scored(Step(s, es[0]), es[1..], f, d))
    ensures Answers(es, f) == [es[0].inF] + Answers(es[1..], f)
  {
    OwnChange(s, es[0], f);
  }

  lemma DueOwn(s: Crawl, es: seq<Event>, f: nat, fetch: Fetch, later: bool)
    requires Legal(s, es) && es != [] && IsOwn(es[0], f) && Dispatched(s, f) && s.fetches[f] == fetch
    requires fetch.phase != Fetching
    requires Scored(Step(s, es[0]), es[1..], f, fetch.item.url.domain)
             == DueNext(FetchActOf(s, fetch, es[0].inF).next, later)
    ensures Scored(s, es, f, fetch.item.url.domain) == Due(fetch.phase, es[0].inF.works)
    ensures Answers(es, f) == [es[0].inF] + Answers(es[1..], f)
  {
    ScoredOwn(s, es, f);
    DueStep(s, fetch, es[0].inF, later);
  }

  lemma {:induction false} ReportsDue(s: Crawl, es: seq<Event>, f: nat, fetch: Fetch)
    requires Dispatched(s, f) && s.fetches[f] == fetch && fetch.phase != Fetching
    requires Legal(s, es) && f !in After(s, es).fetches
    ensures Answers(es, f) != []
    ensures Scored(s, es, f, fetch.item.url.domain) == Due(fetch.phase, Answers(es, f)[0].works)
    decreases |es|
  {
    if !IsOwn(es[0], f) {
      OthersKeepFetch(s, es[0], f);
      ReportsDue(Step(s, es[0]), es[1..], f, fetch);
      ScoredOther(s, es, f, fetch.item.url.domain);
    } else {
      OwnStep(s, es[0], f);
      var next := FetchActOf(s, fetch, es[0].inF).next;
      if next == Finish {
        OverScores(Step(s, es[0]), es[1..], f, fetch.item.url.domain);
        DueOwn(s, es, f, fetch, false);
      } else {
        ReportsDue(Step(s, es[0]), es[1..], f, fetch.(phase := next.phase));
        DueOwn(s, es, f, fetch, Answers(es[1..], f)[0].works);
      }
    }
  }

  lemma {:induction false} OverScores(s: Crawl, es: seq<Event>, f: nat, d: string)
    requires Legal(s, es) && f !in s.fetches && f < s.past.dispatched
    ensures Scored(s, es, f, d) == NOTHING
    decreases |es|
  {
    if es != [] {
      if Elsewhere(es[0]) {
        ElsewhereFetches(s, es[0]);
        ElsewherePast(s, es[0]);
      }
      OverScores(Step(s, es[0]), es[1..], f, d);
    }
  }

  /** What a finished fetch has reported, in all and of its domain, is the verdict on its answer and
      its save; other statements of it have no influence. */
  lemma {:induction false} ReportsVerdict(s: Crawl, es: seq<Event>, f: nat, item: Item)
    requires Dispatched(s, f) && s.fetches[f] == Fetch(item, Fetching) && Legal(s, es) && f !in After(s, es).fetches
    ensures |Answers(es, f)| > 1
    ensures Scored(s, es, f, item.url.domain) == Verdict(item, Answers(es, f)[0], Answers(es, f)[1].works)
    decreases |es|
  {
    var r := Step(s, es[0]);
    if !IsOwn(es[0], f) {
      OthersKeepFetch(s, es[0], f);
      ReportsVerdict(r, es[1..], f, item);
      ScoredOther(s, es, f, item.url.domain);
    } else {
      var act := FetchActOf(s, s.fetches[f], es[0].inF);
      OwnStep(s, es[0], f);
      ScoredOwn(s, es, f);
      DueFirst(s, item, es[0].inF, false);
      ReportsDue(r, es[1..], f, Fetch(item, act.next.phase));
      DueFirst(s, item, es[0].inF, Answers(es[1..], f)[0].works);
    }
  }

  /** The end of a fetch schedules exactly one call, and no other step of a fetch schedules any. */
  lemma EndSchedulesOne(s: Crawl, f: nat, i: FetchInput)
    requires Enabled(s, RunFetch(f, i))
    ensures var r := Step(s, RunFetch(f, i));
      r.wakeups == s.wakeups + One(f !in r.fetches) && r.active == s.active - One(f !in r.fetches)
  {
  }

  /** A statement of a fetch that fails changes nothing, and neither do the steps without one. */
  lemma FailedStatement(s: Crawl, f: nat, i: FetchInput)
    requires Enabled(s, RunFetch(f, i))
    requires !i.works || s.fetches[f].phase.Fetching? || s.fetches[f].phase.Saved? || s.fetches[f].phase.SaveFailed?
             || s.fetches[f].phase.Recrawled? || s.fetches[f].phase.Settled?
    ensures Step(s, RunFetch(f, i)).tables == s.tables
  {
  }
}
