/** Every dispatched fetch is counted exactly once, and the search index follows the nodes. */
module Accounting {
  import opened Prelude
  import opened Database
  import opened CrawlState
  import opened Scheduler
  import opened Wakeups

  /** The phases before the one step that reports to the counters. */
  predicate Unreported(phase: Phase) {
    match phase
    case Marking(again) => again
    case Deleting(again) => again
    case Linking(_) => false
    case Settled => false
    case _ => true
  }

  function Outstanding(): Fetch -> bool { (f: Fetch) => Unreported(f.phase) }

  /** A fetch reports in exactly the step that takes it out of the unreported phases, whichever of
      parse error, save error, fetch error, re-crawl or success it meets; and its finally block runs
      only after that. */
  lemma ReportsOnce(s: Crawl, fetch: Fetch, i: FetchInput)
    ensures var act := FetchActOf(s, fetch, i);
      && (act.next == Finish ==> !Unreported(fetch.phase) && act.tally == NoTally)
      && (act.next.To? ==>
            && (act.tally != NoTally <==> Unreported(fetch.phase) && !Unreported(act.next.phase))
            && (Unreported(act.next.phase) ==> Unreported(fetch.phase)))
  {
  }

  /** The counters account for every dispatched fetch. */
  ghost predicate Balanced(s: Crawl) {
    && s.stats.success + s.stats.fail + CountIf(s.fetches, Outstanding()) == s.past.dispatched
    && Sum(s.stats.domainFail) == s.stats.fail
    && Sum(s.stats.domainSuccess) + s.past.recrawled == s.stats.success
  }

  /** One report adds one to one of the totals, and to one per-domain counter unless it is a re-crawl. */
  lemma TalliedSums(st: Stats, d: string, tally: Tally)
    ensures var r := Tallied(st, d, tally);
      && r.success + r.fail == st.success + st.fail + One(tally != NoTally)
      && r.fail == st.fail + One(tally == Failure)
      && Sum(r.domainFail) == Sum(st.domainFail) + One(tally == Failure)
      && Sum(r.domainSuccess) == Sum(st.domainSuccess) + One(tally.Success?)
  {
    SumPut(st.domainFail, d, Get(st.domainFail, d) + 1);
    SumPut(st.domainSuccess, d, Get(st.domainSuccess, d) + 1);
  }

  lemma FetchMovedBalanced(s: Crawl, f: nat, act: FetchAct)
    requires Balanced(s) && f in s.fetches
    requires act.next == Finish ==> !Unreported(s.fetches[f].phase) && act.tally == NoTally
    requires act.next.To? ==>
               && (act.tally != NoTally <==> Unreported(s.fetches[f].phase) && !Unreported(act.next.phase))
               && (Unreported(act.next.phase) ==> Unreported(s.fetches[f].phase))
    ensures Balanced(FetchMoved(s, f, act))
  {
    TalliedSums(s.stats, s.fetches[f].item.url.domain, act.tally);
    match act.next
    case To(phase) => CountPut(s.fetches, f, s.fetches[f].(phase := phase), Outstanding());
    case Finish => CountDrop(s.fetches, f, Outstanding());
  }

  /** The parts of a state that the counters depend on. */
  lemma SameBalanced(s: Crawl, r: Crawl)
    requires Balanced(s) && r.fetches == s.fetches && r.past == s.past.(window := r.past.window)
    requires r.stats == s.stats.(recrawlAttempted := r.stats.recrawlAttempted)
    ensures Balanced(r)
  {
  }

  lemma DispatchBalanced(s: Crawl, b: nat, act: BodyAct)
    requires Balanced(s) && b in s.bodies && act.next.Dispatch? && s.past.dispatched !in s.fetches
    ensures Balanced(BodyMoved(s, b, act))
  {
    var r := BodyMoved(s, b, act);
    CountPut(s.fetches, s.past.dispatched, Fetch(act.next.item, Fetching), Outstanding());
    assert CountIf(r.fetches, Outstanding()) == CountIf(s.fetches, Outstanding()) + 1;
    assert r.stats.domainFail == s.stats.domainFail && r.stats.domainSuccess == s.stats.domainSuccess;
  }

  lemma BodyMovedBalanced(s: Crawl, b: nat, act: BodyAct)
    requires Balanced(s) && b in s.bodies
    requires act.next.Dispatch? ==> s.past.dispatched !in s.fetches
    ensures Balanced(BodyMoved(s, b, act))
  {
    if act.next.Dispatch? { DispatchBalanced(s, b, act); } else { SameBalanced(s, BodyMoved(s, b, act)); }
  }

  lemma BalancedStep(s: Crawl, e: Event)
    requires Shape(s) && Balanced(s) && Enabled(s, e)
    ensures Balanced(Step(s, e))
  {
    if e.RunBody? {
      assert s.past.dispatched !in s.fetches;
      BodyMovedBalanced(s, e.b, BodyActOf(s, s.bodies[e.b], e.inB));
    } else if e.RunFetch? {
      ReportsOnce(s, s.fetches[e.f], e.inF);
      FetchMovedBalanced(s, e.f, FetchActOf(s, s.fetches[e.f], e.inF));
    } else {
      ElsewhereOutcomes(s, e);
      ElsewhereFetches(s, e);
      ElsewherePast(s, e);
    }
  }

  lemma {:induction false} BalancedRun(s: Crawl, es: seq<Event>)
    requires Shape(s) && Balanced(s) && Legal(s, es)
    ensures Balanced(After(s, es))
    decreases |es|
  {
    if es != [] {
      ShapeStep(s, es[0]);
      BalancedStep(s, es[0]);
      BalancedRun(Step(s, es[0]), es[1..]);
    }
  }

  /** Exactly-once accounting: in every interleaving, successes, failures and fetches that have not
      reported yet add up to the dispatched fetches; the per-domain failures add up to the failures,
      and the per-domain successes plus the re-crawls to the successes. */
  lemma ExactlyOnce(s: Crawl, es: seq<Event>)
    requires Initial(s) && Legal(s, es)
    ensures Balanced(After(s, es))
    ensures After(s, es).fetches == map[] ==>
              After(s, es).stats.success + After(s, es).stats.fail == After(s, es).past.dispatched
  {
    CountNone(s.fetches, Outstanding());
    BalancedRun(s, es);
    if After(s, es).fetches == map[] { CountNone(After(s, es).fetches, Outstanding()); }
  }

  // ---------------------------------------------------------------- each fetch on its own

  /** The steps of a run in which fetch `f` reports to the counters. */
  ghost function Reports(s: Crawl, es: seq<Event>, f: nat): nat
    requires Legal(s, es)
    decreases |es|
  {
    if es == [] then 0
    else
      var e := es[0];
      One(e.RunFetch? && e.f == f && FetchActOf(s, s.fetches[f], e.inF).tally != NoTally)
      + Reports(Step(s, e), es[1..], f)
  }

  /** Fetch `f` is under way and has still to report. */
  function Owed(s: Crawl, f: nat): nat { One(f in s.fetches && Unreported(s.fetches[f].phase)) }

  predicate Begins(s: Crawl, r: Crawl, f: nat) { s.past.dispatched <= f < r.past.dispatched }

  lemma BodyOwes(s: Crawl, b: nat, act: BodyAct, f: nat)
    requires Shape(s) && b in s.bodies
    ensures var r := BodyMoved(s, b, act);
      s.past.dispatched <= r.past.dispatched && Owed(r, f) == Owed(s, f) + One(Begins(s, r, f))
  {
  }

  lemma FetchOwes(s: Crawl, g: nat, i: FetchInput, f: nat)
    requires g in s.fetches
    ensures var act := FetchActOf(s, s.fetches[g], i);
      var r := FetchMoved(s, g, act);
      r.past.dispatched == s.past.dispatched && One(g == f && act.tally != NoTally) + Owed(r, f) == Owed(s, f)
  {
    ReportsOnce(s, s.fetches[g], i);
  }

  lemma OwedStep(s: Crawl, e: Event, f: nat)
    requires Shape(s) && Enabled(s, e)
    ensures var r := Step(s, e);
      && s.past.dispatched <= r.past.dispatched
      && One(e.RunFetch? && e.f == f && FetchActOf(s, s.fetches[f], e.inF).tally != NoTally) + Owed(r, f)
         == Owed(s, f) + One(Begins(s, r, f))
  {
    if e.RunBody? {
      BodyOwes(s, e.b, BodyActOf(s, s.bodies[e.b], e.inB), f);
    } else if e.RunFetch? {
      FetchOwes(s, e.f, e.inF, f);
    } else {
      ElsewhereFetches(s, e);
      ElsewherePast(s, e);
    }
  }

  lemma {:induction false} OwedRun(s: Crawl, es: seq<Event>, f: nat)
    requires Shape(s) && Legal(s, es)
    ensures s.past.dispatched <= After(s, es).past.dispatched
    ensures Reports(s, es, f) + Owed(After(s, es), f) == Owed(s, f) + One(Begins(s, After(s, es), f))
    decreases |es|
  {
    if es != [] {
      OwedStep(s, es[0], f);
      ShapeStep(s, es[0]);
      OwedRun(Step(s, es[0]), es[1..], f);
    }
  }

  /** Each fetch of a run reports once: a dispatched fetch that is not in one of the unreported
      phases any more has reported exactly once, whether it is still under way or over, and every
      other fetch not at all. */
  lemma EachReportsOnce(s: Crawl, es: seq<Event>, f: nat)
    requires Initial(s) && Legal(s, es)
    ensures var r := After(s, es);
      && Reports(s, es, f) == (if f < r.past.dispatched && Owed(r, f) == 0 then 1 else 0)
      && (f in r.fetches ==> f < r.past.dispatched)
  {
    OwedRun(s, es, f);
    ShapeRun(s, es);
  }

  // ---------------------------------------------------------------- the blacklist of a run

  /** What a step reports of a domain; a re-crawl that works reports nothing of it. */
  ghost function OutcomeOf(s: Crawl, e: Event): seq<Outcome>
    requires Enabled(s, e)
  {
    if !e.RunFetch? then []
    else
      var d := s.fetches[e.f].item.url.domain;
      match FetchActOf(s, s.fetches[e.f], e.inF).tally
      case Failure => [Bad(d)]
      case Success(_) => [Good(d)]
      case _ => []
  }

  /** The outcomes of a run, in the order in which its fetches report them. */
  ghost function Outcomes(s: Crawl, es: seq<Event>): seq<Outcome>
    requires Legal(s, es)
    decreases |es|
  {
    if es == [] then [] else OutcomeOf(s, es[0]) + Outcomes(Step(s, es[0]), es[1..])
  }

  /** The per-domain outcome counters are those of a history. */
  predicate Records(st: Stats, os: seq<Outcome>) {
    var r := Replay(os);
    st.domainSuccess == r.domainSuccess && st.domainFail == r.domainFail && st.domainBlacklist == r.domainBlacklist
  }

  lemma ReplayNext(os: seq<Outcome>, o: Outcome)
    ensures Replay(os + [o]) == Reported(Replay(os), o)
  {
    assert (os + [o])[..|os|] == os;
  }

  lemma TalliedRecords(st: Stats, d: string, tally: Tally, os: seq<Outcome>)
    requires Records(st, os)
    ensures Records(Tallied(st, d, tally),
                    os + match tally case Failure => [Bad(d)] case Success(_) => [Good(d)] case _ => [])
  {
    ReplayNext(os, Bad(d));
    ReplayNext(os, Good(d));
    assert os + [] == os;
  }

  lemma FetchRecords(s: Crawl, f: nat, act: FetchAct)
    requires f in s.fetches
    ensures var t, r := Tallied(s.stats, s.fetches[f].item.url.domain, act.tally), FetchMoved(s, f, act).stats;
      && r.domainSuccess == t.domainSuccess && r.domainFail == t.domainFail && r.domainBlacklist == t.domainBlacklist
  {
  }

  lemma SameRecords(st: Stats, r: Stats, os: seq<Outcome>)
    requires Records(st, os)
    requires r == st.(recrawlAttempted := r.recrawlAttempted, domainInflight := r.domainInflight)
    ensures Records(r, os)
  {
  }

  lemma RecordsStep(s: Crawl, e: Event, os: seq<Outcome>)
    requires Enabled(s, e) && Records(s.stats, os)
    ensures Records(Step(s, e).stats, os + OutcomeOf(s, e))
  {
    assert os + [] == os;
    if e.RunFetch? {
      var act := FetchActOf(s, s.fetches[e.f], e.inF);
      TalliedRecords(s.stats, s.fetches[e.f].item.url.domain, act.tally, os);
      FetchRecords(s, e.f, act);
    } else if e.RunBody? {
      BodyStats(s, e.b, BodyActOf(s, s.bodies[e.b], e.inB));
      SameRecords(s.stats, Effect(s, e).stats, os);
    } else {
      ElsewhereOutcomes(s, e);
    }
  }

  lemma OutcomesNext(s: Crawl, es: seq<Event>, os: seq<Outcome>)
    requires Legal(s, es) && es != []
    ensures os + Outcomes(s, es) == (os + OutcomeOf(s, es[0])) + Outcomes(Step(s, es[0]), es[1..])
  {
    Associative(os, OutcomeOf(s, es[0]), Outcomes(Step(s, es[0]), es[1..]));
  }

  lemma Associative<T>(a: seq<T>, b: seq<T>, c: seq<T>)
    ensures a + (b + c) == (a + b) + c
  {
  }

  lemma {:induction false} RecordsRun(s: Crawl, es: seq<Event>, os: seq<Outcome>, all: seq<Outcome>)
    requires Legal(s, es) && Records(s.stats, os) && all == os + Outcomes(s, es)
    ensures Records(After(s, es).stats, all)
    decreases |es|
  {
    if es == [] {
      assert all == os;
    } else {
      RecordsStep(s, es[0], os);
      OutcomesNext(s, es, os);
      RecordsRun(Step(s, es[0]), es[1..], os + OutcomeOf(s, es[0]), all);
    }
  }

  /** The automatic blacklist of the crawl loop: in every interleaving a domain is on it if and only
      if some prefix of the outcomes reported so far ends in a failure of the domain that leaves it
      with at least 20 outcomes, more than nine tenths of them failures. */
  lemma BlacklistOfRun(s: Crawl, es: seq<Event>, d: string)
    requires Initial(s) && Legal(s, es)
    ensures d in After(s, es).stats.domainBlacklist
            <==> exists k :: 0 <= k <= |Outcomes(s, es)| && Trips(Outcomes(s, es)[..k], d)
  {
    assert Outcomes(s, es) == [] + Outcomes(s, es);
    RecordsRun(s, es, [], Outcomes(s, es));
    BlacklistedIff(Outcomes(s, es), d);
  }

  // ---------------------------------------------------------------- the search index

  lemma OnlyFetchesSave(s: Crawl, body: Body, i: BodyInput)
    ensures var op := BodyActOf(s, body, i).op; !op.Save? && !op.InsertAll?
  {
    match body.pc
    case AtItem =>
      if body.rest != [] { ClassifiedKeeps(s, body.(rest := body.rest[1..]), body.rest[0], i.blocked); }
    case HoldingVisited(item, _) => ClassifiedKeeps(s, body, item, i.blocked);
    case _ =>
  }

  lemma ClassifiedKeeps(s: Crawl, body: Body, item: Item, blocked: bool)
    ensures Classified(s, body, item, blocked).op == Keep
  {
  }

  lemma {:induction false} InsertAllNodes(t: Tables, items: seq<Item>)
    ensures InsertedMany(t, items).nodes == t.nodes && InsertedMany(t, items).fts == t.fts
    decreases items
  {
    if items != [] { InsertAllNodes(Inserted(t, items[0].url, items[0].depth, items[0].parent), items[1..]); }
  }

  /** No statement but a save touches the nodes or the index. */
  lemma OpNodes(t: Tables, op: DbOp)
    requires !op.Save?
    ensures Executed(t, op).nodes == t.nodes && Executed(t, op).fts == t.fts
  {
    if op.InsertAll? { InsertAllNodes(t, op.items); }
  }

  lemma OpIndexed(t: Tables, op: DbOp)
    requires Indexed(t) && (op.Save? ==> op.ftsWorks)
    ensures Indexed(Executed(t, op))
  {
    if op.Save? { SaveKeepsIndex(t, op.page, true); } else { OpNodes(t, op); }
  }

  lemma BodyIndexed(s: Crawl, b: nat, act: BodyAct)
    requires Indexed(s.tables) && b in s.bodies && !act.op.Save?
    ensures Indexed(BodyMoved(s, b, act).tables)
  {
    OpIndexed(s.tables, act.op);
    assert BodyMoved(s, b, act).tables == Executed(s.tables, act.op);
  }

  lemma FetchIndexed(s: Crawl, f: nat, act: FetchAct)
    requires Indexed(s.tables) && f in s.fetches
    ensures FetchMoved(s, f, act).past.indexFault || Indexed(FetchMoved(s, f, act).tables)
  {
    if !act.op.Save? || act.op.ftsWorks { OpIndexed(s.tables, act.op); }
    assert FetchMoved(s, f, act).tables == Executed(s.tables, act.op);
  }

  lemma ElsewhereIndexed(s: Crawl, e: Event)
    requires Indexed(s.tables) && Enabled(s, e) && Elsewhere(e)
    ensures Indexed(Effect(s, e).tables)
  {
    ElsewhereNodes(s, e);
  }

  lemma FaultStays(s: Crawl, e: Event)
    requires Enabled(s, e) && s.past.indexFault
    ensures Effect(s, e).past.indexFault
  {
    if Elsewhere(e) { ElsewherePast(s, e); }
  }

  lemma IndexStep(s: Crawl, e: Event)
    requires (s.past.indexFault || Indexed(s.tables)) && Enabled(s, e)
    ensures Effect(s, e).past.indexFault || Indexed(Effect(s, e).tables)
  {
    if s.past.indexFault {
      FaultStays(s, e);
    } else if e.RunBody? {
      OnlyFetchesSave(s, s.bodies[e.b], e.inB);
      BodyIndexed(s, e.b, BodyActOf(s, s.bodies[e.b], e.inB));
    } else if e.RunFetch? {
      FetchIndexed(s, e.f, FetchActOf(s, s.fetches[e.f], e.inF));
    } else {
      ElsewhereIndexed(s, e);
    }
  }

  /** Starting from a current index, in every interleaving until an index insert inside a save fails:
      each stored node has a row with its current fields in the search index, and each row of the
      index is of a stored node. Rows of earlier versions of a node stay; IndexContents says which. */
  lemma {:induction false} IndexFollowsNodes(s: Crawl, es: seq<Event>)
    requires (s.past.indexFault || Indexed(s.tables)) && Legal(s, es)
    ensures After(s, es).past.indexFault || Indexed(After(s, es).tables)
    decreases |es|
  {
    if es != [] {
      IndexStep(s, es[0]);
      IndexFollowsNodes(Step(s, es[0]), es[1..]);
    }
  }

  /** The row that a statement adds to the index. */
  function RowAdded(op: DbOp): multiset<FtsRow> {
    if op.Save? && op.ftsWorks then multiset{FtsOf(op.page.url, RowOf(op.page))} else multiset{}
  }

  lemma OpAdds(t: Tables, op: DbOp)
    ensures Executed(t, op).fts == t.fts + RowAdded(op)
  {
    if !op.Save? { OpNodes(t, op); }
  }

  /** The rows of all saves of a run whose index insert works. */
  ghost function RowsAdded(s: Crawl, es: seq<Event>): multiset<FtsRow>
    requires Legal(s, es)
    decreases |es|
  {
    if es == [] then multiset{} else RowAdded(OpOf(s, es[0])) + RowsAdded(Step(s, es[0]), es[1..])
  }

  /** The exact contents of the search index, with any failures: what it held at the start of the
      run and one row for each save since whose index insert worked. */
  lemma {:induction false} IndexContents(s: Crawl, es: seq<Event>)
    requires Legal(s, es)
    ensures After(s, es).tables.fts == s.tables.fts + RowsAdded(s, es)
    decreases |es|
  {
    if es != [] {
      var r, row := Step(s, es[0]), RowAdded(OpOf(s, es[0]));
      StepTables(s, es[0]);
      OpAdds(s.tables, OpOf(s, es[0]));
      IndexContents(r, es[1..]);
      assert RowsAdded(s, es) == row + RowsAdded(r, es[1..]);
    }
  }
}
