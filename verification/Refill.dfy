/** What the loop does when the frontier has run out: it injects re-crawls or seeds. */
module Refill {
  import opened Prelude
  import opened Database
  import opened CrawlState
  import opened Scheduler
  import opened Lifecycle
  import opened Items

  /** Body `b` has the answer that there is nothing above the cursor, while no fetch is unfinished and
      the last refresh has counted few rows. */
  predicate RunsOut(s: Crawl, b: nat) {
    b in s.bodies && s.bodies[b].pc == HoldingBatch([]) && s.active == 0 && s.stats.frontierCount < QUEUE_LOW_WATER
  }

  /** It goes on to the re-crawl targets if there are nodes and none have been tried since the flag was
      last reset, and to the seeds otherwise, which resets the flag. */
  lemma Chooses(s: Crawl, b: nat, i: BodyInput)
    requires Enabled(s, RunBody(b, i)) && RunsOut(s, b)
    ensures var r := Step(s, RunBody(b, i));
      && b in r.bodies && r.cursor == 0 && r.wakeups == s.wakeups
      && (if s.stats.nodeCount > 0 && !s.stats.recrawlAttempted
          then r.bodies[b].pc == ReadingTargets && r.stats.recrawlAttempted
          else r.bodies[b].pc == Seeding && !r.stats.recrawlAttempted)
  {
  }

  /** Otherwise an empty batch is waited out: with enough rows counted the body ends and schedules one
      call, and while a fetch is unfinished it has nothing to do. */
  lemma Waits(s: Crawl, b: nat, i: BodyInput)
    requires Enabled(s, RunBody(b, i)) && s.bodies[b].pc == HoldingBatch([]) && !RunsOut(s, b)
    ensures var r := Step(s, RunBody(b, i));
      && r.tables == s.tables && r.cursor == 0 && r.stats == s.stats
      && (if s.active == 0 then b !in r.bodies && r.wakeups == s.wakeups + 1
          else b in r.bodies && r.bodies[b] == Body(AtItem, [], false) && r.wakeups == s.wakeups)
  {
  }

  // ---------------------------------------------------------------- what is offered, and what arrives

  function UrlSet(urls: seq<Url>): set<Url> { set u | u in urls }

  /** The nodes that body `b` is told to re-crawl in the course of the run. */
  ghost function Targets(s: Crawl, es: seq<Event>, b: nat): set<Url>
    requires Legal(s, es)
    decreases |es|
  {
    if es == [] then {}
    else
      (if OwnBody(es[0], b) && s.bodies[b].pc.ReadingTargets? then UrlSet(es[0].inB.targets) else {})
      + Targets(Step(s, es[0]), es[1..], b)
  }

  /** The seeds it is given that are not visited then. */
  ghost function Seeds(s: Crawl, es: seq<Event>, b: nat): set<Url>
    requires Legal(s, es)
    decreases |es|
  {
    if es == [] then {}
    else
      (if OwnBody(es[0], b) && s.bodies[b].pc.Seeding? && es[0].inB.seed.Some?
          && es[0].inB.seed.value !in s.tables.visited then {es[0].inB.seed.value} else {})
      + Seeds(Step(s, es[0]), es[1..], b)
  }

  /** It asks for re-crawl targets. */
  ghost predicate AsksTargets(s: Crawl, es: seq<Event>, b: nat)
    requires Legal(s, es)
    decreases |es|
  {
    es != [] && ((OwnBody(es[0], b) && s.bodies[b].pc.ReadingTargets?) || AsksTargets(Step(s, es[0]), es[1..], b))
  }

  /** It goes through the seeds to their end. */
  ghost predicate SeedsEnd(s: Crawl, es: seq<Event>, b: nat)
    requires Legal(s, es)
    decreases |es|
  {
    es != [] && ((OwnBody(es[0], b) && s.bodies[b].pc.Seeding? && es[0].inB.seed.None?)
                 || SeedsEnd(Step(s, es[0]), es[1..], b))
  }

  /** The URL has just been offered to the frontier: it has a row there, the one it had before or one
      with this depth and no parent. */
  predicate Offered(t: Tables, r: Tables, u: Url, depth: int) {
    && u in r.frontier
    && if u in t.frontier then r.frontier[u] == t.frontier[u]
       else r.frontier[u].depth == depth && r.frontier[u].parent == None
  }

  ghost predicate SometimeOffered(s: Crawl, es: seq<Event>, u: Url, depth: int)
    requires Legal(s, es)
    decreases |es|
  {
    es != [] && (Offered(s.tables, Step(s, es[0]).tables, u, depth)
                 || SometimeOffered(Step(s, es[0]), es[1..], u, depth))
  }

  ghost predicate AllOffered(s: Crawl, es: seq<Event>, us: set<Url>, depth: int)
    requires Legal(s, es)
  {
    forall u | u in us :: SometimeOffered(s, es, u, depth)
  }

  lemma OfferedLater(s: Crawl, es: seq<Event>, us: set<Url>, depth: int)
    requires Legal(s, es) && es != [] && AllOffered(Step(s, es[0]), es[1..], us, depth)
    ensures AllOffered(s, es, us, depth)
  {
  }

  lemma OfferedNow(s: Crawl, es: seq<Event>, u: Url, us: set<Url>, depth: int)
    requires Legal(s, es) && es != [] && Step(s, es[0]).tables == Inserted(s.tables, u, depth, None)
    requires AllOffered(Step(s, es[0]), es[1..], us, depth)
    ensures AllOffered(s, es, us + {u}, depth)
  {
    assert Offered(s.tables, Step(s, es[0]).tables, u, depth);
  }

  // ---------------------------------------------------------------- re-crawls

  lemma {:induction false} Injects(s: Crawl, es: seq<Event>, b: nat, urls: seq<Url>)
    requires Alive(s, b) && s.bodies[b].pc == InjectingTargets(urls)
    requires Legal(s, es) && b !in After(s, es).bodies && RepliesWork(es, b)
    ensures AllOffered(s, es, UrlSet(urls), RECRAWL)
    decreases |es|
  {
    var r := Step(s, es[0]);
    RepliesStep(es, b);
    if !OwnBody(es[0], b) {
      OthersKeepBody(s, es[0], b);
      Injects(r, es[1..], b, urls);
      OfferedLater(s, es, UrlSet(urls), RECRAWL);
    } else if urls != [] {
      OwnBodyStep(s, es[0], b);
      Injects(r, es[1..], b, urls[1..]);
      OfferedNow(s, es, urls[0], UrlSet(urls[1..]), RECRAWL);
      assert UrlSet(urls) == UrlSet(urls[1..]) + {urls[0]};
    }
  }

  predicate PastTargets(pc: Pc) { pc.InjectingTargets? || pc.Seeding? || pc.InsertingSeed? }

  predicate BeforeSeeds(pc: Pc) { pc.ReadingTargets? || pc.InjectingTargets? }

  lemma PastTargetsStays(s: Crawl, body: Body, i: BodyInput)
    requires PastTargets(body.pc)
    ensures var next := BodyActOf(s, body, i).next; next.End? || (next.Stay? && PastTargets(next.body.pc))
  {
  }

  lemma BeforeSeedsStays(s: Crawl, body: Body, i: BodyInput)
    requires BeforeSeeds(body.pc)
    ensures var next := BodyActOf(s, body, i).next; next.End? || (next.Stay? && BeforeSeeds(next.body.pc))
  {
  }

  lemma OtherEvents(s: Crawl, e: Event, b: nat)
    requires Enabled(s, e) && !OwnBody(e, b) && b < s.nextBody
    ensures b < Step(s, e).nextBody && (b in Step(s, e).bodies <==> b in s.bodies)
    ensures b in s.bodies ==> Step(s, e).bodies[b] == s.bodies[b]
  {
    if Elsewhere(e) { ElsewhereBody(s, e, b); }
  }

  /** A body that is past the query for targets, or over, is told no more of them. */
  lemma {:induction false} NoTargets(s: Crawl, es: seq<Event>, b: nat)
    requires b in s.bodies ==> PastTargets(s.bodies[b].pc)
    requires Legal(s, es) && b < s.nextBody
    ensures Targets(s, es, b) == {}
    decreases |es|
  {
    if es != [] {
      if OwnBody(es[0], b) {
        PastTargetsStays(s, s.bodies[b], es[0].inB);
        OwnBodyStep(s, es[0], b);
      } else {
        OtherEvents(s, es[0], b);
      }
      NoTargets(Step(s, es[0]), es[1..], b);
    }
  }

  /** A body that injects re-crawls, or is over, is given no seeds. */
  lemma {:induction false} NoSeeds(s: Crawl, es: seq<Event>, b: nat)
    requires b in s.bodies ==> BeforeSeeds(s.bodies[b].pc)
    requires Legal(s, es) && b < s.nextBody
    ensures Seeds(s, es, b) == {}
    decreases |es|
  {
    if es != [] {
      if OwnBody(es[0], b) {
        BeforeSeedsStays(s, s.bodies[b], es[0].inB);
        OwnBodyStep(s, es[0], b);
      } else {
        OtherEvents(s, es[0], b);
      }
      NoSeeds(Step(s, es[0]), es[1..], b);
    }
  }

  lemma ElsewhereBody(s: Crawl, e: Event, b: nat)
    requires Enabled(s, e) && Elsewhere(e) && b < s.nextBody
    ensures b < Step(s, e).nextBody && (b in Step(s, e).bodies <==> b in s.bodies)
    ensures b in s.bodies ==> Step(s, e).bodies[b] == s.bodies[b]
  {
  }

  /** All re-crawl targets arrive: when the body is over and its statements have worked, each of them
      has been offered to the frontier as a re-crawl. They are distinct nodes, RECRAWL_BATCH of them
      or as many as there are. */
  lemma {:induction false} TargetsArrive(s: Crawl, es: seq<Event>, b: nat)
    requires Alive(s, b) && s.bodies[b].pc == ReadingTargets
    requires Legal(s, es) && b !in After(s, es).bodies && RepliesWork(es, b)
    ensures AsksTargets(s, es, b) && AllOffered(s, es, Targets(s, es, b), RECRAWL)
    decreases |es|
  {
    var r := Step(s, es[0]);
    RepliesStep(es, b);
    if !OwnBody(es[0], b) {
      OthersKeepBody(s, es[0], b);
      TargetsArrive(r, es[1..], b);
      assert Targets(s, es, b) == Targets(r, es[1..], b);
      OfferedLater(s, es, Targets(s, es, b), RECRAWL);
    } else {
      OwnBodyStep(s, es[0], b);
      Injects(r, es[1..], b, es[0].inB.targets);
      NoTargets(r, es[1..], b);
      OfferedLater(s, es, UrlSet(es[0].inB.targets), RECRAWL);
    }
  }

  // ---------------------------------------------------------------- seeds

  /** All seeds arrive: when the body is over and its statements have worked, it has gone through them
      to the end, and each that was not visited has been offered to the frontier at depth 0. */
  lemma {:induction false} SeedsArrive(s: Crawl, es: seq<Event>, b: nat)
    requires Alive(s, b) && (s.bodies[b].pc.Seeding? || s.bodies[b].pc.InsertingSeed?)
    requires Legal(s, es) && b !in After(s, es).bodies && RepliesWork(es, b)
    ensures SeedsEnd(s, es, b) && AllOffered(s, es, Seeds(s, es, b), 0)
    ensures s.bodies[b].pc.InsertingSeed? ==> SometimeOffered(s, es, s.bodies[b].pc.url, 0)
    decreases |es|
  {
    var r := Step(s, es[0]);
    RepliesStep(es, b);
    if !OwnBody(es[0], b) {
      OthersKeepBody(s, es[0], b);
      SeedsArrive(r, es[1..], b);
      OfferedLater(s, es, Seeds(r, es[1..], b), 0);
    } else {
      OwnBodyStep(s, es[0], b);
      if s.bodies[b].pc.InsertingSeed? {
        SeedsArrive(r, es[1..], b);
        OfferedNow(s, es, s.bodies[b].pc.url, Seeds(r, es[1..], b), 0);
      } else if es[0].inB.seed.Some? {
        SeedsArrive(r, es[1..], b);
        OfferedLater(s, es, Seeds(r, es[1..], b), 0);
      } else {
        NoSeeds(r, es[1..], b);
      }
    }
  }

  // ---------------------------------------------------------------- the refill

  /** All that is offered in the course of the run has been offered to the frontier. */
  ghost predicate Arrived(s: Crawl, es: seq<Event>, b: nat)
    requires Legal(s, es)
  {
    AllOffered(s, es, Targets(s, es, b), RECRAWL) && AllOffered(s, es, Seeds(s, es, b), 0)
  }

  lemma ArrivedLater(s: Crawl, es: seq<Event>, b: nat)
    requires Legal(s, es) && es != [] && OwnBody(es[0], b) && s.bodies[b].pc.HoldingBatch?
    requires Arrived(Step(s, es[0]), es[1..], b)
    ensures Arrived(s, es, b)
  {
    SameOffers(s, es, b);
    OfferedLater(s, es, Targets(s, es, b), RECRAWL);
    OfferedLater(s, es, Seeds(s, es, b), 0);
  }

  lemma SameOffers(s: Crawl, es: seq<Event>, b: nat)
    requires Legal(s, es) && es != [] && OwnBody(es[0], b) && s.bodies[b].pc.HoldingBatch?
    ensures Targets(s, es, b) == Targets(Step(s, es[0]), es[1..], b)
    ensures Seeds(s, es, b) == Seeds(Step(s, es[0]), es[1..], b)
  {
  }

  lemma RefillsTargets(s: Crawl, es: seq<Event>, b: nat)
    requires Alive(s, b) && s.bodies[b].pc == ReadingTargets
    requires Legal(s, es) && b !in After(s, es).bodies && RepliesWork(es, b)
    ensures AsksTargets(s, es, b) && Arrived(s, es, b)
  {
    TargetsArrive(s, es, b);
    NoSeeds(s, es, b);
  }

  lemma RefillsSeeds(s: Crawl, es: seq<Event>, b: nat)
    requires Alive(s, b) && s.bodies[b].pc == Seeding
    requires Legal(s, es) && b !in After(s, es).bodies && RepliesWork(es, b)
    ensures SeedsEnd(s, es, b) && Arrived(s, es, b)
  {
    SeedsArrive(s, es, b);
    NoTargets(s, es, b);
  }

  /** A frontier that has run out is refilled: from the moment a body finds it so to the body's end, with
      its statements working, it has asked for re-crawl targets if there are nodes and they have not been
      tried, and has gone through the seeds otherwise; and all targets, and all seeds that were not
      visited, have been offered to the frontier. */
  lemma Refills(s: Crawl, es: seq<Event>, b: nat)
    requires Alive(s, b) && RunsOut(s, b)
    requires Legal(s, es) && b !in After(s, es).bodies && RepliesWork(es, b)
    requires es != [] && OwnBody(es[0], b)
    ensures if s.stats.nodeCount > 0 && !s.stats.recrawlAttempted then AsksTargets(s, es, b) else SeedsEnd(s, es, b)
    ensures Arrived(s, es, b)
  {
    RepliesStep(es, b);
    Chooses(s, b, es[0].inB);
    assert Alive(Step(s, es[0]), b);
    if s.stats.nodeCount > 0 && !s.stats.recrawlAttempted {
      RefillsTargets(Step(s, es[0]), es[1..], b);
    } else {
      RefillsSeeds(Step(s, es[0]), es[1..], b);
    }
    ArrivedLater(s, es, b);
  }

  // ---------------------------------------------------------------- re-crawls and seeds take turns

  /** Nothing of the run touches the flag: no other body runs out, and the timer does not reset it. */
  ghost predicate FlagUntouched(s: Crawl, es: seq<Event>)
    requires Legal(s, es)
    decreases |es|
  {
    es == [] || (!es[0].RecrawlReset? && !(es[0].RunBody? && RunsOut(s, es[0].b))
                 && FlagUntouched(Step(s, es[0]), es[1..]))
  }

  lemma FlagStep(s: Crawl, e: Event)
    requires Enabled(s, e) && !e.RecrawlReset? && !(e.RunBody? && RunsOut(s, e.b))
    ensures Step(s, e).stats.recrawlAttempted == s.stats.recrawlAttempted
  {
    if e.RunBody? {
      BodyFlag(s, s.bodies[e.b], e.inB);
      BodyMovedFlag(s, e.b, BodyActOf(s, s.bodies[e.b], e.inB));
    } else if e.RunFetch? {
      FetchMovedFlag(s, e.f, FetchActOf(s, s.fetches[e.f], e.inF));
    } else {
      ElsewhereFlag(s, e);
    }
  }

  lemma ElsewhereFlag(s: Crawl, e: Event)
    requires Enabled(s, e) && Elsewhere(e) && !e.RecrawlReset?
    ensures Effect(s, e).stats.recrawlAttempted == s.stats.recrawlAttempted
  {
    TimerFlag(s, e);
  }

  lemma TimerFlag(s: Crawl, e: Event)
    requires !e.RecrawlReset?
    ensures TimerStats(s, e).recrawlAttempted == s.stats.recrawlAttempted
  {
    if e.RefreshTimer? || e.FullRefreshTimer? {
      RefreshFlag(s.stats, |s.tables.nodes|, |s.tables.frontier|, e.worked);
    }
  }

  lemma RefreshFlag(st: Stats, nodeRows: nat, frontierRows: nat, worked: nat)
    ensures Refreshed(st, nodeRows, frontierRows, worked).recrawlAttempted == st.recrawlAttempted
  {
  }

  lemma BodyMovedFlag(s: Crawl, b: nat, act: BodyAct)
    requires b in s.bodies
    ensures BodyMoved(s, b, act).stats.recrawlAttempted == act.recrawlAttempted
  {
    var st := s.stats.(recrawlAttempted := act.recrawlAttempted);
    if act.next.Dispatch? {
      assert BodyMoved(s, b, act).stats == InflightSet(st, act.next.item.url.domain, act.next.inflight + 1);
    } else {
      assert BodyMoved(s, b, act).stats == st;
    }
  }

  lemma FetchMovedFlag(s: Crawl, f: nat, act: FetchAct)
    requires f in s.fetches
    ensures FetchMoved(s, f, act).stats.recrawlAttempted == s.stats.recrawlAttempted
  {
    var d := s.fetches[f].item.url.domain;
    assert Tallied(s.stats, d, act.tally).recrawlAttempted == s.stats.recrawlAttempted;
  }

  lemma BodyFlag(s: Crawl, body: Body, i: BodyInput)
    requires body.pc == HoldingBatch([]) ==> s.active != 0 || s.stats.frontierCount >= QUEUE_LOW_WATER
    ensures BodyActOf(s, body, i).recrawlAttempted == s.stats.recrawlAttempted
  {
  }

  lemma {:induction false} FlagRun(s: Crawl, es: seq<Event>)
    requires Legal(s, es) && FlagUntouched(s, es)
    ensures After(s, es).stats.recrawlAttempted == s.stats.recrawlAttempted
    decreases |es|
  {
    if es != [] {
      FlagStep(s, es[0]);
      FlagRun(Step(s, es[0]), es[1..]);
    }
  }

  /** Of two times in a row that the frontier has run out with nodes stored, and the flag not reset by
      the timer in between, one goes to the seeds and the other to the re-crawls. */
  lemma TakeTurns(s: Crawl, b: nat, i: BodyInput, es: seq<Event>, c: nat, j: BodyInput)
    requires Enabled(s, RunBody(b, i)) && RunsOut(s, b) && s.stats.nodeCount > 0
    requires var r := Step(s, RunBody(b, i));
      && Legal(r, es) && FlagUntouched(r, es)
      && Enabled(After(r, es), RunBody(c, j)) && RunsOut(After(r, es), c) && After(r, es).stats.nodeCount > 0
    ensures var r := Step(s, RunBody(b, i));
      var t := Step(After(r, es), RunBody(c, j));
      && b in r.bodies && c in t.bodies
      && ((r.bodies[b].pc == Seeding && t.bodies[c].pc == ReadingTargets)
          || (r.bodies[b].pc == ReadingTargets && t.bodies[c].pc == Seeding))
  {
    Chooses(s, b, i);
    FlagRun(Step(s, RunBody(b, i)), es);
    Chooses(After(Step(s, RunBody(b, i)), es), c, j);
  }
}
