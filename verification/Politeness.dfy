/** The per-domain in-flight counters of the crawl loop. */
module Politeness {
  import opened Prelude
  import opened Database
  import opened CrawlState
  import opened Scheduler
  import opened Wakeups

  function OnHost(d: string): Fetch -> bool { (f: Fetch) => f.item.url.domain == d }

  /** The true number of unfinished fetches of a domain. */
  function Unfinished(s: Crawl, d: string): nat { CountIf(s.fetches, OnHost(d)) }

  function Inflight(s: Crawl, d: string): nat { Get(s.stats.domainInflight, d) }

  // ---------------------------------------------------------------- the range of the counters

  ghost predicate InRange(s: Crawl) {
    && (forall d | d in s.stats.domainInflight :: s.stats.domainInflight[d] <= DOMAIN_LIMIT)
    && (forall b | b in s.bodies && s.bodies[b].pc.CheckingRobots? :: s.bodies[b].pc.inflight < DOMAIN_LIMIT)
  }

  /** The steps of a body that read, remember or use an in-flight count. */
  predicate Classifies(pc: Pc) { pc.AtItem? || pc.HoldingVisited? || pc.CheckingRobots? }

  predicate Uses(next: BodyNext) { next.Dispatch? || (next.Stay? && next.body.pc.CheckingRobots?) }

  lemma OnlyClassifiersUse(s: Crawl, body: Body, i: BodyInput)
    ensures Uses(BodyActOf(s, body, i).next) ==> Classifies(body.pc)
  {
  }

  predicate Below(next: BodyNext) {
    match next
    case Stay(body) => body.pc.CheckingRobots? ==> body.pc.inflight < DOMAIN_LIMIT
    case End(_) => true
    case Dispatch(_, inflight, _) => inflight < DOMAIN_LIMIT
  }

  /** A count that is remembered across an await, or dispatched on, was found below the limit. */
  lemma BodyActBelow(s: Crawl, body: Body, i: BodyInput)
    requires Below(Stay(body))
    ensures Below(BodyActOf(s, body, i).next)
  {
    OnlyClassifiersUse(s, body, i);
    if Classifies(body.pc) {
      assert forall item, rest :: Below(Classified(s, body.(rest := rest), item, i.blocked).next);
    }
  }

  lemma TalliedInflight(st: Stats, d: string, tally: Tally)
    ensures Tallied(st, d, tally).domainInflight == st.domainInflight
  {
  }

  lemma BodyMovedInRange(s: Crawl, b: nat, act: BodyAct)
    requires InRange(s) && b in s.bodies && Below(act.next)
    ensures InRange(BodyMoved(s, b, act))
  {
  }

  lemma FetchMovedInRange(s: Crawl, f: nat, act: FetchAct)
    requires InRange(s) && f in s.fetches
    ensures InRange(FetchMoved(s, f, act))
  {
    TalliedInflight(s.stats, s.fetches[f].item.url.domain, act.tally);
  }

  lemma InRangeStep(s: Crawl, e: Event)
    requires InRange(s) && Enabled(s, e)
    ensures InRange(Step(s, e))
  {
    if e.RunBody? {
      BodyActBelow(s, s.bodies[e.b], e.inB);
      BodyMovedInRange(s, e.b, BodyActOf(s, s.bodies[e.b], e.inB));
    } else if e.RunFetch? {
      FetchMovedInRange(s, e.f, FetchActOf(s, s.fetches[e.f], e.inF));
    } else {
      ElsewhereOutcomes(s, e);
      ElsewhereBodies(s, e);
    }
  }

  lemma {:induction false} InRangeRun(s: Crawl, es: seq<Event>)
    requires InRange(s) && Legal(s, es)
    ensures InRange(After(s, es))
    decreases |es|
  {
    if es != [] {
      InRangeStep(s, es[0]);
      InRangeRun(Step(s, es[0]), es[1..]);
    }
  }

  // ---------------------------------------------------------------- when the counters are exact

  ghost predicate Exact(s: Crawl) { forall d :: Inflight(s, d) == Unfinished(s, d) }

  /** Exact per domain, and adding up to `active`. */
  ghost predicate Agrees(s: Crawl) { Shape(s) && Exact(s) && Sum(s.stats.domainInflight) == s.active }

  lemma DispatchUnfinished(s: Crawl, b: nat, act: BodyAct, h: string)
    requires b in s.bodies && act.next.Dispatch? && s.past.dispatched !in s.fetches
    ensures Unfinished(BodyMoved(s, b, act), h) == Unfinished(s, h) + One(h == act.next.item.url.domain)
  {
    CountPut(s.fetches, s.past.dispatched, Fetch(act.next.item, Fetching), OnHost(h));
  }

  lemma FetchUnfinished(s: Crawl, f: nat, act: FetchAct, h: string)
    requires f in s.fetches
    ensures Unfinished(FetchMoved(s, f, act), h)
         == Unfinished(s, h) - One(act.next == Finish && h == s.fetches[f].item.url.domain)
  {
    if act.next.To? {
      CountPut(s.fetches, f, s.fetches[f].(phase := act.next.phase), OnHost(h));
    } else {
      CountDrop(s.fetches, f, OnHost(h));
    }
  }

  /** A dispatch keeps the counters exact if and only if the count it read earlier is still the
      value of the counter. */
  lemma DispatchExact(s: Crawl, b: nat, act: BodyAct)
    requires Shape(s) && Exact(s) && b in s.bodies && act.next.Dispatch?
    ensures var d := act.next.item.url.domain;
      Exact(BodyMoved(s, b, act)) <==> Inflight(s, d) == act.next.inflight
  {
    var r, d := BodyMoved(s, b, act), act.next.item.url.domain;
    assert s.past.dispatched !in s.fetches;
    forall h ensures Unfinished(r, h) == Unfinished(s, h) + One(h == d) { DispatchUnfinished(s, b, act, h); }
    assert Inflight(r, d) == act.next.inflight + 1;
    assert forall h | h != d :: Inflight(r, h) == Inflight(s, h);
    if Exact(r) {
      assert Unfinished(r, d) == Inflight(r, d);
    }
  }

  lemma DispatchSum(s: Crawl, b: nat, act: BodyAct)
    requires b in s.bodies && act.next.Dispatch?
    requires Inflight(s, act.next.item.url.domain) == act.next.inflight
    requires Sum(s.stats.domainInflight) == s.active
    ensures Sum(BodyMoved(s, b, act).stats.domainInflight) == BodyMoved(s, b, act).active
  {
    SumPut(s.stats.domainInflight, act.next.item.url.domain, act.next.inflight + 1);
  }

  lemma FetchMovedAgrees(s: Crawl, f: nat, act: FetchAct)
    requires Agrees(s) && f in s.fetches
    ensures Agrees(FetchMoved(s, f, act))
  {
    var r, d := FetchMoved(s, f, act), s.fetches[f].item.url.domain;
    FetchMovedShape(s, f, act);
    TalliedInflight(s.stats, d, act.tally);
    forall h ensures Unfinished(r, h) == Unfinished(s, h) - One(act.next == Finish && h == d) {
      FetchUnfinished(s, f, act, h);
    }
    if act.next == Finish {
      CountPositive(s.fetches, f, OnHost(d));
      assert Inflight(s, d) == Unfinished(s, d);
      assert Inflight(r, d) == Inflight(s, d) - 1;
      assert forall h | h != d :: Inflight(r, h) == Inflight(s, h);
      SumPut(s.stats.domainInflight, d, Inflight(s, d) - 1);
    }
  }

  lemma SameExact(s: Crawl, r: Crawl)
    requires r.fetches == s.fetches && r.stats.domainInflight == s.stats.domainInflight
    ensures Exact(r) <==> Exact(s)
  {
    assert forall d :: Inflight(r, d) == Inflight(s, d) && Unfinished(r, d) == Unfinished(s, d);
  }

  /** From exact counters: they stay exact if and only if the step is not a dispatch that raced. */
  ghost predicate ExactUnlessRaced(r: Crawl) {
    && (Exact(r) <==> !r.past.raced)
    && (Exact(r) ==> Sum(r.stats.domainInflight) == r.active)
  }

  lemma DispatchRaces(s: Crawl, b: nat, act: BodyAct)
    requires Agrees(s) && !s.past.raced && b in s.bodies && act.next.Dispatch?
    ensures ExactUnlessRaced(BodyMoved(s, b, act))
  {
    var fits := Inflight(s, act.next.item.url.domain) == act.next.inflight;
    DispatchExact(s, b, act);
    assert BodyMoved(s, b, act).past.raced == !fits;
    if fits { DispatchSum(s, b, act); }
  }

  lemma OtherBodyExact(s: Crawl, b: nat, act: BodyAct)
    requires Agrees(s) && !s.past.raced && b in s.bodies && !act.next.Dispatch?
    ensures ExactUnlessRaced(BodyMoved(s, b, act))
  {
    var r := BodyMoved(s, b, act);
    assert r.active == s.active && !r.past.raced;
    SameExact(s, r);
  }

  lemma ElsewhereExact(s: Crawl, e: Event)
    requires Agrees(s) && !s.past.raced && Enabled(s, e) && Elsewhere(e)
    ensures ExactUnlessRaced(Effect(s, e))
  {
    ElsewhereOutcomes(s, e);
    ElsewhereFetches(s, e);
    ElsewherePast(s, e);
    SameExact(s, Effect(s, e));
  }

  lemma AgreesStep(s: Crawl, e: Event)
    requires Agrees(s) && !s.past.raced && Enabled(s, e)
    ensures ExactUnlessRaced(Step(s, e)) && Shape(Step(s, e))
  {
    ShapeStep(s, e);
    if e.RunBody? {
      var act := BodyActOf(s, s.bodies[e.b], e.inB);
      if act.next.Dispatch? { DispatchRaces(s, e.b, act); } else { OtherBodyExact(s, e.b, act); }
    } else if e.RunFetch? {
      FetchMovedAgrees(s, e.f, FetchActOf(s, s.fetches[e.f], e.inF));
    } else {
      ElsewhereExact(s, e);
    }
    SameExact(Effect(s, e), Step(s, e));
  }

  ghost predicate AlwaysExact(s: Crawl, es: seq<Event>)
    requires Legal(s, es)
    decreases |es|
  {
    Exact(s) && (es == [] || AlwaysExact(Step(s, es[0]), es[1..]))
  }

  lemma {:induction false} RacedStays(s: Crawl, es: seq<Event>)
    requires Legal(s, es) && s.past.raced
    ensures After(s, es).past.raced
    decreases |es|
  {
    if es != [] {
      if Elsewhere(es[0]) { ElsewherePast(s, es[0]); }
      RacedStays(Step(s, es[0]), es[1..]);
    }
  }

  lemma {:induction false} ExactRun(s: Crawl, es: seq<Event>)
    requires Agrees(s) && !s.past.raced && Legal(s, es)
    ensures AlwaysExact(s, es) <==> !After(s, es).past.raced
    ensures AlwaysExact(s, es) ==> Agrees(After(s, es))
    decreases |es|
  {
    if es != [] {
      AgreesStep(s, es[0]);
      if Step(s, es[0]).past.raced {
        RacedStays(Step(s, es[0]), es[1..]);
      } else {
        ExactRun(Step(s, es[0]), es[1..]);
      }
    }
  }

  /** Every in-flight count stays in 0..DOMAIN_LIMIT in every interleaving. */
  lemma InflightInRange(s: Crawl, es: seq<Event>, d: string)
    requires Initial(s) && Legal(s, es)
    ensures 0 <= Inflight(After(s, es), d) <= DOMAIN_LIMIT
  {
    InRangeRun(s, es);
  }

  lemma InitiallyExact(s: Crawl)
    requires Initial(s)
    ensures Agrees(s)
  {
    forall d ensures Inflight(s, d) == Unfinished(s, d) {
      CountNone(s.fetches, OnHost(d));
    }
  }

  /** All along a run the counts are the true numbers of unfinished fetches per domain, if and
      only if every dispatch of the run writes back the counter's value at that moment plus one,
      rather than an older value plus one; they then add up to `active`. */
  lemma InflightExact(s: Crawl, es: seq<Event>)
    requires Initial(s) && Legal(s, es)
    ensures AlwaysExact(s, es) <==> !After(s, es).past.raced
    ensures AlwaysExact(s, es) ==> Sum(After(s, es).stats.domainInflight) == After(s, es).active
  {
    InitiallyExact(s);
    ExactRun(s, es);
  }

  // ---------------------------------------------------------------- politeness, and no starvation

  /** Without a race no domain ever has more than DOMAIN_LIMIT unfinished fetches. With one it can:
      Overshoot.ConcurrencyExceeded. */
  lemma PoliteUnlessRaced(s: Crawl, es: seq<Event>, d: string)
    requires Initial(s) && Legal(s, es) && !After(s, es).past.raced
    ensures Unfinished(After(s, es), d) <= DOMAIN_LIMIT
  {
    InflightInRange(s, es, d);
    InitiallyExact(s);
    ExactRun(s, es);
  }

  /** A body that waited for robots.txt writes back a count that is below the counter by now. */
  ghost predicate Lowers(s: Crawl, e: Event, d: string)
    requires Enabled(s, e)
  {
    e.RunBody? && s.bodies[e.b].pc.CheckingRobots? && s.bodies[e.b].pc.item.url.domain == d
    && s.bodies[e.b].pc.inflight < Inflight(s, d) && BodyActOf(s, s.bodies[e.b], e.inB).next.Dispatch?
  }

  /** How often that happens to a domain in a run. */
  ghost function Lowered(s: Crawl, es: seq<Event>, d: string): nat
    requires Legal(s, es)
    decreases |es|
  {
    if es == [] then 0 else One(Lowers(s, es[0], d)) + Lowered(Step(s, es[0]), es[1..], d)
  }

  /** How far the count of a domain has fallen behind. */
  function Drift(s: Crawl, d: string): int { Unfinished(s, d) - Inflight(s, d) }

  lemma DispatchDrift(s: Crawl, b: nat, act: BodyAct, d: string)
    requires b in s.bodies && act.next.Dispatch? && s.past.dispatched !in s.fetches
    ensures Drift(BodyMoved(s, b, act), d)
         == Drift(s, d) + if d == act.next.item.url.domain then Inflight(s, d) - act.next.inflight else 0
  {
    DispatchUnfinished(s, b, act, d);
  }

  lemma FetchDrift(s: Crawl, f: nat, act: FetchAct, d: string)
    requires f in s.fetches
    ensures Drift(FetchMoved(s, f, act), d) <= Drift(s, d)
  {
    TalliedInflight(s.stats, s.fetches[f].item.url.domain, act.tally);
    FetchUnfinished(s, f, act, d);
  }

  lemma SameDrift(s: Crawl, r: Crawl, d: string)
    requires r.fetches == s.fetches && r.stats.domainInflight == s.stats.domainInflight
    ensures Drift(r, d) == Drift(s, d)
  {
  }

  /** Only such a write makes the drift grow, and by at most the limit. */
  lemma DriftStep(s: Crawl, e: Event, d: string)
    requires Shape(s) && InRange(s) && Enabled(s, e)
    ensures Drift(Step(s, e), d) <= Drift(s, d) + DOMAIN_LIMIT * One(Lowers(s, e, d))
  {
    SameDrift(Effect(s, e), Step(s, e), d);
    if e.RunBody? {
      var act := BodyActOf(s, s.bodies[e.b], e.inB);
      if act.next.Dispatch? {
        DispatchGuards(s, s.bodies[e.b], e.inB);
        DispatchDrift(s, e.b, act, d);
      } else {
        SameDrift(s, BodyMoved(s, e.b, act), d);
      }
    } else if e.RunFetch? {
      FetchDrift(s, e.f, FetchActOf(s, s.fetches[e.f], e.inF), d);
    } else {
      ElsewhereOutcomes(s, e);
      ElsewhereFetches(s, e);
      SameDrift(s, Effect(s, e), d);
    }
  }

  lemma {:induction false} DriftRun(s: Crawl, es: seq<Event>, d: string)
    requires Shape(s) && InRange(s) && Legal(s, es)
    ensures Drift(After(s, es), d) <= Drift(s, d) + DOMAIN_LIMIT * Lowered(s, es, d)
    decreases |es|
  {
    if es != [] {
      DriftStep(s, es[0], d);
      ShapeStep(s, es[0]);
      InRangeStep(s, es[0]);
      DriftRun(Step(s, es[0]), es[1..], d);
    }
  }

  /** How impolite a run can be: a domain never has more unfinished fetches than DOMAIN_LIMIT, and
      DOMAIN_LIMIT more for each dispatch that wrote back a count below the counter. */
  lemma PolitenessBound(s: Crawl, es: seq<Event>, d: string)
    requires Initial(s) && Legal(s, es)
    ensures Unfinished(After(s, es), d) <= DOMAIN_LIMIT * (1 + Lowered(s, es, d))
  {
    InitiallyExact(s);
    DriftRun(s, es, d);
    InflightInRange(s, es, d);
  }

  /** The count of a domain never exceeds the true number by as much as the limit. */
  ghost predicate Fair(s: Crawl) { forall d :: Inflight(s, d) <= Unfinished(s, d) + DOMAIN_LIMIT - 1 }

  lemma BodyMovedFair(s: Crawl, b: nat, act: BodyAct)
    requires Fair(s) && b in s.bodies && Below(act.next) && s.past.dispatched !in s.fetches
    ensures Fair(BodyMoved(s, b, act))
  {
    var r := BodyMoved(s, b, act);
    forall h ensures Inflight(r, h) <= Unfinished(r, h) + DOMAIN_LIMIT - 1 {
      assert Inflight(s, h) <= Unfinished(s, h) + DOMAIN_LIMIT - 1;
      if act.next.Dispatch? { DispatchUnfinished(s, b, act, h); }
    }
  }

  lemma FetchMovedFair(s: Crawl, f: nat, act: FetchAct)
    requires Fair(s) && f in s.fetches
    ensures Fair(FetchMoved(s, f, act))
  {
    var r, d := FetchMoved(s, f, act), s.fetches[f].item.url.domain;
    TalliedInflight(s.stats, d, act.tally);
    forall h ensures Inflight(r, h) <= Unfinished(r, h) + DOMAIN_LIMIT - 1 {
      assert Inflight(s, h) <= Unfinished(s, h) + DOMAIN_LIMIT - 1;
      FetchUnfinished(s, f, act, h);
    }
  }

  lemma SameFair(s: Crawl, r: Crawl)
    requires Fair(s) && r.fetches == s.fetches && r.stats.domainInflight == s.stats.domainInflight
    ensures Fair(r)
  {
    assert forall d :: Inflight(s, d) <= Unfinished(s, d) + DOMAIN_LIMIT - 1
                       ==> Inflight(r, d) <= Unfinished(r, d) + DOMAIN_LIMIT - 1;
  }

  lemma FairStep(s: Crawl, e: Event)
    requires Fair(s) && Shape(s) && InRange(s) && Enabled(s, e)
    ensures Fair(Step(s, e))
  {
    if e.RunBody? {
      BodyActBelow(s, s.bodies[e.b], e.inB);
      BodyMovedFair(s, e.b, BodyActOf(s, s.bodies[e.b], e.inB));
      SameFair(Effect(s, e), Step(s, e));
    } else if e.RunFetch? {
      FetchMovedFair(s, e.f, FetchActOf(s, s.fetches[e.f], e.inF));
      SameFair(Effect(s, e), Step(s, e));
    } else {
      ElsewhereOutcomes(s, e);
      ElsewhereFetches(s, e);
      SameFair(s, Step(s, e));
    }
  }

  lemma {:induction false} FairRun(s: Crawl, es: seq<Event>)
    requires Fair(s) && Shape(s) && InRange(s) && Legal(s, es)
    ensures Fair(After(s, es))
    decreases |es|
  {
    if es != [] {
      FairStep(s, es[0]);
      ShapeStep(s, es[0]);
      InRangeStep(s, es[0]);
      FairRun(Step(s, es[0]), es[1..]);
    }
  }

  /** No domain is starved, however the counts have drifted: in every interleaving the count of a
      domain stays less than DOMAIN_LIMIT above the true number of its unfinished fetches, so a domain
      without any is below the limit. */
  lemma NeverStarves(s: Crawl, es: seq<Event>, d: string)
    requires Initial(s) && Legal(s, es)
    ensures Inflight(After(s, es), d) <= Unfinished(After(s, es), d) + DOMAIN_LIMIT - 1
    ensures Unfinished(After(s, es), d) == 0 ==> Inflight(After(s, es), d) < DOMAIN_LIMIT
  {
    FairRun(s, es);
  }

  // ---------------------------------------------------------------- what a fetched item has passed

  /** The guards from line 231 to line 238 hold of the item, and `inflight` is the count they read. */
  predicate Passed(s: Crawl, item: Item, inflight: nat) {
    var d := item.url.domain;
    d != "" && d !in s.stats.domainBlacklist && inflight == Inflight(s, d) < DOMAIN_LIMIT
  }

  lemma ClassifiedGuards(s: Crawl, body: Body, item: Item, blocked: bool)
    ensures var next := Classified(s, body, item, blocked).next;
      && (next.Dispatch? ==> next.item == item && Passed(s, item, next.inflight) && (item.depth == RECRAWL || !blocked))
      && (next.Stay? && next.body.pc.CheckingRobots? ==>
            next.body.pc.item == item && item.depth != RECRAWL && Passed(s, item, next.body.pc.inflight))
  {
  }

  /** The step in which a body reads the count of an item's domain: it comes from the visited check,
      or the item is a re-crawl, and all guards hold then. A body that waited for robots.txt goes on
      with the item and the count it remembers, unless robots.txt blocks the item. */
  lemma DispatchGuards(s: Crawl, body: Body, i: BodyInput)
    ensures var next := BodyActOf(s, body, i).next;
      && (next.Dispatch? && body.pc.CheckingRobots? ==>
            !i.blocked && next.item == body.pc.item && next.inflight == body.pc.inflight)
      && (next.Dispatch? && !body.pc.CheckingRobots? ==>
            && Passed(s, next.item, next.inflight) && (next.item.depth == RECRAWL || !i.blocked)
            && (body.pc == AtItem ==> next.item.depth == RECRAWL)
            && (body.pc.HoldingVisited? ==> next.item == body.pc.item && !body.pc.visited))
      && (next.Stay? && next.body.pc.CheckingRobots? ==>
            && body.pc.HoldingVisited? && !body.pc.visited && next.body.pc.item == body.pc.item
            && Passed(s, next.body.pc.item, next.body.pc.inflight))
  {
    OnlyClassifiersUse(s, body, i);
    if body.pc.AtItem? && body.rest != [] {
      ClassifiedGuards(s, body.(rest := body.rest[1..]), body.rest[0], i.blocked);
    } else if body.pc.HoldingVisited? {
      ClassifiedGuards(s, body, body.pc.item, i.blocked);
    }
  }

  lemma {:induction false} RunSnoc(s: Crawl, es: seq<Event>)
    requires Legal(s, es) && es != []
    ensures var front, last := es[..|es| - 1], es[|es| - 1];
      Legal(s, front) && Enabled(After(s, front), last) && After(s, es) == Step(After(s, front), last)
    decreases |es|
  {
    var front := es[..|es| - 1];
    if |es| > 1 {
      RunSnoc(Step(s, es[0]), es[1..]);
      assert es[1..][..|es| - 2] == front[1..];
    }
  }

  /** At some moment of the run all guards held of the item. */
  ghost predicate PassedDuring(s: Crawl, es: seq<Event>, item: Item, inflight: nat) {
    exists k :: 0 <= k <= |es| && Legal(s, es[..k]) && Passed(After(s, es[..k]), item, inflight)
  }

  lemma PassedNow(s: Crawl, es: seq<Event>, item: Item, inflight: nat)
    requires Legal(s, es) && Passed(After(s, es), item, inflight)
    ensures PassedDuring(s, es, item, inflight)
  {
    assert es[..|es|] == es;
  }

  lemma PassedBefore(s: Crawl, es: seq<Event>, item: Item, inflight: nat)
    requires es != [] && PassedDuring(s, es[..|es| - 1], item, inflight)
    ensures PassedDuring(s, es, item, inflight)
  {
    var front := es[..|es| - 1];
    var k :| 0 <= k <= |front| && Legal(s, front[..k]) && Passed(After(s, front[..k]), item, inflight);
    assert front[..k] == es[..k];
  }

  /** How a body comes to wait for robots.txt. */
  lemma ComesToWait(s: Crawl, e: Event, b: nat)
    requires Enabled(s, e) && b in Step(s, e).bodies && Step(s, e).bodies[b].pc.CheckingRobots?
    ensures var pc := Step(s, e).bodies[b].pc;
      (b in s.bodies && s.bodies[b].pc == pc) || Passed(s, pc.item, pc.inflight)
  {
    if e.RunBody? && e.b == b {
      DispatchGuards(s, s.bodies[b], e.inB);
    } else if Elsewhere(e) {
      ElsewhereBodies(s, e);
    }
  }

  lemma {:induction false} WaitingItemsPassed(s: Crawl, es: seq<Event>, b: nat)
    requires s.bodies == map[] && Legal(s, es)
    requires b in After(s, es).bodies && After(s, es).bodies[b].pc.CheckingRobots?
    ensures var pc := After(s, es).bodies[b].pc; PassedDuring(s, es, pc.item, pc.inflight)
  {
    if es != [] {
      var front, last := es[..|es| - 1], es[|es| - 1];
      var pc := After(s, es).bodies[b].pc;
      RunSnoc(s, es);
      ComesToWait(After(s, front), last, b);
      if Passed(After(s, front), pc.item, pc.inflight) {
        PassedNow(s, front, pc.item, pc.inflight);
      } else {
        WaitingItemsPassed(s, front, b);
      }
      PassedBefore(s, es, pc.item, pc.inflight);
    }
  }

  /** Every item a run ever fetches has passed all the guards together at one moment of the run: its
      domain was known, not blacklisted, and below the in-flight limit by the very count that the
      dispatch writes back plus one. For an item that waits for robots.txt that moment is before the
      wait, and none of it is looked at again. */
  lemma FetchedItemsPassed(s: Crawl, es: seq<Event>, b: nat, i: BodyInput)
    requires Initial(s) && Legal(s, es) && b in After(s, es).bodies
    ensures var r := After(s, es);
      var next := BodyActOf(r, r.bodies[b], i).next;
      next.Dispatch? ==> PassedDuring(s, es, next.item, next.inflight)
  {
    var r := After(s, es);
    var next := BodyActOf(r, r.bodies[b], i).next;
    DispatchGuards(r, r.bodies[b], i);
    if next.Dispatch? {
      if r.bodies[b].pc.CheckingRobots? {
        WaitingItemsPassed(s, es, b);
      } else {
        PassedNow(s, es, next.item, next.inflight);
      }
    }
  }

  // ---------------------------------------------------------------- when a dispatch races

  /** Only a dispatch that waited for robots.txt can race: a re-crawl, or an item whose origin was
      checked before, is dispatched in the step that reads the count. */
  lemma OnlyRobotsWaitRaces(s: Crawl, e: Event)
    requires Enabled(s, e) && !s.past.raced && Step(s, e).past.raced
    ensures e.RunBody? && s.bodies[e.b].pc.CheckingRobots?
    ensures s.bodies[e.b].pc.inflight != Inflight(s, s.bodies[e.b].pc.item.url.domain)
  {
    if e.RunBody? {
      DispatchGuards(s, s.bodies[e.b], e.inB);
    } else if Elsewhere(e) {
      ElsewherePast(s, e);
    }
  }

  /** A fetch of the domain starts or finishes. */
  ghost predicate Touches(s: Crawl, e: Event, d: string)
    requires Enabled(s, e)
  {
    match e
    case RunBody(b, i) =>
      var next := BodyActOf(s, s.bodies[b], i).next;
      next.Dispatch? && next.item.url.domain == d
    case RunFetch(f, _) => s.fetches[f].phase == Settled && s.fetches[f].item.url.domain == d
    case _ => false
  }

  ghost predicate Untouched(s: Crawl, es: seq<Event>, d: string)
    requires Legal(s, es)
    decreases |es|
  {
    es == [] || (!Touches(s, es[0], d) && Untouched(Step(s, es[0]), es[1..], d))
  }

  lemma UntouchedStep(s: Crawl, e: Event, d: string)
    requires Enabled(s, e) && !Touches(s, e, d)
    ensures Inflight(Step(s, e), d) == Inflight(s, d)
  {
    if e.RunFetch? {
      TalliedInflight(s.stats, s.fetches[e.f].item.url.domain, FetchActOf(s, s.fetches[e.f], e.inF).tally);
    } else if Elsewhere(e) {
      ElsewhereOutcomes(s, e);
    }
  }

  lemma {:induction false} UntouchedRun(s: Crawl, es: seq<Event>, d: string)
    requires Legal(s, es) && Untouched(s, es, d)
    ensures Inflight(After(s, es), d) == Inflight(s, d)
    decreases |es|
  {
    if es != [] {
      UntouchedStep(s, es[0], d);
      UntouchedRun(Step(s, es[0]), es[1..], d);
    }
  }

  /** If no fetch of its domain starts or finishes while a body waits for robots.txt, its dispatch
      does not race: `r` is where the body has just begun to wait, and `es` is what happens then. */
  lemma UntouchedWaitIsExact(s: Crawl, b: nat, asks: BodyInput, es: seq<Event>, goes: BodyInput)
    requires Enabled(s, RunBody(b, asks)) && !s.bodies[b].pc.CheckingRobots?
    requires var r := Step(s, RunBody(b, asks));
      && b in r.bodies && r.bodies[b].pc.CheckingRobots? && Legal(r, es)
      && Untouched(r, es, r.bodies[b].pc.item.url.domain)
      && Enabled(After(r, es), RunBody(b, goes)) && After(r, es).bodies[b] == r.bodies[b]
    ensures var t := After(Step(s, RunBody(b, asks)), es);
      Step(t, RunBody(b, goes)).past.raced == t.past.raced
  {
    var r := Step(s, RunBody(b, asks));
    var t, d := After(r, es), r.bodies[b].pc.item.url.domain;
    DispatchGuards(s, s.bodies[b], asks);
    assert !Touches(s, RunBody(b, asks), d);
    UntouchedStep(s, RunBody(b, asks), d);
    UntouchedRun(r, es, d);
    if !t.past.raced && Step(t, RunBody(b, goes)).past.raced { OnlyRobotsWaitRaces(t, RunBody(b, goes)); }
  }
}
