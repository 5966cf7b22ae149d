/** How far the number of unfinished fetches can exceed CONCURRENCY: the check and the increment
    have awaits between them. */
module Concurrency {
  import opened Prelude
  import opened Database
  import opened CrawlState
  import opened Scheduler
  import opened Wakeups

  /** The bodies that have passed the concurrency check and may still dispatch. */
  function Between(s: Crawl): nat { CountIf(s.bodies, InWindow()) }

  ghost predicate Bounded(s: Crawl) {
    && Shape(s)
    && Between(s) <= s.past.window
    && s.active + Between(s) <= CONCURRENCY - 1 + s.past.window
  }

  /** A body enters the window, or dispatches from outside it, only below the limit. */
  ghost predicate GuardedAct(s: Crawl, body: Body, act: BodyAct) {
    && act.window >= s.past.window
    && (InWindow()(body) || (act.next.Stay? && !InWindow()(act.next.body)) || act.next.End?
        || (s.active < CONCURRENCY && act.window > Between(s)))
  }

  lemma ClassifiedGuarded(s: Crawl, body: Body, item: Item, blocked: bool)
    ensures var act := Classified(s, body, item, blocked);
      act.window == s.past.window
      && (item.depth == RECRAWL ==> act.next.Dispatch? || (act.next.Stay? && !InWindow()(act.next.body)))
  {
  }

  lemma BodyActGuarded(s: Crawl, body: Body, i: BodyInput)
    ensures GuardedAct(s, body, BodyActOf(s, body, i))
  {
    match body.pc
    case AtItem =>
      if body.rest != [] {
        ClassifiedGuarded(s, body.(rest := body.rest[1..]), body.rest[0], i.blocked);
      }
    case HoldingVisited(item, _) => ClassifiedGuarded(s, body, item, i.blocked);
    case _ =>
  }

  lemma BodyMovedBounded(s: Crawl, b: nat, act: BodyAct)
    requires Bounded(s) && b in s.bodies && GuardedAct(s, s.bodies[b], act)
    ensures Bounded(BodyMoved(s, b, act))
  {
    BodyMovedShape(s, b, act);
    match act.next
    case Stay(body) => CountPut(s.bodies, b, body, InWindow());
    case End(_) => CountDrop(s.bodies, b, InWindow());
    case Dispatch(_, _, rest) => CountPut(s.bodies, b, Body(AtItem, rest, true), InWindow());
  }

  /** No event but a step of a body moves a body into the window or starts a fetch. */
  lemma OthersBounded(s: Crawl, e: Event)
    requires Bounded(s) && Enabled(s, e) && !e.RunBody?
    ensures Between(Step(s, e)) <= Between(s)
    ensures Step(s, e).active <= s.active && Step(s, e).past.window == s.past.window
  {
    if e.Wake? {
      CountPut(s.bodies, s.nextBody, Body(Yielding, [], false), InWindow());
    } else {
      assert Step(s, e).bodies == s.bodies;
    }
  }

  lemma BoundedStep(s: Crawl, e: Event)
    requires Bounded(s) && Enabled(s, e)
    ensures Bounded(Step(s, e))
  {
    if e.RunBody? {
      BodyActGuarded(s, s.bodies[e.b], e.inB);
      BodyMovedBounded(s, e.b, BodyActOf(s, s.bodies[e.b], e.inB));
    } else {
      ShapeStep(s, e);
      OthersBounded(s, e);
    }
  }

  lemma {:induction false} BoundedRun(s: Crawl, es: seq<Event>)
    requires Bounded(s) && Legal(s, es)
    ensures Bounded(After(s, es))
    decreases |es|
  {
    if es != [] {
      BoundedStep(s, es[0]);
      BoundedRun(Step(s, es[0]), es[1..]);
    }
  }

  /** In every interleaving, `active` is the number of unfinished fetches and is at most
      CONCURRENCY - 1 + M, where M is the most bodies that were ever between the check and the
      increment at once; while M is at most 1, it is at most CONCURRENCY. */
  lemma ConcurrencyBound(s: Crawl, es: seq<Event>)
    requires Initial(s) && Legal(s, es)
    ensures var r := After(s, es);
      && r.active == |r.fetches|
      && r.active + Between(r) <= CONCURRENCY - 1 + r.past.window
      && (r.past.window <= 1 ==> r.active <= CONCURRENCY)
  {
    CountNone(s.bodies, InWindow());
    BoundedRun(s, es);
  }

  // ---------------------------------------------------------------- when the limit holds

  /** A body that passed the concurrency check dispatches when the check would fail. */
  ghost predicate Late(s: Crawl, e: Event)
    requires Enabled(s, e)
  {
    && e.RunBody? && InWindow()(s.bodies[e.b]) && BodyActOf(s, s.bodies[e.b], e.inB).next.Dispatch?
    && s.active >= CONCURRENCY
  }

  ghost predicate NeverLate(s: Crawl, es: seq<Event>)
    requires Legal(s, es)
    decreases |es|
  {
    es == [] || (!Late(s, es[0]) && NeverLate(Step(s, es[0]), es[1..]))
  }

  ghost predicate AlwaysWithin(s: Crawl, es: seq<Event>)
    requires Legal(s, es)
    decreases |es|
  {
    s.active <= CONCURRENCY && (es == [] || AlwaysWithin(Step(s, es[0]), es[1..]))
  }

  lemma BodyMovedActive(s: Crawl, b: nat, act: BodyAct)
    requires b in s.bodies
    ensures BodyMoved(s, b, act).active == s.active + One(act.next.Dispatch?)
  {
  }

  lemma WithinStep(s: Crawl, e: Event)
    requires s.active <= CONCURRENCY && Enabled(s, e)
    ensures Step(s, e).active <= CONCURRENCY <==> !Late(s, e)
  {
    if e.RunBody? {
      var act := BodyActOf(s, s.bodies[e.b], e.inB);
      BodyActGuarded(s, s.bodies[e.b], e.inB);
      BodyMovedActive(s, e.b, act);
      assert Step(s, e).active == s.active + One(act.next.Dispatch?);
    } else if Elsewhere(e) {
      ElsewhereFetches(s, e);
    }
  }

  lemma {:induction false} WithinRun(s: Crawl, es: seq<Event>)
    requires s.active <= CONCURRENCY && Legal(s, es)
    ensures AlwaysWithin(s, es) <==> NeverLate(s, es)
    decreases |es|
  {
    if es != [] {
      WithinStep(s, es[0]);
      if !Late(s, es[0]) {
        WithinRun(Step(s, es[0]), es[1..]);
      }
    }
  }

  /** The exact condition: `active` is at most CONCURRENCY all along a run if and only if every body
      that dispatches after an await finds the check it passed before the await still true. */
  lemma WithinIffNeverLate(s: Crawl, es: seq<Event>)
    requires Initial(s) && Legal(s, es)
    ensures AlwaysWithin(s, es) <==> NeverLate(s, es)
  {
    WithinRun(s, es);
  }

  /** The awaits in the window are what the bound is about: any number of bodies waiting for
      robots.txt can all dispatch, however many fetches are unfinished already. */
  lemma {:induction false} WindowDrains(s: Crawl, bs: set<nat>) returns (es: seq<Event>)
    requires !s.exited && forall b | b in bs :: b in s.bodies && s.bodies[b].pc.CheckingRobots?
    ensures Legal(s, es) && After(s, es).active == s.active + |bs|
    decreases |bs|
  {
    if bs == {} {
      es := [];
    } else {
      var b :| b in bs;
      var e := RunBody(b, BodyInput(true, false, None, []));
      var rest := WindowDrains(Step(s, e), bs - {b});
      es := [e] + rest;
      assert es[0] == e && es[1..] == rest;
    }
  }
}
