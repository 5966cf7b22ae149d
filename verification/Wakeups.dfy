/** The crawl loop never loses its last wake-up. */
module Wakeups {
  import opened Prelude
  import opened Database
  import opened CrawlState
  import opened Scheduler

  /** `active` is the number of dispatched fetches whose finally block has not run; identifiers of
      bodies and fetches are never reused. */
  ghost predicate Shape(s: Crawl) {
    && s.active == |s.fetches|
    && (forall f | f in s.fetches :: f < s.past.dispatched)
    && (forall b | b in s.bodies :: b < s.nextBody)
  }

  lemma BodyMovedShape(s: Crawl, b: nat, act: BodyAct)
    requires Shape(s) && b in s.bodies
    ensures Shape(BodyMoved(s, b, act))
  {
    if act.next.Dispatch? { assert s.past.dispatched !in s.fetches; }
  }

  lemma FetchMovedShape(s: Crawl, f: nat, act: FetchAct)
    requires Shape(s) && f in s.fetches
    ensures Shape(FetchMoved(s, f, act))
  {
    SizeDrop(s.fetches, f);
  }

  lemma ShapeStep(s: Crawl, e: Event)
    requires Shape(s) && Enabled(s, e)
    ensures Shape(Step(s, e))
  {
    match e
    case RunBody(b, i) => BodyMovedShape(s, b, BodyActOf(s, s.bodies[b], i));
    case RunFetch(f, i) => FetchMovedShape(s, f, FetchActOf(s, s.fetches[f], i));
    case _ =>
  }

  // ---------------------------------------------------------------- no lost wake-up

  ghost predicate SomeIdle(s: Crawl) { exists b :: b in s.bodies && !s.bodies[b].startedAny }

  /** Someone is left to carry the loop on: an unfinished fetch, a scheduled processNext, or a
      live body that has not started a fetch yet. Or the crawl has reached MAX_NODES. */
  ghost predicate Carried(s: Crawl) { s.past.done || s.active > 0 || s.wakeups > 0 || SomeIdle(s) }

  ghost predicate Running(s: Crawl) { !s.exited && Carried(s) }

  lemma ClassifiedGoesOn(s: Crawl, body: Body, item: Item, blocked: bool)
    ensures var next := Classified(s, body, item, blocked).next;
      !next.End? && (next.Stay? ==> next.body.startedAny == body.startedAny)
  {
  }

  /** A body ends without scheduling a successor only if it has started a fetch or another one is
      unfinished; and no step but a dispatch sets startedAny. */
  lemma BodyExit(s: Crawl, body: Body, i: BodyInput)
    requires s.active >= 0
    ensures var next := BodyActOf(s, body, i).next;
      && (next == End(false) ==> s.active > 0 || body.startedAny)
      && (next.Stay? && next.body.startedAny ==> body.startedAny)
  {
    match body.pc
    case AtItem =>
      if body.rest != [] {
        ClassifiedGoesOn(s, body.(rest := body.rest[1..]), body.rest[0], i.blocked);
      }
    case HoldingVisited(item, _) => ClassifiedGoesOn(s, body, item, i.blocked);
    case _ =>
  }

  lemma BodyMovedCarried(s: Crawl, b: nat, act: BodyAct)
    requires Carried(s) && b in s.bodies && s.active >= 0
    requires act.next == End(false) ==> s.active > 0 || s.bodies[b].startedAny
    requires act.next.Stay? && act.next.body.startedAny ==> s.bodies[b].startedAny
    ensures Carried(BodyMoved(s, b, act))
  {
    if c :| c in s.bodies && !s.bodies[c].startedAny {
      var r := BodyMoved(s, b, act);
      if act.next.Stay? || (act.next.End? && c != b) {
        assert c in r.bodies && !r.bodies[c].startedAny;
      }
    }
  }

  lemma SameCarried(s: Crawl, r: Crawl)
    requires r.past.done == s.past.done && r.active == s.active && r.wakeups == s.wakeups && r.bodies == s.bodies
    ensures Carried(r) <==> Carried(s)
  {
  }

  /** No event takes the last chance to go on away, except that a throw ends the process. */
  lemma RunningStep(s: Crawl, e: Event)
    requires Shape(s) && Running(s) && Enabled(s, e)
    ensures Running(Step(s, e)) <==> !e.Throw?
  {
    var r := Step(s, e);
    if e.RunBody? {
      BodyExit(s, s.bodies[e.b], e.inB);
      BodyMovedCarried(s, e.b, BodyActOf(s, s.bodies[e.b], e.inB));
      SameCarried(Effect(s, e), r);
    } else if e.Wake? {
      assert r.past.done || (s.nextBody in r.bodies && !r.bodies[s.nextBody].startedAny);
    } else {
      assert r.bodies == s.bodies && r.past.done == s.past.done;
      if e.RunFetch? { assert r.wakeups > 0 || (r.active == s.active && r.wakeups == s.wakeups); }
      if SomeIdle(s) { assert SomeIdle(r); }
    }
  }

  ghost predicate AlwaysRunning(s: Crawl, es: seq<Event>)
    requires Legal(s, es)
    decreases |es|
  {
    Running(s) && (es == [] || AlwaysRunning(Step(s, es[0]), es[1..]))
  }

  predicate NoThrow(es: seq<Event>) { forall k | 0 <= k < |es| :: !es[k].Throw? }

  lemma {:induction false} RunningRun(s: Crawl, es: seq<Event>)
    requires Shape(s) && Running(s) && Legal(s, es)
    ensures Shape(After(s, es))
    ensures AlwaysRunning(s, es) <==> NoThrow(es)
    ensures NoThrow(es) ==> Running(After(s, es))
    ensures !NoThrow(es) ==> After(s, es).exited
    decreases |es|
  {
    if es != [] {
      var r := Step(s, es[0]);
      ShapeStep(s, es[0]);
      RunningStep(s, es[0]);
      if es[0].Throw? {
        assert r.exited && es[1..] == [];
      } else {
        RunningRun(r, es[1..]);
        assert NoThrow(es) <==> NoThrow(es[1..]);
      }
    }
  }

  lemma {:induction false} ShapeRun(s: Crawl, es: seq<Event>)
    requires Shape(s) && Legal(s, es)
    ensures Shape(After(s, es))
    decreases |es|
  {
    if es != [] {
      ShapeStep(s, es[0]);
      ShapeRun(Step(s, es[0]), es[1..]);
    }
  }

  /** No lost wake-up: all along a run the process is up and the loop has an unfinished fetch, a
      scheduled call, or a live body that has not started a fetch, until it has seen the node limit,
      if and only if no unguarded await of the run throws. */
  lemma NoLostWakeup(s: Crawl, es: seq<Event>)
    requires Initial(s) && Legal(s, es)
    ensures AlwaysRunning(s, es) <==> NoThrow(es)
    ensures var r := After(s, es);
      r.active == |r.fetches| && (r.exited <==> !NoThrow(es)) && (NoThrow(es) ==> Running(r))
  {
    RunningRun(s, es);
  }

  // ---------------------------------------------------------------- the loop never stalls

  /** The loop's own progress, as opposed to timers that fire anyway and awaits that throw. */
  predicate LoopEvent(e: Event) { e.Wake? || e.RunBody? || e.RunFetch? }

  lemma {:induction false} SampleExists(us: set<Url>, n: nat) returns (q: seq<Url>)
    requires n <= |us|
    ensures |q| == n && Distinct(q) && forall u | u in q :: u in us
  {
    if n == 0 {
      q := [];
    } else {
      var u :| u in us;
      var rest := SampleExists(us - {u}, n - 1);
      q := [u] + rest;
    }
  }

  /** Nothing waits forever: every live body, every fetch and every scheduled call has a next step. */
  lemma Progress(s: Crawl) returns (e: Event)
    requires !s.exited && (s.wakeups > 0 || s.fetches != map[] || s.bodies != map[])
    ensures LoopEvent(e) && Enabled(s, e)
  {
    if s.wakeups > 0 {
      e := Wake;
    } else if s.fetches != map[] {
      var f :| f in s.fetches;
      e := RunFetch(f, FetchInput(None, true, true));
    } else {
      var b :| b in s.bodies;
      var urls := SampleExists(s.tables.nodes.Keys, Min(Min(s.stats.nodeCount, RECRAWL_BATCH), |s.tables.nodes|));
      e := RunBody(b, BodyInput(true, false, None, urls));
    }
  }

  /** No step of the loop is possible. */
  ghost predicate Stopped(s: Crawl) { forall e | LoopEvent(e) :: !Enabled(s, e) }

  lemma StoppedIff(s: Crawl)
    ensures Stopped(s) <==> s.exited || (s.wakeups == 0 && s.bodies == map[] && s.fetches == map[])
  {
    if !s.exited && (s.wakeups > 0 || s.bodies != map[] || s.fetches != map[]) { var e := Progress(s); }
  }

  /** The loop stops before the node limit if and only if an unguarded await has thrown: in every
      reachable state it can move, unless it is done or the process has exited. */
  lemma StopsIffThrown(s: Crawl, es: seq<Event>)
    requires Initial(s) && Legal(s, es) && !After(s, es).past.done
    ensures Stopped(After(s, es)) <==> !NoThrow(es)
  {
    NoLostWakeup(s, es);
    var r := After(s, es);
    StoppedIff(r);
    assert r.active > 0 ==> r.fetches != map[];
  }

  /** A stopped loop stays so, whatever the timers do meanwhile. */
  lemma {:induction false} StoppedForever(s: Crawl, es: seq<Event>)
    requires Stopped(s) && Legal(s, es)
    ensures Stopped(After(s, es))
    decreases |es|
  {
    if es != [] {
      var r := Step(s, es[0]);
      StoppedIff(s);
      assert Elsewhere(es[0]) && r.wakeups == 0 && r.bodies == map[];
      ElsewhereFetches(s, es[0]);
      StoppedIff(r);
      StoppedForever(r, es[1..]);
    }
  }

  /** It happens: the very first getBatch can throw. */
  lemma ThrowStops(s: Crawl, i: BodyInput) returns (es: seq<Event>)
    requires Initial(s) && s.stats.nodeCount < MAX_NODES
    ensures Legal(s, es) && !After(s, es).past.done && Stopped(After(s, es))
  {
    var b := s.nextBody;
    es := [Wake, RunBody(b, i), Throw(b)];
    var s1 := Step(s, es[0]);
    var s2 := Step(s1, es[1]);
    var s3 := Step(s2, es[2]);
    assert es[1..][1..] == [es[2]] && es[1..][0] == es[1];
    assert Legal(s3, []) && Legal(s2, [es[2]]) && Legal(s1, es[1..]);
    assert After(s2, [es[2]]) == After(s3, [es[2]][1..]);
    assert s3.exited;
  }
}
