/** Which interleavings happen on SQLite. A statement is answered at once there, and the code that
    waits for the answer goes on before any timer, network answer or scheduled call. Only code that
    is due at the same time comes in between, such as the continuation of a fetch that an open
    circuit breaker has rejected. */
module Turns {
  import opened Prelude
  import opened Database
  import opened CrawlState
  import opened Scheduler

  predicate AtBatch(pc: Pc) { pc.ReadingBatch? || pc.HoldingBatch? }

  /** What every run on SQLite keeps. A body that reads a batch has just come from its yield, and has
      dispatched nothing yet: nothing else is due until it has moved the cursor. And the query for
      the first cursor, made when the loop starts, is answered before any body leaves its yield. */
  predicate BatchTurn(s: Crawl, e: Event) {
    && (forall b | b in s.bodies && AtBatch(s.bodies[b].pc) :: (e.RunBody? || e.Throw?) && e.b == b)
    && (s.firstCursor.Some? ==> e.Wake? || e.CursorInit?)
  }

  ghost predicate OnSqlite(s: Crawl, es: seq<Event>)
    decreases |es|
  {
    es == [] || (Enabled(s, es[0]) && BatchTurn(s, es[0]) && OnSqlite(Step(s, es[0]), es[1..]))
  }

  lemma {:induction false} SqliteIsLegal(s: Crawl, es: seq<Event>)
    requires OnSqlite(s, es)
    ensures Legal(s, es)
    decreases |es|
  {
    if es != [] { SqliteIsLegal(Step(s, es[0]), es[1..]); }
  }

  // ---------------------------------------------------------------- runs without any overlap of turns

  predicate Pauses(pc: Pc) { pc.Yielding? || pc.CheckingRobots? }

  /** A body or fetch that is past one of the three awaits that really wait - the yield, robots.txt,
      and fetching the page - goes on alone until it comes to the next one. */
  predicate InTurn(s: Crawl, e: Event) {
    && (forall b | b in s.bodies && !Pauses(s.bodies[b].pc) :: (e.RunBody? || e.Throw?) && e.b == b)
    && (forall f | f in s.fetches && s.fetches[f].phase != Fetching :: e.RunFetch? && e.f == f)
    && (s.firstCursor.Some? ==> e.Wake? || e.CursorInit?)
  }

  /** The runs in which nobody ever interrupts anybody. A property that fails in one of them fails
      of the program. */
  ghost predicate Uninterrupted(s: Crawl, es: seq<Event>)
    decreases |es|
  {
    es == [] || (Enabled(s, es[0]) && InTurn(s, es[0]) && Uninterrupted(Step(s, es[0]), es[1..]))
  }

  lemma {:induction false} UninterruptedOnSqlite(s: Crawl, es: seq<Event>)
    requires Uninterrupted(s, es)
    ensures OnSqlite(s, es)
    decreases |es|
  {
    if es != [] { UninterruptedOnSqlite(Step(s, es[0]), es[1..]); }
  }

  // ---------------------------------------------------------------- reading a batch

  /** Between the query for a batch and the move of the cursor neither the cursor nor the table changes. */
  ghost predicate SteadyPc(t: Tables, now: nat, pc: Pc) {
    match pc
    case ReadingBatch(cursor) => cursor == now
    case HoldingBatch(rows) => rows == Batch(t, now, BATCH)
    case _ => true
  }

  ghost predicate Steady(s: Crawl) {
    WellFormed(s.tables) && forall b | b in s.bodies :: SteadyPc(s.tables, s.cursor, s.bodies[b].pc)
  }

  lemma OpWellFormed(t: Tables, op: DbOp)
    requires WellFormed(t)
    ensures WellFormed(Executed(t, op))
  {
    match op
    case Insert(u, depth, parent) => InsertFrame(t, u, depth, parent);
    case InsertAll(items) => InsertManyFrame(t, items);
    case _ =>
  }

  predicate LeavesBatchAlone(s: Crawl, act: BodyAct) {
    act.cursor == s.cursor && (act.next.Stay? ==> !AtBatch(act.next.body.pc))
  }

  lemma ClassifiedElsewhere(s: Crawl, body: Body, item: Item, blocked: bool)
    ensures LeavesBatchAlone(s, Classified(s, body, item, blocked))
  {
  }

  lemma NoBatch(s: Crawl, body: Body, i: BodyInput)
    requires !AtBatch(body.pc) && body.pc != Yielding
    ensures LeavesBatchAlone(s, BodyActOf(s, body, i))
  {
    match body.pc
    case AtItem =>
      if body.rest != [] { ClassifiedElsewhere(s, body.(rest := body.rest[1..]), body.rest[0], i.blocked); }
    case HoldingVisited(item, _) => ClassifiedElsewhere(s, body, item, i.blocked);
    case _ =>
  }

  ghost predicate SteadyAct(s: Crawl, act: BodyAct) {
    act.next.Stay? ==> SteadyPc(Executed(s.tables, act.op), act.cursor, act.next.body.pc)
  }

  lemma BodyActSteady(s: Crawl, body: Body, i: BodyInput)
    requires SteadyPc(s.tables, s.cursor, body.pc)
    ensures SteadyAct(s, BodyActOf(s, body, i))
  {
    if !AtBatch(body.pc) && body.pc != Yielding { NoBatch(s, body, i); }
  }

  lemma BodyMovedSteady(s: Crawl, b: nat, act: BodyAct)
    requires forall c | c in s.bodies && c != b :: !AtBatch(s.bodies[c].pc)
    requires b in s.bodies
    requires SteadyAct(s, act)
    ensures var r := BodyMoved(s, b, act); forall c | c in r.bodies :: SteadyPc(r.tables, r.cursor, r.bodies[c].pc)
  {
  }

  lemma OthersSteady(s: Crawl, e: Event)
    requires Steady(s) && Enabled(s, e) && BatchTurn(s, e) && !e.RunBody?
    ensures forall b | b in Step(s, e).bodies :: SteadyPc(Step(s, e).tables, Step(s, e).cursor, Step(s, e).bodies[b].pc)
  {
    if e.Throw? {
      assert Step(s, e).bodies == s.bodies && Step(s, e).tables == s.tables && Step(s, e).cursor == s.cursor;
    } else {
      assert forall b | b in s.bodies :: !AtBatch(s.bodies[b].pc);
      assert forall b | b in Step(s, e).bodies :: !AtBatch(Step(s, e).bodies[b].pc);
    }
  }

  lemma SteadyStep(s: Crawl, e: Event)
    requires Steady(s) && Enabled(s, e) && BatchTurn(s, e)
    ensures Steady(Step(s, e))
  {
    StepTables(s, e);
    OpWellFormed(s.tables, OpOf(s, e));
    if e.RunBody? {
      BodyActSteady(s, s.bodies[e.b], e.inB);
      BodyMovedSteady(s, e.b, BodyActOf(s, s.bodies[e.b], e.inB));
    } else {
      OthersSteady(s, e);
    }
  }

  lemma {:induction false} SteadyRun(s: Crawl, es: seq<Event>)
    requires Steady(s) && OnSqlite(s, es)
    ensures Legal(s, es) && Steady(After(s, es))
    decreases |es|
  {
    if es != [] {
      SteadyStep(s, es[0]);
      SteadyRun(Step(s, es[0]), es[1..]);
    }
  }
}
