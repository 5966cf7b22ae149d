/** One URL at a time: until the cursor is reset, no URL is being fetched twice. */
module Flights {
  import opened Prelude
  import opened Database
  import opened CrawlState
  import opened Scheduler
  import opened Turns
  import opened Wakeups
  import opened Lossless
  import Integrity
  import Sweep

  // ---------------------------------------------------------------- who holds which item

  /** The places of an item between the answer of getBatch and the end of its fetch: the rest of a
      batch, the item a body is at, and a fetch. */
  datatype Slot = InRest(b: nat, k: nat) | AtPc(b: nat) | InFetch(f: nat)

  function PcItem(pc: Pc): Option<Item> {
    match pc
    case ReadingVisited(item) => Some(item)
    case HoldingVisited(item, _) => Some(item)
    case CheckingRobots(item, _) => Some(item)
    case _ => None
  }

  function Held(s: Crawl, x: Slot): Option<Item> {
    match x
    case InRest(b, k) => if b in s.bodies && k < |s.bodies[b].rest| then Some(s.bodies[b].rest[k]) else None
    case AtPc(b) => if b in s.bodies then PcItem(s.bodies[b].pc) else None
    case InFetch(f) => if f in s.fetches then Some(s.fetches[f].item) else None
  }

  predicate GoneNow(s: Crawl, u: Url) { Gone(s.tables, s.stats.domainBlacklist, u) }

  predicate HasRow(t: Tables, i: Item) { i.url in t.frontier && t.frontier[i.url].id == i.id }

  /** What holds of one held item: the cursor is past it; its row is still there unless the crawl is
      through with its URL; and a row of its URL with another id is not one to re-crawl. */
  predicate Own(s: Crawl, i: Item) {
    && i.id <= s.cursor
    && (HasRow(s.tables, i) || GoneNow(s, i.url))
    && (i.url in s.tables.frontier && s.tables.frontier[i.url].id != i.id ==>
          s.tables.frontier[i.url].depth != RECRAWL)
  }

  /** An item at this place will be discarded if the crawl is through with its URL. */
  predicate StuckPc(pc: Pc, black: set<string>) {
    match pc
    case ReadingVisited(_) => true
    case HoldingVisited(item, visited) => visited || item.url.domain == "" || item.url.domain in black
    case _ => false
  }

  predicate Stuck(s: Crawl, x: Slot) {
    match x
    case InRest(_, _) => true
    case AtPc(b) => b in s.bodies && StuckPc(s.bodies[b].pc, s.stats.domainBlacklist)
    case InFetch(_) => false
  }

  /** The item at `x` will never be fetched. */
  predicate Doomed(s: Crawl, x: Slot, i: Item) { GoneNow(s, i.url) && i.depth != RECRAWL && Stuck(s, x) }

  /** Two held items are different rows, and of two with the same URL the later one is doomed. */
  predicate Apart(s: Crawl, x: Slot, y: Slot) {
    Held(s, x).Some? && Held(s, y).Some? ==>
      var i, j := Held(s, x).value, Held(s, y).value;
      i.id != j.id && (i.url == j.url && i.id < j.id ==> Doomed(s, y, j))
  }

  ghost predicate AllOwn(s: Crawl) { forall x: Slot :: Held(s, x).Some? ==> Own(s, Held(s, x).value) }

  ghost predicate AllApart(s: Crawl) { forall x: Slot, y: Slot | x != y :: Apart(s, x, y) }

  // ---------------------------------------------------------------- what a statement does to the rows

  /** Rows stay as they are unless the crawl is through with their URL, and no row to re-crawl is new. */
  ghost predicate RowsStay(s: Crawl, r: Crawl) {
    && s.tables.visited <= r.tables.visited && s.stats.domainBlacklist <= r.stats.domainBlacklist
    && (forall u | u in s.tables.frontier ::
          (u in r.tables.frontier && r.tables.frontier[u] == s.tables.frontier[u]) || GoneNow(r, u))
    && (forall u | u in r.tables.frontier ::
          (u in s.tables.frontier && r.tables.frontier[u] == s.tables.frontier[u])
          || r.tables.frontier[u].depth != RECRAWL)
  }

  predicate NoneToRecrawl(items: seq<Item>) { forall i | i in items :: i.depth != RECRAWL }

  /** The statement inserts nothing to re-crawl. */
  predicate NoRecrawl(op: DbOp) {
    (op.Insert? ==> op.depth != RECRAWL) && (op.InsertAll? ==> NoneToRecrawl(op.items))
  }

  lemma InsertAllRows(t: Tables, items: seq<Item>)
    requires WellFormed(t) && NoneToRecrawl(items)
    ensures var r := InsertedMany(t, items);
      && r.visited == t.visited
      && (forall u | u in t.frontier :: u in r.frontier && r.frontier[u] == t.frontier[u])
      && (forall u | u in r.frontier :: u in t.frontier || r.frontier[u].depth != RECRAWL)
  {
    InsertManyFrame(t, items);
    InsertManyKeys(t, items);
    InsertAllLeaves(t, items);
    var r := InsertedMany(t, items);
    forall u | u in r.frontier && u !in t.frontier ensures r.frontier[u].depth != RECRAWL {
      var k := FirstWith(items, u);
      InsertManyOrigin(t, items, k);
      assert items[k] in items;
    }
  }

  lemma OpRowsStay(s: Crawl, op: DbOp, r: Crawl)
    requires WellFormed(s.tables) && SafeDelete(s.tables, s.stats.domainBlacklist, op) && NoRecrawl(op)
    requires r.tables == Executed(s.tables, op) && s.stats.domainBlacklist <= r.stats.domainBlacklist
    ensures RowsStay(s, r)
  {
    if op.InsertAll? { InsertAllRows(s.tables, op.items); }
  }

  // ---------------------------------------------------------------- items only move

  lemma OwnStays(s: Crawl, r: Crawl, i: Item)
    requires RowsStay(s, r) && Own(s, i) && i.id <= r.cursor
    ensures Own(r, i)
  {
  }

  lemma GoneStays(s: Crawl, r: Crawl, u: Url)
    requires RowsStay(s, r) && GoneNow(s, u)
    ensures GoneNow(r, u)
  {
  }

  /** What is at `y` in `r` was at `x` in `s`, and if it was stuck there it is stuck here. */
  predicate Came(s: Crawl, x: Slot, r: Crawl, y: Slot) {
    Held(r, y).Some? ==> Held(s, x) == Held(r, y) && (Doomed(s, x, Held(r, y).value) ==> Stuck(r, y))
  }

  lemma ApartCame(s: Crawl, x1: Slot, x2: Slot, r: Crawl, y1: Slot, y2: Slot)
    requires RowsStay(s, r) && Apart(s, x1, x2) && Came(s, x1, r, y1) && Came(s, x2, r, y2)
    ensures Apart(r, y1, y2)
  {
    if Held(r, y2).Some? && GoneNow(s, Held(r, y2).value.url) { GoneStays(s, r, Held(r, y2).value.url); }
  }

  /** Every place keeps its item, or loses it. */
  lemma StaysApart(s: Crawl, r: Crawl)
    requires AllOwn(s) && AllApart(s) && RowsStay(s, r) && s.cursor <= r.cursor
    requires forall y: Slot :: Came(s, y, r, y)
    ensures AllOwn(r) && AllApart(r)
  {
    forall y: Slot | Held(r, y).Some? ensures Own(r, Held(r, y).value) {
      assert Came(s, y, r, y);
      OwnStays(s, r, Held(r, y).value);
    }
    forall y: Slot, z: Slot | y != z ensures Apart(r, y, z) {
      assert Came(s, y, r, y) && Came(s, z, r, z);
      ApartCame(s, y, z, r, y, z);
    }
  }

  // ---------------------------------------------------------------- a step of a body

  /** The body takes the next item of its batch in this step. */
  predicate Pops(body: Body, act: BodyAct) { body.pc.AtItem? && body.rest != [] && !act.next.End? }

  /** The item the step is about. */
  function Current(body: Body, act: BodyAct): Option<Item> {
    if Pops(body, act) then Some(body.rest[0]) else PcItem(body.pc)
  }

  function Left(body: Body, act: BodyAct): seq<Item> { if Pops(body, act) then body.rest[1..] else body.rest }

  predicate CurrentStuck(s: Crawl, body: Body, act: BodyAct) {
    Pops(body, act) || StuckPc(body.pc, s.stats.domainBlacklist)
  }

  /** The step keeps the rest of the batch, and what it is at afterwards, or fetches, is the current
      item. If the crawl is through with a stuck current item, the step does not fetch it, and it
      stays stuck. */
  predicate HandsOn(s: Crawl, body: Body, act: BodyAct) {
    var cur := Current(body, act);
    && (act.next.Stay? ==>
          && act.next.body.rest == Left(body, act)
          && (PcItem(act.next.body.pc).Some? ==> PcItem(act.next.body.pc) == cur))
    && (act.next.Dispatch? ==> act.next.rest == Left(body, act) && Some(act.next.item) == cur)
    && (cur.Some? && GoneNow(s, cur.value.url) && cur.value.depth != RECRAWL && CurrentStuck(s, body, act) ==>
          && !act.next.Dispatch?
          && (act.next.Stay? && PcItem(act.next.body.pc).Some? ==>
                StuckPc(act.next.body.pc, s.stats.domainBlacklist)))
  }

  lemma ClassifiedHandsOn(s: Crawl, body: Body, item: Item, blocked: bool)
    ensures var next := Classified(s, body, item, blocked).next;
      && (next.Stay? ==> next.body.rest == body.rest)
      && (next.Stay? && PcItem(next.body.pc).Some? ==> PcItem(next.body.pc) == Some(item))
      && (next.Dispatch? ==> next.rest == body.rest && next.item == item)
      && !next.End?
      && (item.url.domain == "" || item.url.domain in s.stats.domainBlacklist ==>
            next.Stay? && PcItem(next.body.pc).None?)
  {
  }

  lemma ItemHandsOn(s: Crawl, body: Body, i: BodyInput)
    requires body.pc.AtItem?
    ensures HandsOn(s, body, BodyActOf(s, body, i))
  {
    if body.rest != [] {
      ClassifiedHandsOn(s, body.(rest := body.rest[1..]), body.rest[0], i.blocked);
    }
  }

  lemma BodyHandsOn(s: Crawl, body: Body, i: BodyInput)
    requires !body.pc.HoldingBatch?
    ensures HandsOn(s, body, BodyActOf(s, body, i))
  {
    if body.pc.AtItem? {
      ItemHandsOn(s, body, i);
    } else if body.pc.HoldingVisited? {
      ClassifiedHandsOn(s, body, body.pc.item, i.blocked);
    }
  }

  /** Where the item at `y` was before a step of body `b`. */
  function Source(s: Crawl, b: nat, pops: bool, y: Slot): Slot {
    match y
    case InRest(c, k) => if c == b && pops then InRest(b, k + 1) else y
    case AtPc(c) => if c == b && pops then InRest(b, 0) else y
    case InFetch(f) => if f == s.past.dispatched then (if pops then InRest(b, 0) else AtPc(b)) else y
  }

  lemma BodyCame(s: Crawl, b: nat, act: BodyAct, y: Slot)
    requires b in s.bodies && HandsOn(s, s.bodies[b], act) && s.past.dispatched !in s.fetches
    ensures Came(s, Source(s, b, Pops(s.bodies[b], act), y), BodyMoved(s, b, act), y)
  {
    BodyStats(s, b, act);
    var r := BodyMoved(s, b, act);
    match y
    case InRest(c, k) =>
    case AtPc(c) =>
    case InFetch(f) =>
  }

  lemma SourcesApart(s: Crawl, b: nat, act: BodyAct, y: Slot, z: Slot)
    requires b in s.bodies && HandsOn(s, s.bodies[b], act) && s.past.dispatched !in s.fetches
    requires y != z && Held(BodyMoved(s, b, act), y).Some? && Held(BodyMoved(s, b, act), z).Some?
    ensures var pops := Pops(s.bodies[b], act); Source(s, b, pops, y) != Source(s, b, pops, z)
  {
  }

  lemma BodyApart(s: Crawl, b: nat, act: BodyAct)
    requires AllOwn(s) && AllApart(s) && b in s.bodies && HandsOn(s, s.bodies[b], act)
    requires s.past.dispatched !in s.fetches && act.cursor == s.cursor && RowsStay(s, BodyMoved(s, b, act))
    ensures AllOwn(BodyMoved(s, b, act)) && AllApart(BodyMoved(s, b, act))
  {
    var r, pops := BodyMoved(s, b, act), Pops(s.bodies[b], act);
    forall y: Slot | Held(r, y).Some? ensures Own(r, Held(r, y).value) {
      BodyCame(s, b, act, y);
      assert Held(s, Source(s, b, pops, y)).Some?;
      OwnStays(s, r, Held(r, y).value);
    }
    forall y: Slot, z: Slot | y != z ensures Apart(r, y, z) {
      if Held(r, y).Some? && Held(r, z).Some? {
        BodyCame(s, b, act, y);
        BodyCame(s, b, act, z);
        SourcesApart(s, b, act, y, z);
        ApartCame(s, Source(s, b, pops, y), Source(s, b, pops, z), r, y, z);
      }
    }
  }

  // ---------------------------------------------------------------- a body gets its batch

  /** The rows of a batch become held items of body `b`. */
  lemma BatchApart(s: Crawl, b: nat, rows: seq<Item>, r: Crawl)
    requires AllOwn(s) && AllApart(s) && b in s.bodies && rows == Batch(s.tables, s.cursor, BATCH) && rows != []
    requires r.tables == s.tables && r.stats.domainBlacklist == s.stats.domainBlacklist && r.fetches == s.fetches
    requires r.bodies == s.bodies[b := Body(AtItem, rows, false)] && r.cursor == rows[|rows| - 1].id
    ensures AllOwn(r) && AllApart(r)
  {
    BatchRows(s.tables, s.cursor, BATCH);
    forall y: Slot | Held(r, y).Some? ensures Own(r, Held(r, y).value) {
      if y.InRest? && y.b == b {
        assert rows[y.k] in rows;
      } else {
        assert Held(s, y) == Held(r, y);
        assert rows[|rows| - 1] in rows;
      }
    }
    forall y: Slot, z: Slot | y != z ensures Apart(r, y, z) { BatchPairApart(s, b, rows, r, y, z); }
  }

  lemma BatchPairApart(s: Crawl, b: nat, rows: seq<Item>, r: Crawl, y: Slot, z: Slot)
    requires AllOwn(s) && AllApart(s) && b in s.bodies && y != z
    requires forall i | i in rows :: IsRow(s.tables, i) && i.id > s.cursor
    requires forall j, k | 0 <= j < k < |rows| :: rows[j].id < rows[k].id
    requires r.tables == s.tables && r.stats.domainBlacklist == s.stats.domainBlacklist && r.fetches == s.fetches
    requires r.bodies == s.bodies[b := Body(AtItem, rows, false)]
    ensures Apart(r, y, z)
  {
    if Held(r, y).Some? && Held(r, z).Some? {
      var i, j := Held(r, y).value, Held(r, z).value;
      var fromY, fromZ := y.InRest? && y.b == b, z.InRest? && z.b == b;
      if fromY { assert i == rows[y.k] && i in rows; } else { assert Held(s, y) == Some(i) && Own(s, i); }
      if fromZ { assert j == rows[z.k] && j in rows; } else { assert Held(s, z) == Some(j) && Own(s, j); }
      if !fromY && !fromZ {
        assert Apart(s, y, z);
      } else if fromY && fromZ {
        assert y.k != z.k;
      }
    }
  }

  // ---------------------------------------------------------------- the invariant

  /** No body is injecting re-crawls, no link is one, and nobody holds an item before the first
      cursor is set. */
  ghost predicate Settling(s: Crawl) {
    && (forall b | b in s.bodies :: !s.bodies[b].pc.ReadingTargets? && !s.bodies[b].pc.InjectingTargets?)
    && (forall f | f in s.fetches && s.fetches[f].phase.Linking? :: NoneToRecrawl(s.fetches[f].phase.items))
    && (s.firstCursor.Some? ==>
          s.fetches == map[] && forall b | b in s.bodies :: s.bodies[b] == Body(Yielding, [], false))
  }

  ghost predicate Background(s: Crawl) { Shape(s) && Steady(s) && NoneLost(s) && Integrity.Sound(s) && Settling(s) }

  ghost predicate OneFlight(s: Crawl) { Background(s) && AllOwn(s) && AllApart(s) }

  /** The event resets the cursor. */
  predicate ResetsNow(s: Crawl, e: Event) { Sweep.Receives(s, e) && Sweep.RowsOf(s, e) == [] }

  lemma BodyNoRecrawl(s: Crawl, body: Body, i: BodyInput)
    requires !body.pc.ReadingTargets? && !body.pc.InjectingTargets?
    requires body.pc.HoldingBatch? ==> body.pc.rows != []
    ensures var act := BodyActOf(s, body, i);
      && NoRecrawl(act.op)
      && (act.next.Stay? ==> !act.next.body.pc.ReadingTargets? && !act.next.body.pc.InjectingTargets?)
  {
    match body.pc
    case AtItem =>
      if body.rest != [] { ClassifiedHandsOnly(s, body.(rest := body.rest[1..]), body.rest[0], i.blocked); }
    case HoldingVisited(item, _) => ClassifiedHandsOnly(s, body, item, i.blocked);
    case _ =>
  }

  lemma ClassifiedHandsOnly(s: Crawl, body: Body, item: Item, blocked: bool)
    ensures var act := Classified(s, body, item, blocked);
      act.op == Keep && (act.next.Stay? ==> !act.next.body.pc.ReadingTargets? && !act.next.body.pc.InjectingTargets?)
  {
  }

  lemma FetchNoRecrawl(s: Crawl, fetch: Fetch, i: FetchInput)
    requires Integrity.GoodFetch(s.tables, fetch)
    requires fetch.phase.Linking? ==> NoneToRecrawl(fetch.phase.items)
    ensures var act := FetchActOf(s, fetch, i);
      NoRecrawl(act.op) && (act.next.To? && act.next.phase.Linking? ==> NoneToRecrawl(act.next.phase.items))
  {
    if fetch.phase.Saved? {
      var page := fetch.phase.page;
      Integrity.FollowedGood(Tallied(s.stats, fetch.item.url.domain, Success(page.dom)), fetch.item.depth, page.url,
                             fetch.phase.links);
    }
  }

  // ---------------------------------------------------------------- every step keeps it

  lemma BodySettling(s: Crawl, b: nat, i: BodyInput)
    requires Settling(s) && b in s.bodies && s.firstCursor.None?
    requires s.bodies[b].pc.HoldingBatch? ==> s.bodies[b].pc.rows != []
    ensures Settling(BodyMoved(s, b, BodyActOf(s, s.bodies[b], i)))
  {
    BodyNoRecrawl(s, s.bodies[b], i);
  }

  lemma FetchSettling(s: Crawl, f: nat, i: FetchInput)
    requires Settling(s) && f in s.fetches && Integrity.GoodFetch(s.tables, s.fetches[f])
    ensures Settling(FetchMoved(s, f, FetchActOf(s, s.fetches[f], i)))
  {
    FetchNoRecrawl(s, s.fetches[f], i);
  }

  lemma ElsewhereSettling(s: Crawl, e: Event)
    requires Settling(s) && Enabled(s, e) && Elsewhere(e)
    ensures Settling(Effect(s, e))
  {
    ElsewhereFetches(s, e);
  }

  lemma SettlingStep(s: Crawl, e: Event)
    requires Background(s) && Enabled(s, e) && BatchTurn(s, e) && !ResetsNow(s, e)
    ensures Settling(Step(s, e))
  {
    if e.RunBody? {
      BodySettling(s, e.b, e.inB);
    } else if e.RunFetch? {
      FetchSettling(s, e.f, e.inF);
    } else {
      ElsewhereSettling(s, e);
    }
  }

  lemma BackgroundStep(s: Crawl, e: Event)
    requires Background(s) && Enabled(s, e) && BatchTurn(s, e) && !ResetsNow(s, e) && !e.KafkaMessage?
    ensures Background(Step(s, e))
  {
    ShapeStep(s, e);
    SteadyStep(s, e);
    StepOnward(s, e);
    Integrity.SoundStep(s, e);
    SettlingStep(s, e);
  }

  lemma BodyFlight(s: Crawl, b: nat, i: BodyInput)
    requires OneFlight(s) && b in s.bodies && !s.bodies[b].pc.HoldingBatch?
    ensures var r := BodyMoved(s, b, BodyActOf(s, s.bodies[b], i)); AllOwn(r) && AllApart(r)
  {
    var body := s.bodies[b];
    var act := BodyActOf(s, body, i);
    BodyHandsOn(s, body, i);
    BodyNoRecrawl(s, body, i);
    BodyActKnows(s, body, i);
    if body.pc != Yielding && !body.pc.ReadingBatch? { NoBatch(s, body, i); }
    BodyMovedTables(s, b, act);
    BodyStats(s, b, act);
    OpRowsStay(s, act.op, BodyMoved(s, b, act));
    assert s.past.dispatched !in s.fetches;
    BodyApart(s, b, act);
  }

  lemma BatchFlight(s: Crawl, b: nat, i: BodyInput)
    requires OneFlight(s) && b in s.bodies && s.bodies[b].pc.HoldingBatch? && s.bodies[b].pc.rows != []
    ensures var r := BodyMoved(s, b, BodyActOf(s, s.bodies[b], i)); AllOwn(r) && AllApart(r)
  {
    var rows := s.bodies[b].pc.rows;
    var r := BodyMoved(s, b, BatchSeen(s, rows));
    assert SteadyPc(s.tables, s.cursor, s.bodies[b].pc);
    BatchApart(s, b, rows, r);
  }

  lemma FetchFlight(s: Crawl, f: nat, i: FetchInput)
    requires OneFlight(s) && f in s.fetches
    ensures var r := FetchMoved(s, f, FetchActOf(s, s.fetches[f], i)); AllOwn(r) && AllApart(r)
  {
    var act := FetchActOf(s, s.fetches[f], i);
    var r := FetchMoved(s, f, act);
    FetchNoRecrawl(s, s.fetches[f], i);
    FetchActKnows(s, s.fetches[f], i);
    TalliedGrows(s.stats, s.fetches[f].item.url.domain, act.tally);
    assert r.tables == Executed(s.tables, act.op) && r.bodies == s.bodies && r.cursor == s.cursor;
    OpRowsStay(s, act.op, r);
    FetchCame(s, f, act);
    StaysApart(s, r);
  }

  lemma FetchCame(s: Crawl, f: nat, act: FetchAct)
    requires f in s.fetches
    ensures forall y: Slot :: Came(s, y, FetchMoved(s, f, act), y)
  {
    TalliedGrows(s.stats, s.fetches[f].item.url.domain, act.tally);
  }

  lemma ElsewhereFlight(s: Crawl, e: Event)
    requires OneFlight(s) && Enabled(s, e) && BatchTurn(s, e) && Elsewhere(e) && !e.KafkaMessage?
    ensures AllOwn(Effect(s, e)) && AllApart(Effect(s, e))
  {
    var r := Effect(s, e);
    ElsewhereFetches(s, e);
    ElsewhereOutcomes(s, e);
    if e.CursorInit? {
      assert forall y: Slot :: Held(r, y).None?;
    } else {
      ElsewhereTables(s, e);
      OpRowsStay(s, TimerOp(e), r);
      assert r.cursor == s.cursor;
      ElsewhereCame(s, e);
      StaysApart(s, r);
    }
  }

  lemma ElsewhereCame(s: Crawl, e: Event)
    requires Enabled(s, e) && Elsewhere(e)
    ensures forall y: Slot :: Came(s, y, Effect(s, e), y)
  {
    ElsewhereFetches(s, e);
    ElsewhereOutcomes(s, e);
  }

  lemma Unremembered(s: Crawl, r: Crawl)
    requires AllOwn(r) && AllApart(r)
    ensures AllOwn(Remembered(s, r)) && AllApart(Remembered(s, r))
  {
    var t := Remembered(s, r);
    assert forall y: Slot :: Held(t, y) == Held(r, y);
    forall y: Slot | Held(t, y).Some? ensures Own(t, Held(t, y).value) { assert Own(r, Held(r, y).value); }
    forall y: Slot, z: Slot | y != z ensures Apart(t, y, z) { assert Apart(r, y, z); }
  }

  lemma FlightStep(s: Crawl, e: Event)
    requires OneFlight(s) && Enabled(s, e) && BatchTurn(s, e) && !ResetsNow(s, e) && !e.KafkaMessage?
    ensures OneFlight(Step(s, e))
  {
    BackgroundStep(s, e);
    if e.RunBody? {
      if s.bodies[e.b].pc.HoldingBatch? { BatchFlight(s, e.b, e.inB); } else { BodyFlight(s, e.b, e.inB); }
    } else if e.RunFetch? {
      FetchFlight(s, e.f, e.inF);
    } else {
      ElsewhereFlight(s, e);
    }
    Unremembered(s, Effect(s, e));
  }

  lemma {:induction false} FlightRun(s: Crawl, es: seq<Event>)
    requires OneFlight(s) && OnSqlite(s, es) && Legal(s, es) && Integrity.NoKafka(es) && !Sweep.Resets(s, es)
    ensures OneFlight(After(s, es))
    decreases |es|
  {
    if es != [] {
      FlightStep(s, es[0]);
      FlightRun(Step(s, es[0]), es[1..]);
    }
  }

  /** Nobody holds an item, and nobody injects re-crawls. */
  ghost predicate Calm(s: Crawl) {
    && s.fetches == map[]
    && forall b | b in s.bodies ::
         var body := s.bodies[b];
         body.rest == [] && PcItem(body.pc).None? && !body.pc.ReadingTargets? && !body.pc.InjectingTargets?
  }

  lemma CalmFlight(s: Crawl)
    requires Shape(s) && Steady(s) && NoneLost(s) && Integrity.Sound(s)
    requires Calm(s) && (s.firstCursor.None? || s.bodies == map[])
    ensures OneFlight(s)
  {
    assert forall x: Slot :: Held(s, x).None?;
  }

  /** One URL at a time: in every run on SQLite without Kafka input, from consistent tables, two
      fetches that are unfinished at the same time have different URLs if the cursor has not been
      reset since a moment when nobody held an item, such as the start. So a second flight of a URL
      takes a reset of the cursor while the URL is held. */
  lemma OneFlightPerUrl(s0: Crawl, before: seq<Event>, es: seq<Event>, f: nat, g: nat)
    requires Initial(s0) && Integrity.Consistent(s0.tables)
    requires OnSqlite(s0, before) && Legal(s0, before) && Integrity.NoKafka(before) && Integrity.NoKafka(es)
    requires var s := After(s0, before);
      && Calm(s) && (before == [] || s.firstCursor.None?)
      && OnSqlite(s, es) && Legal(s, es) && !Sweep.Resets(s, es)
      && f in After(s, es).fetches && g in After(s, es).fetches && f != g
    ensures var r := After(After(s0, before), es); r.fetches[f].item.url != r.fetches[g].item.url
  {
    var s := After(s0, before);
    ShapeRun(s0, before);
    SteadyRun(s0, before);
    LosslessRun(s0, before);
    Integrity.SoundRun(s0, before);
    CalmFlight(s);
    FlightRun(s, es);
    DifferentUrls(After(s, es), f, g);
  }

  lemma DifferentUrls(r: Crawl, f: nat, g: nat)
    requires AllApart(r) && f in r.fetches && g in r.fetches && f != g
    ensures r.fetches[f].item.url != r.fetches[g].item.url
  {
    assert Apart(r, InFetch(f), InFetch(g)) && Apart(r, InFetch(g), InFetch(f));
  }
}
