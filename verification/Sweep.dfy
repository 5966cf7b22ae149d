/** The cursor sweep over the frontier: getBatch reads the next rows above the cursor, the cursor
    moves to the last of them, and an empty batch resets it. First with a batch read and the move
    of the cursor as one step; then for the runs of the crawl loop, where they are that. */
module Sweep {
  import opened Prelude
  import opened Database
  import opened CrawlState
  import opened Scheduler
  import opened Turns

  /** What happens during a sweep: the sweeper reads a batch, or a statement runs. */
  datatype SweepEvent = Read | Change(op: DbOp)

  function LastId(b: seq<Item>): nat
    requires b != []
  {
    b[|b| - 1].id
  }

  /** All rows read from here on, up to the first empty batch. */
  ghost function Swept(t: Tables, cursor: nat, es: seq<SweepEvent>): seq<Item>
    decreases |es|
  {
    if es == [] then []
    else match es[0]
      case Read =>
        var b := Batch(t, cursor, BATCH);
        if b == [] then [] else b + Swept(t, LastId(b), es[1..])
      case Change(op) => Swept(Executed(t, op), cursor, es[1..])
  }

  /** The sweep reaches an empty batch. */
  ghost predicate Completes(t: Tables, cursor: nat, es: seq<SweepEvent>)
    decreases |es|
  {
    if es == [] then false
    else match es[0]
      case Read =>
        var b := Batch(t, cursor, BATCH);
        b == [] || Completes(t, LastId(b), es[1..])
      case Change(op) => Completes(Executed(t, op), cursor, es[1..])
  }

  predicate HasRow(t: Tables, u: Url, id: nat) { u in t.frontier && t.frontier[u].id == id }

  /** The row is in the frontier now and after every statement. */
  ghost predicate Stays(t: Tables, es: seq<SweepEvent>, u: Url, id: nat)
    decreases |es|
  {
    && HasRow(t, u, id)
    && (es == [] || Stays(if es[0].Change? then Executed(t, es[0].op) else t, es[1..], u, id))
  }

  predicate Ascends(r: seq<Item>, cursor: nat) {
    && (forall k | 0 <= k < |r| :: r[k].id > cursor)
    && (forall j, k | 0 <= j < k < |r| :: r[j].id < r[k].id)
  }

  lemma AscendsJoin(b: seq<Item>, rest: seq<Item>, cursor: nat)
    requires b != [] && Ascends(b, cursor) && Ascends(rest, LastId(b))
    ensures Ascends(b + rest, cursor)
  {
    assert forall k | 0 <= k < |b| :: b[k].id <= LastId(b);
  }

  /** Rows come in strictly ascending id order, across batches and whatever is inserted or deleted
      in between. */
  lemma {:induction false} SweptAscends(t: Tables, cursor: nat, es: seq<SweepEvent>)
    ensures Ascends(Swept(t, cursor, es), cursor)
    decreases |es|
  {
    if es != [] {
      match es[0]
      case Change(op) => SweptAscends(Executed(t, op), cursor, es[1..]);
      case Read =>
        BatchRows(t, cursor, BATCH);
        var b := Batch(t, cursor, BATCH);
        if b != [] {
          SweptAscends(t, LastId(b), es[1..]);
          AscendsJoin(b, Swept(t, LastId(b), es[1..]), cursor);
        }
    }
  }

  lemma {:induction false} SweptCovers(t: Tables, cursor: nat, es: seq<SweepEvent>, u: Url, id: nat)
    requires WellFormed(t) && Completes(t, cursor, es)
    requires Stays(t, es, u, id) && id > cursor
    ensures exists i :: i in Swept(t, cursor, es) && i.url == u && i.id == id
    decreases |es|
  {
    match es[0]
    case Change(op) =>
      OpWellFormed(t, op);
      SweptCovers(Executed(t, op), cursor, es[1..], u, id);
    case Read =>
      var b := Batch(t, cursor, BATCH);
      BatchRows(t, cursor, BATCH);
      BatchComplete(t, cursor, BATCH, u);
      if u in Urls(b) {
        var i :| i in b && i.url == u;
        assert IsRow(t, i) && i in b + Swept(t, LastId(b), es[1..]);
      } else {
        SweptCovers(t, LastId(b), es[1..], u, id);
        var i :| i in Swept(t, LastId(b), es[1..]) && i.url == u && i.id == id;
        assert i in b + Swept(t, LastId(b), es[1..]);
      }
  }

  /** The number of times a row is read. */
  function TimesRead(r: seq<Item>, id: nat): nat {
    if r == [] then 0 else One(r[0].id == id) + TimesRead(r[1..], id)
  }

  lemma {:induction false} ReadAtMostOnce(r: seq<Item>, cursor: nat, id: nat)
    requires Ascends(r, cursor)
    ensures TimesRead(r, id) <= 1
    ensures TimesRead(r, id) == 1 <==> exists i :: i in r && i.id == id
    decreases r
  {
    if r != [] {
      assert r == [r[0]] + r[1..];
      assert Ascends(r[1..], r[0].id);
      ReadAtMostOnce(r[1..], r[0].id, id);
      if i :| i in r && i.id == id {
        assert i == r[0] || i in r[1..];
      }
    }
  }

  /** Sweep coverage: a row that stays in the frontier up to the next empty batch, whatever else is
      inserted and deleted, is read by then exactly once if the cursor is below it now, and not at
      all otherwise. */
  lemma SweepCoverage(t: Tables, cursor: nat, es: seq<SweepEvent>, u: Url, id: nat)
    requires WellFormed(t) && Completes(t, cursor, es) && Stays(t, es, u, id)
    ensures TimesRead(Swept(t, cursor, es), id) == if id > cursor then 1 else 0
  {
    var r := Swept(t, cursor, es);
    SweptAscends(t, cursor, es);
    ReadAtMostOnce(r, cursor, id);
    if id > cursor {
      SweptCovers(t, cursor, es, u, id);
    }
  }

  // ---------------------------------------------------------------- the sweep ends

  function Reads(es: seq<SweepEvent>): nat {
    if es == [] then 0 else One(es[0] == Read) + Reads(es[1..])
  }

  predicate NoInserts(es: seq<SweepEvent>) {
    forall e | e in es && e.Change? :: !e.op.Insert? && !e.op.InsertAll?
  }

  /** A non-empty batch leaves fewer rows above the cursor. */
  lemma ReadShrinks(t: Tables, cursor: nat)
    requires WellFormed(t) && Batch(t, cursor, BATCH) != []
    ensures |Above(t, LastId(Batch(t, cursor, BATCH)))| < |Above(t, cursor)|
  {
    var b := Batch(t, cursor, BATCH);
    BatchRows(t, cursor, BATCH);
    var last := b[|b| - 1];
    assert last in b && IsRow(t, last) && last.url in Above(t, cursor);
    assert forall u | u in Above(t, LastId(b)) :: u in Above(t, cursor) && u != last.url;
    SubsetSize(Above(t, LastId(b)), Above(t, cursor) - {last.url});
  }

  /** Without inserts the sweep ends: more reads than there are rows above the cursor include an
      empty one. */
  lemma {:induction false} SweepEnds(t: Tables, cursor: nat, es: seq<SweepEvent>)
    requires WellFormed(t) && NoInserts(es) && Reads(es) > |Above(t, cursor)|
    ensures Completes(t, cursor, es)
    decreases |es|
  {
    match es[0]
    case Read =>
      var b := Batch(t, cursor, BATCH);
      if b != [] {
        ReadShrinks(t, cursor);
        SweepEnds(t, LastId(b), es[1..]);
      }
    case Change(op) =>
      assert es[0] in es;
      OpWellFormed(t, op);
      assert Above(Executed(t, op), cursor) <= Above(t, cursor);
      SubsetSize(Above(Executed(t, op), cursor), Above(t, cursor));
      SweepEnds(Executed(t, op), cursor, es[1..]);
  }

  // ---------------------------------------------------------------- the sweeps of the crawl loop

  /** A body gets the answer of getBatch and moves the cursor. */
  predicate Receives(s: Crawl, e: Event) { e.RunBody? && e.b in s.bodies && s.bodies[e.b].pc.HoldingBatch? }

  function RowsOf(s: Crawl, e: Event): seq<Item>
    requires Receives(s, e)
  {
    s.bodies[e.b].pc.rows
  }

  /** All rows that any body gets, up to the first empty batch. */
  ghost function Received(s: Crawl, es: seq<Event>): seq<Item>
    requires Legal(s, es)
    decreases |es|
  {
    if es == [] then []
    else if !Receives(s, es[0]) then Received(Step(s, es[0]), es[1..])
    else if RowsOf(s, es[0]) == [] then []
    else RowsOf(s, es[0]) + Received(Step(s, es[0]), es[1..])
  }

  /** Some body gets an empty batch, which resets the cursor. */
  ghost predicate Resets(s: Crawl, es: seq<Event>)
    requires Legal(s, es)
    decreases |es|
  {
    es != [] && ((Receives(s, es[0]) && RowsOf(s, es[0]) == []) || Resets(Step(s, es[0]), es[1..]))
  }

  ghost predicate RowStays(s: Crawl, es: seq<Event>, u: Url, id: nat)
    requires Legal(s, es)
    decreases |es|
  {
    HasRow(s.tables, u, id) && (es == [] || RowStays(Step(s, es[0]), es[1..], u, id))
  }

  ghost function SweepEventOf(s: Crawl, e: Event): SweepEvent
    requires Enabled(s, e)
  {
    if Receives(s, e) then Read else Change(OpOf(s, e))
  }

  /** What a run is to the sweep. */
  ghost function SweepOf(s: Crawl, es: seq<Event>): seq<SweepEvent>
    requires Legal(s, es)
    decreases |es|
  {
    if es == [] then [] else [SweepEventOf(s, es[0])] + SweepOf(Step(s, es[0]), es[1..])
  }

  /** With the turn kept, a body gets what the table holds above the cursor at that moment. */
  lemma ReceiveStep(s: Crawl, e: Event)
    requires Steady(s) && Enabled(s, e) && Receives(s, e)
    ensures RowsOf(s, e) == Batch(s.tables, s.cursor, BATCH)
    ensures Step(s, e).tables == s.tables && Step(s, e).firstCursor == s.firstCursor
    ensures Step(s, e).cursor == if RowsOf(s, e) == [] then 0 else LastId(RowsOf(s, e))
  {
  }

  /** Nobody else moves the cursor. */
  lemma OtherStep(s: Crawl, e: Event)
    requires Enabled(s, e) && !Receives(s, e) && s.firstCursor.None?
    ensures Step(s, e).cursor == s.cursor && Step(s, e).firstCursor.None?
  {
    if e.RunBody? && !s.bodies[e.b].pc.Yielding? && !s.bodies[e.b].pc.ReadingBatch? {
      NoBatch(s, s.bodies[e.b], e.inB);
    }
  }

  lemma {:induction false} RunIsSweep(s: Crawl, es: seq<Event>)
    requires Steady(s) && OnSqlite(s, es) && Legal(s, es) && s.firstCursor.None?
    ensures Received(s, es) == Swept(s.tables, s.cursor, SweepOf(s, es))
    ensures Resets(s, es) ==> Completes(s.tables, s.cursor, SweepOf(s, es))
    decreases |es|
  {
    if es != [] {
      var e, rest, r := es[0], es[1..], Step(s, es[0]);
      assert SweepOf(s, es)[1..] == SweepOf(r, rest);
      StepTables(s, e);
      SteadyStep(s, e);
      if Receives(s, e) { ReceiveStep(s, e); } else { OtherStep(s, e); }
      RunIsSweep(r, rest);
    }
  }

  lemma {:induction false} RowStaysInSweep(s: Crawl, es: seq<Event>, u: Url, id: nat)
    requires Legal(s, es) && RowStays(s, es, u, id)
    ensures Stays(s.tables, SweepOf(s, es), u, id)
    decreases |es|
  {
    if es != [] {
      assert SweepOf(s, es)[1..] == SweepOf(Step(s, es[0]), es[1..]);
      StepTables(s, es[0]);
      if Receives(s, es[0]) { assert OpOf(s, es[0]) == Keep; }
      RowStaysInSweep(Step(s, es[0]), es[1..], u, id);
    }
  }

  /** Sweep coverage of the crawl loop: at any moment of a run on SQLite, a row that stays in the
      frontier up to the next reset of the cursor goes to exactly one body by then, once, if the
      cursor is below it now, and to none otherwise; and rows go out in ascending order. So from
      one reset to the next, every row that stays is looked at exactly once. */
  lemma LoopSweeps(s0: Crawl, before: seq<Event>, es: seq<Event>, u: Url, id: nat)
    requires Initial(s0) && OnSqlite(s0, before) && Legal(s0, before)
    requires var s := After(s0, before);
      OnSqlite(s, es) && Legal(s, es) && s.firstCursor.None? && Resets(s, es) && RowStays(s, es, u, id)
    ensures var s := After(s0, before);
      && TimesRead(Received(s, es), id) == (if id > s.cursor then 1 else 0)
      && Ascends(Received(s, es), s.cursor)
      && (s.cursor == 0 ==> TimesRead(Received(s, es), id) == 1)
  {
    var s := After(s0, before);
    SteadyRun(s0, before);
    RunIsSweep(s, es);
    RowStaysInSweep(s, es, u, id);
    SweepCoverage(s.tables, s.cursor, SweepOf(s, es), u, id);
    SweptAscends(s.tables, s.cursor, SweepOf(s, es));
  }
}
