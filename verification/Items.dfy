/** What becomes of a body and of the items of its batch, with anything else happening in between. */
module Items {
  import opened Prelude
  import opened Database
  import opened CrawlState
  import opened Scheduler
  import opened Lifecycle
  import Lossless

  // ---------------------------------------------------------------- the steps of one body

  predicate Alive(s: Crawl, b: nat) { b in s.bodies && b < s.nextBody }

  predicate OwnBody(e: Event, b: nat) { e.RunBody? && e.b == b }

  /** What the environment answers in the steps of body `b`, in order. */
  function Replies(es: seq<Event>, b: nat): seq<BodyInput> {
    if es == [] then [] else if OwnBody(es[0], b) then [es[0].inB] + Replies(es[1..], b) else Replies(es[1..], b)
  }

  predicate RepliesWork(es: seq<Event>, b: nat) { forall i | i in Replies(es, b) :: i.works }

  lemma RepliesStep(es: seq<Event>, b: nat)
    requires es != [] && RepliesWork(es, b)
    ensures RepliesWork(es[1..], b) && (OwnBody(es[0], b) ==> es[0].inB.works)
  {
    assert forall i | i in Replies(es[1..], b) :: i in Replies(es, b);
    if OwnBody(es[0], b) { assert es[0].inB in Replies(es, b); }
  }

  lemma OthersKeepBody(s: Crawl, e: Event, b: nat)
    requires Enabled(s, e) && Alive(s, b) && !OwnBody(e, b)
    ensures Alive(Step(s, e), b) && Step(s, e).bodies[b] == s.bodies[b]
  {
  }

  lemma OwnBodyStep(s: Crawl, e: Event, b: nat)
    requires Enabled(s, e) && Alive(s, b) && OwnBody(e, b)
    ensures var act, r := BodyActOf(s, s.bodies[b], e.inB), Step(s, e);
      && (act.next.End? <==> b !in r.bodies) && (act.next.Stay? ==> Alive(r, b) && r.bodies[b] == act.next.body)
      && r.tables == Executed(s.tables, act.op)
  {
  }

  // ---------------------------------------------------------------- when a body goes on

  /** After its yield a body goes on to read a batch at the cursor if and only if fewer than
      CONCURRENCY fetches are unfinished. */
  lemma YieldGoesOn(s: Crawl, b: nat, i: BodyInput)
    requires Enabled(s, RunBody(b, i)) && s.bodies[b].pc == Yielding
    ensures var r := Step(s, RunBody(b, i));
      && r.wakeups == s.wakeups && r.tables == s.tables
      && (if s.active < CONCURRENCY then b in r.bodies && r.bodies[b].pc == ReadingBatch(s.cursor)
          else b !in r.bodies)
  {
  }

  /** A body takes all rows of a non-empty batch, in their order, and the cursor moves to the last. */
  lemma BatchIsTaken(s: Crawl, b: nat, i: BodyInput)
    requires Enabled(s, RunBody(b, i)) && s.bodies[b].pc.HoldingBatch? && s.bodies[b].pc.rows != []
    ensures var r, rows := Step(s, RunBody(b, i)), s.bodies[b].pc.rows;
      b in r.bodies && r.bodies[b] == Body(AtItem, rows, false) && r.cursor == rows[|rows| - 1].id
  {
  }

  /** The item loop goes on with the next item if and only if there is one and fewer than CONCURRENCY
      fetches are unfinished; for a new item it reads the visited mark first. When it ends, it
      schedules a call if and only if the body has started no fetch and none is unfinished. */
  lemma LoopGoesOn(s: Crawl, b: nat, i: BodyInput)
    requires Enabled(s, RunBody(b, i)) && s.bodies[b].pc == AtItem
    ensures var r, body := Step(s, RunBody(b, i)), s.bodies[b];
      if body.rest != [] && s.active < CONCURRENCY
      then b in r.bodies && r.bodies[b].rest == body.rest[1..] && r.wakeups == s.wakeups
           && (body.rest[0].depth != RECRAWL ==> r.bodies[b].pc == ReadingVisited(body.rest[0]))
      else b !in r.bodies && r.wakeups == s.wakeups + One(!body.startedAny && s.active == 0)
  {
    var body := s.bodies[b];
    if body.rest != [] { ClassifiedStays(s, body.(rest := body.rest[1..]), body.rest[0], i.blocked); }
  }

  lemma ClassifiedStays(s: Crawl, body: Body, item: Item, blocked: bool)
    ensures var act := Classified(s, body, item, blocked);
      && !act.next.End? && (act.next.Stay? ==> act.next.body.rest == body.rest)
      && (act.next.Dispatch? ==> act.next.rest == body.rest) && act.op == Keep
  {
  }

  // ---------------------------------------------------------------- when an item is fetched

  /** The domain of the item is known, not blacklisted, and below the in-flight limit. */
  predicate Admissible(s: Crawl, item: Item) {
    var d := item.url.domain;
    d != "" && d !in s.stats.domainBlacklist && Get(s.stats.domainInflight, d) < DOMAIN_LIMIT
  }

  /** The item that a step of a body may fetch, if the guards of the step let it. */
  predicate Fetchable(s: Crawl, body: Body, blocked: bool, item: Item) {
    match body.pc
    case AtItem => body.rest != [] && s.active < CONCURRENCY && item == body.rest[0] && item.depth == RECRAWL
                   && Admissible(s, item)
    case HoldingVisited(it, visited) =>
      it == item && !visited && Admissible(s, item)
      && (item.depth == RECRAWL || (item.url.origin in s.domainsChecked && !blocked))
    case CheckingRobots(it, _) => it == item && !blocked
    case _ => false
  }

  lemma ClassifiedDispatches(s: Crawl, body: Body, item: Item, blocked: bool)
    ensures var next := Classified(s, body, item, blocked).next;
      && (next.Dispatch? <==> Admissible(s, item)
                              && (item.depth == RECRAWL || (item.url.origin in s.domainsChecked && !blocked)))
      && (next.Dispatch? ==> next.item == item)
  {
  }

  lemma DispatchesIff(s: Crawl, body: Body, i: BodyInput, item: Item)
    ensures var next := BodyActOf(s, body, i).next;
      next.Dispatch? && next.item == item <==> Fetchable(s, body, i.blocked, item)
  {
    match body.pc
    case AtItem =>
      if body.rest != [] {
        ClassifiedDispatches(s, body.(rest := body.rest[1..]), body.rest[0], i.blocked);
      }
    case HoldingVisited(it, _) => ClassifiedDispatches(s, body, it, i.blocked);
    case _ =>
  }

  lemma DispatchStarts(s: Crawl, b: nat, act: BodyAct)
    requires b in s.bodies && s.past.dispatched !in s.fetches
    ensures var r, f := BodyMoved(s, b, act), s.past.dispatched;
      && (f in r.fetches <==> act.next.Dispatch?)
      && (f in r.fetches ==> r.fetches[f] == Fetch(act.next.item, Fetching))
      && r.active == s.active + One(f in r.fetches)
  {
  }

  /** A step fetches an item if and only if it is a re-crawl that is taken up, or a new item that was not
      visited and whose origin has been checked, admissible then, or an item whose robots.txt has come;
      in the last two cases if robots.txt does not block it. */
  lemma FetchesIff(s: Crawl, b: nat, i: BodyInput, item: Item)
    requires Enabled(s, RunBody(b, i)) && s.past.dispatched !in s.fetches
    ensures var r, f := Step(s, RunBody(b, i)), s.past.dispatched;
      && (f in r.fetches && r.fetches[f] == Fetch(item, Fetching) <==> Fetchable(s, s.bodies[b], i.blocked, item))
      && r.active == s.active + One(f in r.fetches)
  {
    DispatchesIff(s, s.bodies[b], i, item);
    DispatchStarts(s, b, BodyActOf(s, s.bodies[b], i));
  }

  // ---------------------------------------------------------------- when robots.txt is asked for

  /** A step goes to ask for the robots.txt of the item. */
  predicate Asks(s: Crawl, r: Crawl, b: nat, item: Item) {
    b in s.bodies && !s.bodies[b].pc.CheckingRobots? && b in r.bodies && r.bodies[b].pc.CheckingRobots?
    && r.bodies[b].pc.item == item
  }

  lemma ClassifiedAsks(s: Crawl, body: Body, item: Item, blocked: bool)
    ensures var act := Classified(s, body, item, blocked);
      && (act.next.Stay? && act.next.body.pc.CheckingRobots?
          <==> Admissible(s, item) && item.depth != RECRAWL && item.url.origin !in s.domainsChecked)
      && (act.next.Stay? && act.next.body.pc.CheckingRobots? ==> act.next.body.pc.item == item)
      && act.domainsChecked == s.domainsChecked + if act.next.Stay? && act.next.body.pc.CheckingRobots?
                                                  then {item.url.origin} else {}
  {
  }

  lemma BodyAsks(s: Crawl, body: Body, i: BodyInput)
    requires !body.pc.CheckingRobots?
    ensures var act := BodyActOf(s, body, i);
      && (act.next.Stay? && act.next.body.pc.CheckingRobots?
          <==> body.pc.HoldingVisited? && !body.pc.visited && Admissible(s, body.pc.item)
               && body.pc.item.depth != RECRAWL && body.pc.item.url.origin !in s.domainsChecked)
      && (act.next.Stay? && act.next.body.pc.CheckingRobots? ==> act.next.body.pc.item == body.pc.item)
      && act.domainsChecked == s.domainsChecked + if act.next.Stay? && act.next.body.pc.CheckingRobots?
                                                  then {body.pc.item.url.origin} else {}
  {
    match body.pc
    case AtItem =>
      if body.rest != [] { ClassifiedAsks(s, body.(rest := body.rest[1..]), body.rest[0], i.blocked); }
    case HoldingVisited(item, _) => ClassifiedAsks(s, body, item, i.blocked);
    case _ =>
  }

  lemma BodyMovedChecked(s: Crawl, b: nat, act: BodyAct)
    requires b in s.bodies
    ensures BodyMoved(s, b, act).domainsChecked == act.domainsChecked
    ensures act.next.Stay? ==> b in BodyMoved(s, b, act).bodies && BodyMoved(s, b, act).bodies[b] == act.next.body
    ensures b in BodyMoved(s, b, act).bodies && !act.next.Stay? ==> BodyMoved(s, b, act).bodies[b].pc == AtItem
  {
  }

  /** A step asks for the robots.txt of an item if and only if the item is new, was not visited, is
      admissible, and its origin has not been checked; from then on it has. */
  lemma AsksIff(s: Crawl, b: nat, i: BodyInput, item: Item)
    requires Enabled(s, RunBody(b, i)) && !s.bodies[b].pc.CheckingRobots?
    ensures var r := Step(s, RunBody(b, i));
      && (Asks(s, r, b, item) <==> s.bodies[b].pc == HoldingVisited(item, false) && Admissible(s, item)
                                   && item.depth != RECRAWL && item.url.origin !in s.domainsChecked)
      && (Asks(s, r, b, item) ==> r.domainsChecked == s.domainsChecked + {item.url.origin})
  {
    BodyAsks(s, s.bodies[b], i);
    BodyMovedChecked(s, b, BodyActOf(s, s.bodies[b], i));
  }

  lemma CheckedStep(s: Crawl, e: Event)
    requires Enabled(s, e)
    ensures s.domainsChecked <= Step(s, e).domainsChecked
  {
    if e.RunBody? {
      BodyMovedChecked(s, e.b, BodyActOf(s, s.bodies[e.b], e.inB));
      if !s.bodies[e.b].pc.CheckingRobots? { BodyAsks(s, s.bodies[e.b], e.inB); }
    }
  }

  lemma {:induction false} CheckedRun(s: Crawl, es: seq<Event>)
    requires Legal(s, es)
    ensures s.domainsChecked <= After(s, es).domainsChecked
    decreases |es|
  {
    if es != [] {
      CheckedStep(s, es[0]);
      CheckedRun(Step(s, es[0]), es[1..]);
    }
  }

  /** A process asks for the robots.txt of an origin at most once. */
  lemma OncePerOrigin(s: Crawl, b: nat, i: BodyInput, item: Item, es: seq<Event>, c: nat, j: BodyInput, other: Item)
    requires Enabled(s, RunBody(b, i)) && Asks(s, Step(s, RunBody(b, i)), b, item)
    requires Legal(Step(s, RunBody(b, i)), es)
    requires var t := After(Step(s, RunBody(b, i)), es);
      Enabled(t, RunBody(c, j)) && Asks(t, Step(t, RunBody(c, j)), c, other)
    ensures other.url.origin != item.url.origin
  {
    var r := Step(s, RunBody(b, i));
    AsksIff(s, b, i, item);
    CheckedRun(r, es);
    AsksIff(After(r, es), c, j, other);
  }

  // ---------------------------------------------------------------- when an item leaves the frontier

  /** The crawl is through with the item at this place of the body. */
  predicate Leaving(s: Crawl, pc: Pc, u: Url) {
    match pc
    case ReadingVisited(item) => item.url == u && Lossless.Gone(s.tables, s.stats.domainBlacklist, u)
    case HoldingVisited(item, visited) =>
      item.url == u && (visited || u.domain == "" || u.domain in s.stats.domainBlacklist)
    case Discarding(v) => v == u
    case _ => false
  }

  /** How many steps it takes from there. */
  function StepsToLeave(pc: Pc): nat {
    match pc case ReadingVisited(_) => 3 case HoldingVisited(_, _) => 2 case _ => 1
  }

  lemma GoneStays(s: Crawl, e: Event, pc: Pc, u: Url)
    requires Enabled(s, e) && Leaving(s, pc, u)
    ensures Leaving(Step(s, e), pc, u)
  {
    StepTables(s, e);
    OpVisited(s.tables, OpOf(s, e));
    BlacklistGrows(s, e);
  }

  lemma BlacklistGrows(s: Crawl, e: Event)
    requires Enabled(s, e)
    ensures s.stats.domainBlacklist <= Step(s, e).stats.domainBlacklist
  {
    if e.RunBody? {
      BodyStats(s, e.b, BodyActOf(s, s.bodies[e.b], e.inB));
    } else if e.RunFetch? {
      Lossless.TalliedGrows(s.stats, s.fetches[e.f].item.url.domain, FetchActOf(s, s.fetches[e.f], e.inF).tally);
    } else {
      ElsewhereOutcomes(s, e);
    }
  }

  lemma LeavingStep(s: Crawl, b: nat, i: BodyInput, u: Url)
    requires Enabled(s, RunBody(b, i)) && Alive(s, b) && Leaving(s, s.bodies[b].pc, u) && i.works
    ensures var r, pc := Step(s, RunBody(b, i)), s.bodies[b].pc;
      if pc.Discarding? then u !in r.tables.frontier
      else Alive(r, b) && Leaving(r, r.bodies[b].pc, u) && StepsToLeave(r.bodies[b].pc) < StepsToLeave(pc)
  {
    OwnBodyStep(s, RunBody(b, i), b);
    if s.bodies[b].pc.ReadingVisited? { BlacklistGrows(s, RunBody(b, i)); }
  }

  /** An item that is visited, or has no domain, or a blacklisted one, is removed: when the body that
      is at it has made the steps it takes, and its statements work, its row has left the frontier. */
  lemma {:induction false} GoneItemLeaves(s: Crawl, es: seq<Event>, b: nat, u: Url)
    requires Alive(s, b) && Leaving(s, s.bodies[b].pc, u) && Legal(s, es)
    requires RepliesWork(es, b) && |Replies(es, b)| >= StepsToLeave(s.bodies[b].pc)
    ensures SometimeOut(s, es, u)
    decreases |es|
  {
    var r := Step(s, es[0]);
    RepliesStep(es, b);
    if !OwnBody(es[0], b) {
      OthersKeepBody(s, es[0], b);
      GoneStays(s, es[0], s.bodies[b].pc, u);
      GoneItemLeaves(r, es[1..], b, u);
    } else {
      LeavingStep(s, b, es[0].inB, u);
      if !s.bodies[b].pc.Discarding? { GoneItemLeaves(r, es[1..], b, u); }
    }
  }

  /** A re-crawl without a domain or on a blacklisted one is about to be discarded; one on a domain at
      its limit is passed over. */
  lemma RecrawlPassed(s: Crawl, b: nat, i: BodyInput)
    requires Enabled(s, RunBody(b, i)) && s.bodies[b].pc == AtItem && s.bodies[b].rest != []
    requires s.active < CONCURRENCY && s.bodies[b].rest[0].depth == RECRAWL && !Admissible(s, s.bodies[b].rest[0])
    ensures var r, item := Step(s, RunBody(b, i)), s.bodies[b].rest[0];
      && b in r.bodies && r.tables == s.tables
      && r.bodies[b].pc == if item.url.domain == "" || item.url.domain in s.stats.domainBlacklist
                           then Discarding(item.url) else AtItem
  {
  }

  predicate BlockedAt(pc: Pc, u: Url) {
    match pc case RobotsMarking(v) => v == u case RobotsDeleting(v) => v == u case _ => false
  }

  lemma {:induction false} BlockedFrom(s: Crawl, es: seq<Event>, b: nat, u: Url)
    requires Alive(s, b) && BlockedAt(s.bodies[b].pc, u) && Legal(s, es)
    requires s.bodies[b].pc.RobotsDeleting? ==> u in s.tables.visited
    requires |Replies(es, b)| >= if s.bodies[b].pc.RobotsMarking? then 2 else 1
    ensures SometimeOut(s, es, u) && u in After(s, es).tables.visited
    decreases |es|
  {
    var r := Step(s, es[0]);
    StepTables(s, es[0]);
    OpVisited(s.tables, OpOf(s, es[0]));
    if !OwnBody(es[0], b) {
      OthersKeepBody(s, es[0], b);
      BlockedFrom(r, es[1..], b, u);
    } else {
      OwnBodyStep(s, es[0], b);
      if s.bodies[b].pc.RobotsMarking? { BlockedFrom(r, es[1..], b, u); } else { VisitedRun(r, es[1..]); }
    }
  }

  lemma BlockedStep(s: Crawl, b: nat, i: BodyInput)
    requires Enabled(s, RunBody(b, i)) && Alive(s, b) && s.bodies[b].pc.CheckingRobots? && i.blocked
    ensures var r := Step(s, RunBody(b, i)); Alive(r, b) && r.bodies[b].pc == RobotsMarking(s.bodies[b].pc.item.url)
  {
    OwnBodyStep(s, RunBody(b, i), b);
  }

  /** An item that robots.txt blocks is given up for good: after two more steps of its body its URL is
      visited, and its row has left the frontier. */
  lemma {:induction false} BlockedItemLeaves(s: Crawl, es: seq<Event>, b: nat, u: Url)
    requires Alive(s, b) && s.bodies[b].pc.CheckingRobots? && s.bodies[b].pc.item.url == u && Legal(s, es)
    requires |Replies(es, b)| >= 3 && Replies(es, b)[0].blocked
    ensures SometimeOut(s, es, u) && u in After(s, es).tables.visited
    decreases |es|
  {
    if !OwnBody(es[0], b) {
      OthersKeepBody(s, es[0], b);
      BlockedItemLeaves(Step(s, es[0]), es[1..], b, u);
    } else {
      BlockedStep(s, b, es[0].inB);
      BlockedFrom(Step(s, es[0]), es[1..], b, u);
    }
  }
}
