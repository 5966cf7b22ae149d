/** The code of startCrawlLoop between its awaits, in place on the loop's variables. Each method is
    one such stretch of code, and is proved to do to the variables and counters exactly what the
    corresponding step of the state machine does: `s` is any machine state that agrees with them. */
module CrawlLoop {
  import opened Prelude
  import opened Database
  import opened CrawlState
  import opened Scheduler

  /** Which bodies are between the check and the dispatch is only remembered: no variable has it. */
  lemma WindowOnly(s: Crawl, b: nat, act: BodyAct, window: nat)
    requires b in s.bodies
    ensures var r, t := BodyMoved(s, b, act), BodyMoved(s, b, act.(window := window));
      && t.active == r.active && t.cursor == r.cursor && t.domainsChecked == r.domainsChecked
      && t.wakeups == r.wakeups && t.stats == r.stats
  {
  }

  class CrawlLoop {
    const state: CrawlState
    var active: int
    var frontierCursor: nat
    var domainsChecked: set<string>
    var scheduled: nat  // calls of processNext that timers still have to make

    constructor (state: CrawlState)
      ensures this.state == state && active == 0 && frontierCursor == 0 && domainsChecked == {} && scheduled == 1
    {
      this.state := state;
      active, frontierCursor, domainsChecked, scheduled := 0, 0, {}, 1;
    }

    ghost predicate Matches(s: Crawl)
      reads this, state
    {
      && active == s.active && frontierCursor == s.cursor && domainsChecked == s.domainsChecked
      && scheduled == s.wakeups && state.View() == s.stats
    }

    /** A scheduled call of processNext begins: lines 184-189. `goesOn` tells it from one that stops. */
    method Begin(ghost s: Crawl) returns (goesOn: bool)
      requires Matches(s) && scheduled > 0
      modifies this`scheduled
      ensures Matches(Started(s))
      ensures if goesOn then s.nextBody in Started(s).bodies else Started(s).past.done && Started(s).bodies == s.bodies
    {
      scheduled := scheduled - 1;
      goesOn := state.nodeCount < MAX_NODES;
    }

    /** Lines 192-196. */
    method AfterYield(ghost s: Crawl, ghost b: nat, body: Body, ghost i: BodyInput) returns (next: BodyNext)
      requires Matches(s) && b in s.bodies && body.pc == Yielding
      ensures next == BodyActOf(s, body, i).next
      ensures Matches(BodyMoved(s, b, BodyActOf(s, body, i)))
    {
      if active >= CONCURRENCY { return End(false); }
      var slots := CONCURRENCY - active;
      if slots <= 0 { return End(false); }
      next := Stay(body.(pc := ReadingBatch(frontierCursor)));
    }

    /** Lines 197-218. */
    method AfterBatch(ghost s: Crawl, ghost b: nat, batch: seq<Item>) returns (next: BodyNext)
      requires Matches(s) && b in s.bodies
      modifies this, state
      ensures next == BatchSeen(s, batch).next
      ensures Matches(BodyMoved(s, b, BatchSeen(s, batch)))
    {
      if |batch| > 0 { frontierCursor := batch[|batch| - 1].id; }
      if |batch| == 0 { frontierCursor := 0; }
      if |batch| == 0 && active == 0 {
        if state.frontierCount < QUEUE_LOW_WATER {
          if state.nodeCount > 0 && !state.recrawlAttempted {
            state.recrawlAttempted := true;
            return Stay(Body(ReadingTargets, [], false));
          }
          state.recrawlAttempted := false;
          return Stay(Body(Seeding, [], false));
        }
        scheduled := scheduled + 1;
        return End(true);
      }
      next := Stay(Body(AtItem, batch, false));
    }

    /** One turn of the item loop up to its first await, or the end of the loop. */
    method AtLoopHead(ghost s: Crawl, ghost b: nat, body: Body, blocked: bool) returns (next: BodyNext)
      requires Matches(s) && b in s.bodies
      modifies this, state
      ensures next == NextItem(s, body, blocked).next
      ensures Matches(BodyMoved(s, b, NextItem(s, body, blocked)))
    {
      if |body.rest| > 0 && active < CONCURRENCY {
        var item, popped := body.rest[0], body.(rest := body.rest[1..]);
        if item.depth != RECRAWL {
          return Stay(popped.(pc := ReadingVisited(item)));
        }
        next := PassGuards(s, b, popped, item, blocked);
        WindowOnly(s, b, Classified(s, popped, item, blocked), NextItem(s, body, blocked).window);
        return;
      }
      if !body.startedAny && active == 0 {
        scheduled := scheduled + 1;
        return End(true);
      }
      next := End(false);
    }

    /** Lines 231-262, from the domain check to the dispatch or the first await before it. */
    method PassGuards(ghost s: Crawl, ghost b: nat, body: Body, item: Item, blocked: bool) returns (next: BodyNext)
      requires Matches(s) && b in s.bodies
      modifies this, state
      ensures next == Classified(s, body, item, blocked).next
      ensures Matches(BodyMoved(s, b, Classified(s, body, item, blocked)))
    {
      var domain := item.url.domain;
      if domain == "" || state.IsDomainBlacklisted(domain) {
        return Stay(body.(pc := Discarding(item.url)));
      }
      var inflight := state.GetInflight(domain);
      if inflight >= DOMAIN_LIMIT {
        return Stay(body.(pc := AtItem));
      }
      if item.depth != RECRAWL {
        if item.url.origin !in domainsChecked {
          domainsChecked := domainsChecked + {item.url.origin};
          return Stay(body.(pc := CheckingRobots(item, inflight)));
        }
        if blocked {
          return Stay(body.(pc := RobotsMarking(item.url)));
        }
      }
      StartFetch(domain, inflight);
      next := Dispatch(item, inflight, body.rest);
    }

    /** The rest of the turn after robots.txt was fetched: lines 247-262. */
    method AfterRobots(ghost s: Crawl, ghost b: nat, body: Body, item: Item, inflight: nat, blocked: bool)
      returns (next: BodyNext)
      requires Matches(s) && b in s.bodies
      modifies this, state
      ensures next == Judged(s, body, item, inflight, blocked).next
      ensures Matches(BodyMoved(s, b, Judged(s, body, item, inflight, blocked)))
    {
      if blocked {
        return Stay(body.(pc := RobotsMarking(item.url)));
      }
      StartFetch(item.url.domain, inflight);
      next := Dispatch(item, inflight, body.rest);
    }

    /** Lines 257-259: `inflight` may be an old reading. */
    method StartFetch(domain: string, inflight: nat)
      modifies this`active, state
      ensures active == old(active) + 1
      ensures state.View() == InflightSet(old(state.View()), domain, inflight + 1)
    {
      active := active + 1;
      state.SetInflight(domain, inflight + 1);
    }

    /** Lines 271-293, after the save: the counters, then the link loop. */
    method AfterSave(ghost s: Crawl, ghost f: nat, ghost i: FetchInput, item: Item, page: Page, links: seq<Url>)
      returns (phase: Phase)
      requires Matches(s) && f in s.fetches && s.fetches[f] == Fetch(item, Saved(page, links))
      modifies this, state
      ensures FetchActOf(s, s.fetches[f], i).next == To(phase)
      ensures Matches(FetchMoved(s, f, FetchActOf(s, s.fetches[f], i)))
    {
      state.IncrementDomainCount(page.dom);
      state.RecordDomainSuccess(item.url.domain);
      state.success := state.success + 1;
      assert state.View() == Tallied(s.stats, item.url.domain, Success(page.dom));
      var batch2 := CollectLinks(state, item.depth, page.url, links);
      phase := if |batch2| > 0 then Linking(batch2) else Settled;
    }

    /** Line 274: the save threw. */
    method AfterSaveError(ghost s: Crawl, ghost f: nat, ghost i: FetchInput, item: Item)
      requires Matches(s) && f in s.fetches && s.fetches[f] == Fetch(item, SaveFailed)
      modifies this, state
      ensures Matches(FetchMoved(s, f, FetchActOf(s, s.fetches[f], i)))
    {
      state.fail := state.fail + 1;
      state.RecordDomainFail(item.url.domain);
    }

    /** Lines 295-297: the fetch, or parsing the page, failed. */
    method AfterFetchError(ghost s: Crawl, ghost f: nat, ghost i: FetchInput, item: Item)
      requires Matches(s) && f in s.fetches && s.fetches[f] == Fetch(item, Fetching) && i.response.None?
      modifies this, state
      ensures Matches(FetchMoved(s, f, FetchActOf(s, s.fetches[f], i)))
    {
      state.fail := state.fail + 1;
      state.RecordDomainFail(item.url.domain);
    }

    /** Lines 299-303, the finally block. */
    method Finally(ghost s: Crawl, ghost f: nat, ghost i: FetchInput, item: Item)
      requires Matches(s) && f in s.fetches && s.fetches[f] == Fetch(item, Settled)
      modifies this, state
      ensures Matches(FetchMoved(s, f, FetchActOf(s, s.fetches[f], i)))
    {
      active := active - 1;
      var inflight: int := state.GetInflight(item.url.domain);
      state.SetInflight(item.url.domain, inflight - 1);
      scheduled := scheduled + 1;
    }
  }
}
