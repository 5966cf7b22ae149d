# A verified model of the web crawler's scheduling and admission logic

The crawler keeps a frontier of URLs in SQLite and works through it with a concurrent loop. This project
models that loop and the stateful parts around it, and proves what they guarantee over every run.

- **Crawl loop** (`src/queue.ts`). `Scheduler` is a state machine: several `processNext` bodies, fetch
  continuations and timers share the tables, the counters and the loop variables, and interleave at every
  await. A step is the code between two awaits, or one database statement, which may fail where the code
  catches failures. The head of the item loop and the statements are steps of their own, so the machine has
  every interleaving of the program and some more. A run is any finite sequence of events; `Turns` states
  what the interleavings on SQLite have in common, where a statement is answered at once, and singles out the
  uninterrupted ones among them. A run is what one process does; `Restarts` is about all processes, each of which
  starts from the tables the one before has left. `CrawlLoop` is the
  same code in place on the loop's variables, each stretch proved to do what the machine's step does.
  On the machine: what becomes of bodies and of the items of a batch (`Items`), of a fetch from its dispatch to its
  end (`Lifecycle`), of the links of a page (`Links`), and of a frontier that has run out (`Refill`), each with
  anything else happening in between; no lost wake-up (`Wakeups`), no lost URL (`Lossless`), consistent tables (`Integrity`), the
  concurrency bound (`Concurrency`), per-domain politeness (`Politeness`) uninterrupted
  runs that exceed the limits of both (`Overshoot`, `Unbounded`), one flight per URL between cursor resets
  (`Flights`), exactly-once accounting and the search index (`Accounting`), the domain-count cache
  (`DomainCache`), and the cursor sweep (`Sweep`).
- **Database and counters** (`src/db.ts`). `Database` holds the tables, statements and transactions;
  `CrawlState` the in-memory counters with the automatic blacklist; `FrontierCleanup` the pass over the
  frontier before the loop.
- **Circuit breaker** (`src/circuit.ts`), **rate limiters** (`src/ratelimit.ts`, `src/redis.ts`), and the
  **deduplicating queue** (`src/kafka.ts`): one class each, with theorems over traces of calls.

A URL is a record of its text and what the URL library reports of it: domain, origin, blacklisted or not.
Fetched pages, robots.txt verdicts, statement failures, seeds and clock readings are inputs of the steps.
Objects that the code updates in place are classes; the crawl loop's theorems, which are about interleavings
of many calls, are about the state machine's values.

Where a plausible property is false of the code, the model keeps the code and states what holds instead:

- `active` can exceed CONCURRENCY, one URL can be in flight twice, and a domain can have more unfinished fetches
  than DOMAIN_LIMIT: `Overshoot.ConcurrencyExceeded` is one run, possible on SQLite, that shows all three, and
  `Unbounded.AnyNumber` reaches any number of unfinished fetches. What holds instead:
  - `active` stays within CONCURRENCY if and only if every body that dispatches after an await finds the check it
    passed before still true (`Concurrency.WithinIffNeverLate`); `Concurrency.ConcurrencyBound` bounds it in general.
  - A second flight of a URL takes a reset of the cursor in between (`Flights.OneFlightPerUrl`).
  - A domain exceeds DOMAIN_LIMIT by at most DOMAIN_LIMIT for each dispatch that writes back a count below the
    counter (`Politeness.PolitenessBound`), so not at all without one; and it is never starved
    (`Politeness.NeverStarves`).
- In-flight counts per domain are exact if and only if no dispatch writes back an outdated reading
  (`Politeness.InflightExact`), which takes a wait for robots.txt during which a fetch of the domain starts or
  finishes (`Politeness.OnlyRobotsWaitRaces`, `Politeness.UntouchedWaitIsExact`).
- A throw of an unguarded await ends the process of the crawler, since nobody handles the rejection. Before the node
  limit the loop stops if and only if that happens (`Wakeups.StopsIffThrown`). The parent process starts it again;
  consistent tables, visited URLs, nodes and the frontier carry over (`Restarts`), unless a start drops a frontier
  that is too large (`Restarts.DropLoses`).
- A rebuild of the search index that fails half-way leaves it empty (`Database.RebuildOutcome`).
- `enqueueBatch` loses the new URLs of a batch whose send fails (`UrlQueue.FailedBatchIsLost`), although its catch
  block is written to queue them.
- The search index keeps rows of earlier versions of a node; `Accounting.IndexContents` states its exact contents.
- Kafka messages can break the consistency of the tables, exactly when their depth or parent is bad
  (`Integrity.InsertConsistentIff`).

## Model

| member | source | states |
|---|---|---|
| `Wakeups.NoLostWakeup` | src/queue.ts:184-311 | In every interleaving `active` is the number of unfinished fetches. All along a run the process is up and there is an unfinished fetch, a scheduled `processNext`, or a live body that has started no fetch, until a body sees MAX_NODES, if and only if no unguarded await of the run throws |
| `Wakeups.RunningStep` | src/queue.ts:184-309 | Only a throw takes the last chance to go on away |
| `Wakeups.Progress` | src/queue.ts:184-309 | Every scheduled call, live body and unfinished fetch has an enabled next step |
| `Wakeups.StopsIffThrown` | src/queue.ts:184-309 | In a reachable state before the node limit no step of the loop is possible if and only if an unguarded await has thrown |
| `Restarts.ConsistentForever` | server.ts:182-189 | Through any number of processes without Kafka input, however they end and whatever their starts clean up, rebuild and seed, the tables stay consistent |
| `Restarts.GrowsForever` | server.ts:182-189 | Visited URLs and nodes are never forgotten by a later process |
| `Restarts.NoUrlLostForever` | server.ts:182-189 | Unless a start drops the frontier, each URL that was ever in the frontier of some process is still there when a later one ends, or visited, without a domain, or on a domain that some process had blacklisted |
| `Restarts.DropLoses` | src/queue.ts:51-63 | A start that drops the frontier loses exactly the unvisited URLs that are not seeds |
| `Wakeups.StoppedForever` | src/queue.ts:184-340 | A loop of a process without a possible step has none ever again, whatever the timers do |
| `Wakeups.ThrowStops` | src/queue.ts:196-196 | It happens: the very first getBatch can throw |
| `Lossless.NoUrlLost` | src/queue.ts:221-303 | Every URL ever in the frontier is still there, visited, without a domain, or on a blacklisted domain, in every interleaving, from any tables, with any statement failures and Kafka input |
| `Lossless.OpAdvances` | src/db.ts:64-97 | No statement but a delete can lose a URL, and a delete does not when the crawl is through with what it deletes |
| `Lossless.BodyActKnows` | src/queue.ts:223-255 | A body deletes only URLs that are visited, have no domain, or are on a blacklisted domain, whatever ran during its awaits |
| `Lossless.NothingForgotten` | src/queue.ts:184-340 | Visited URLs, nodes and blacklisted domains are never forgotten in the course of a run |
| `Integrity.TablesStayConsistent` | src/queue.ts:204-293 | Without Kafka input: node URLs are visited, node depths are in 0..MAX_DEPTH, frontier depths in -1..MAX_DEPTH, and every non-null parent of a node, of a row, of any item a body holds (batch, rest, current item) or of an unfinished fetch is a stored node |
| `Integrity.InsertConsistentIff` | src/queue.ts:19-22 | An insertion with arbitrary depth and parent, as from Kafka, keeps the tables consistent if and only if it is ignored or its depth is in range and its parent stored |
| `Integrity.FollowedGood` | src/queue.ts:281-291 | Links are inserted one level deeper than their page, within MAX_DEPTH, with the page as parent |
| `Links.ChoosesExactly` | src/queue.ts:280-292 | The links a fetch chooses are, in page order, exactly those that are not on the static blacklist, within MAX_DEPTH, on a domain that is neither blacklisted nor full by the cache, while the disk is not paused and no limit on nodes or rows is reached; one level deeper, with the page as parent |
| `Links.RefreshCounts` | src/db.ts:128-134 | A refresh whose statements work makes the two counters the numbers of node rows and of frontier rows |
| `Links.FullStops` | src/queue.ts:185-187 | After a refresh that has counted MAX_NODES nodes no scheduled call ever starts a body again, and no fetch chooses a link |
| `Links.WakeStarts` | src/queue.ts:184-190 | A scheduled call starts exactly one body below the limit, and none at it |
| `Links.TimersDo` | src/queue.ts:313-355 | Each timer, seed and Kafka event does its one thing to the tables or counters |
| `Lifecycle.GivesUp` | src/queue.ts:275-298 | When a re-crawl or a failed fetch is finished and its own statements have worked, its URL is visited and its row has left the frontier since |
| `Lifecycle.StoresPage` | src/queue.ts:267-273 | When a new page has been fetched and its statements have worked, there was a moment at which it had just been stored, column by column, with both URLs visited and out of the frontier, other nodes as before, and an index row if that insert works |
| `Lifecycle.FailedSaveLeaves` | src/queue.ts:274-274 | A fetch whose save fails changes the tables in none of its steps: its URL is left for later |
| `Lifecycle.LinksArrive` | src/queue.ts:293-293 | Links a fetch has chosen are all in the frontier at some moment before it is finished, old rows unchanged and new ones with the depth and parent of a chosen link |
| `Lifecycle.ReportsVerdict` | src/queue.ts:262-298 | What a finished fetch has added to the totals and to its domain: one failure if the fetch or save failed, one success otherwise, and for a re-crawl a success in all but not of the domain |
| `Lifecycle.EndSchedulesOne` | src/queue.ts:299-303 | The end of a fetch schedules exactly one call and lowers `active` by one, and no other step of it does either |
| `Items.YieldGoesOn` | src/queue.ts:190-196 | A body reads a batch if and only if fewer than CONCURRENCY fetches are unfinished |
| `Items.BatchIsTaken` | src/queue.ts:196-221 | A body takes all rows of a batch in their order, and the cursor moves to the last |
| `Items.LoopGoesOn` | src/queue.ts:221-222 | The item loop goes on if and only if there is an item and fewer than CONCURRENCY fetches are unfinished; at its end a call is scheduled if and only if nothing was started and nothing is unfinished |
| `Items.FetchesIff` | src/queue.ts:223-259 | Exactly when a step fetches an item, in terms of the item, the counters, the blacklist and the robots verdict |
| `Items.AsksIff` | src/queue.ts:240-246 | Exactly when a step asks for the robots.txt of an item, and that its origin counts as checked from then on |
| `Items.OncePerOrigin` | src/queue.ts:243-245 | A process asks for the robots.txt of an origin at most once |
| `Items.GoneItemLeaves` | src/queue.ts:225-236 | An item that is visited, has no domain, or a blacklisted one leaves the frontier once its body has made the steps it takes and they work |
| `Items.BlockedItemLeaves` | src/queue.ts:247-253 | An item that robots.txt blocks is visited and has left the frontier after two more steps of its body |
| `Refill.Chooses` | src/queue.ts:199-214 | With a low row count and nothing unfinished, an empty batch leads to the re-crawl targets if there are nodes and they have not been tried, and to the seeds otherwise |
| `Refill.Refills` | src/queue.ts:199-217 | By the end of that body it has asked for targets, or gone through all seeds, and every target, and every seed that was not visited, has been offered to the frontier with its depth |
| `Refill.TakeTurns` | src/queue.ts:201-213 | Of two such times in a row with nodes stored and the flag untouched, one goes to the seeds and the other to the re-crawls |
| `Refill.Waits` | src/queue.ts:197-218 | Otherwise an empty batch is waited out: one call in 500 ms, or nothing while a fetch is unfinished |
| `Concurrency.ConcurrencyBound` | src/queue.ts:222-257 | `active` is the number of unfinished fetches and at most CONCURRENCY - 1 + M, where M is the most bodies ever between the check and the increment at once; with M at most 1 it is at most CONCURRENCY |
| `Concurrency.WithinIffNeverLate` | src/queue.ts:222-257 | `active` is at most CONCURRENCY all along a run if and only if no body past the check dispatches while the check would fail |
| `Concurrency.WindowDrains` | src/queue.ts:243-259 | Any number of bodies waiting for robots.txt can all dispatch, whatever `active` is |
| `Unbounded.AnyNumber` | src/queue.ts:192-303 | For every n an uninterrupted run from an initial state ends with n unfinished fetches |
| `Flights.OneFlightPerUrl` | src/queue.ts:196-303 | On SQLite, without Kafka input and from consistent tables: two fetches unfinished at the same time have different URLs if the cursor has not been reset since a moment when nobody held an item, such as the start |
| `Flights.FlightStep` | src/queue.ts:196-303 | What keeps it: held items are different rows at most at the cursor, each still in the table unless the crawl is through with its URL, and of two with one URL the later is bound to be discarded |
| `Overshoot.ConcurrencyExceeded` | src/queue.ts:192-303 | An uninterrupted run from an initial state with three unfinished fetches under CONCURRENCY 2, all on one domain under DOMAIN_LIMIT 2, two of them for one URL, and the counter of the domain at 1 |
| `Politeness.InflightInRange` | src/db.ts:171-177 | Every in-flight count stays in 0..DOMAIN_LIMIT in every interleaving |
| `Politeness.DispatchExact` | src/queue.ts:237-259 | A dispatch keeps the counts equal to the true numbers of unfinished fetches if and only if the count it read is still current |
| `Politeness.InflightExact` | src/queue.ts:237-302 | All along a run the counts are exact if and only if every dispatch writes back the current count plus one; they then sum to `active` |
| `Politeness.OnlyRobotsWaitRaces` | src/queue.ts:240-259 | Only a dispatch that waited for robots.txt can write back an outdated count; re-crawls and items of a checked origin cannot |
| `Politeness.UntouchedWaitIsExact` | src/queue.ts:237-259 | If no fetch of the domain starts or finishes during the wait, the dispatch after it writes back a current count |
| `Politeness.PoliteUnlessRaced` | src/queue.ts:237-259 | Without an outdated write no domain ever has more than DOMAIN_LIMIT unfinished fetches |
| `Politeness.PolitenessBound` | src/queue.ts:237-302 | In every run a domain has at most DOMAIN_LIMIT unfinished fetches, and DOMAIN_LIMIT more for each dispatch after a robots.txt wait that wrote back a count below the counter |
| `Politeness.NeverStarves` | src/queue.ts:237-302 | However the counts drift, a domain's count stays less than DOMAIN_LIMIT above its unfinished fetches, so a domain without any is never held back |
| `Politeness.FetchedItemsPassed` | src/queue.ts:231-259 | Every item a run fetches has, at one moment of the run, passed together: domain known, not blacklisted, and below the limit by the very count the dispatch uses |
| `Politeness.DispatchGuards` | src/queue.ts:225-255 | The step that reads the count comes from a negative visited check or a re-crawl, with all guards holding; after a wait for robots.txt only the verdict is looked at, and item and count are the remembered ones |
| `Accounting.EachReportsOnce` | src/queue.ts:262-303 | In every interleaving each dispatched fetch reports to the counters exactly once over its life, and not before it leaves the unreported phases |
| `Accounting.ExactlyOnce` | src/queue.ts:262-303 | Successes, failures and unreported fetches add up to the dispatched ones; per-domain failures sum to `fail`, per-domain successes plus re-crawls to `success` |
| `Accounting.IndexFollowsNodes` | src/db.ts:80-90 | In every interleaving until an index insert fails: each stored node has an index row with its current fields, and each index row is of a stored node |
| `Accounting.IndexContents` | src/db.ts:80-90 | The index is exactly its contents at the start of the run, such as those after a rebuild, and one row per save since whose index insert worked |
| `DomainCache.NeverUndercounts` | src/db.ts:136-151 | For every domain, stored nodes are at most the cached count plus saves committed but not counted, through upserts, increments and full refreshes at any time |
| `DomainCache.LinksRespectDomainMax` | src/queue.ts:270-290 | A link is chosen only to a domain that holds fewer than DOMAIN_MAX nodes, up to the saves pending on it |
| `Scheduler.CollectLinks` | src/queue.ts:280-292 | The link loop with its early exits computes what `Links.ChoosesExactly` characterises |
| `Scheduler.NoneFollowed` | src/queue.ts:285-287 | Links after an early exit would not have been chosen |
| `CrawlLoop.CrawlLoop.Begin` | src/queue.ts:184-189 | In place: a scheduled call starts a body, or stops at MAX_NODES |
| `CrawlLoop.CrawlLoop.AfterYield` | src/queue.ts:192-196 | In place: agrees with the machine's step after the yield |
| `CrawlLoop.CrawlLoop.AfterBatch` | src/queue.ts:197-218 | In place: cursor, re-crawl and seed branches, and the 500 ms retry agree with the machine's step |
| `CrawlLoop.CrawlLoop.AtLoopHead` | src/queue.ts:220-224 | In place: one turn of the item loop, or its end with line 306, agrees with the machine's step |
| `CrawlLoop.CrawlLoop.PassGuards` | src/queue.ts:231-259 | In place: the guards from the domain check to the dispatch agree with the machine's step |
| `CrawlLoop.CrawlLoop.AfterRobots` | src/queue.ts:247-259 | In place: the robots verdict and the dispatch with an old reading agree with the machine's step |
| `CrawlLoop.CrawlLoop.AfterSave` | src/queue.ts:271-293 | In place: counters and link loop after a save agree with the machine's step |
| `CrawlLoop.CrawlLoop.AfterSaveError` | src/queue.ts:274-274 | In place: a failed save agrees with the machine's step |
| `CrawlLoop.CrawlLoop.AfterFetchError` | src/queue.ts:294-297 | In place: a failed fetch agrees with the machine's step |
| `CrawlLoop.CrawlLoop.Finally` | src/queue.ts:299-303 | In place: the finally block agrees with the machine's step |
| `Sweep.SweepCoverage` | src/queue.ts:196-198 | A row that stays up to the next empty batch is read exactly once by then if the cursor is below it now, and not at all otherwise, despite inserts and deletes |
| `Sweep.LoopSweeps` | src/queue.ts:196-198 | In every run of the crawl loop on SQLite: what all bodies together get from one reset of the cursor to the next is in ascending id order and holds every row that stays exactly once; from the middle of a sweep, exactly the rows above the cursor |
| `Turns.SteadyStep` | src/queue.ts:196-198 | On SQLite a batch a body holds is still what the table holds above the cursor |
| `Sweep.SweptAscends` | src/db.ts:63-63 | Rows of a sweep come in strictly ascending id order |
| `Sweep.SweepEnds` | src/queue.ts:196-198 | Without inserts, more reads than rows above the cursor include an empty one |
| `Database.CrawlDb.SaveNode` | src/db.ts:81-90 | All or nothing for any failing statement: node upserted, both URLs visited and out of the frontier, index row added if its insert works |
| `Database.CrawlDb.InsertManyFrontier` | src/db.ts:92-94 | All items are inserted, or none |
| `Database.InsertManyFrame` | src/db.ts:62-62 | INSERT OR IGNORE keeps old rows, and ids stay unique and growing |
| `Database.InsertManyKeys` | src/db.ts:92-94 | Exactly the URLs of the batch gain a row |
| `Database.InsertManyOrigin` | src/db.ts:62-62 | A new row carries depth and parent of the first item with its URL |
| `Database.BatchRows` | src/db.ts:63-63 | A batch holds at most the limit of rows above the cursor, in strictly ascending id order |
| `Database.BatchComplete` | src/db.ts:63-63 | A row above the cursor is in the batch unless the limit cut it off |
| `Database.SaveKeepsIndex` | src/db.ts:81-90 | A save keeps the index current if and only if its index insert works or an equal row was there |
| `Database.RebuildIsExact` | src/db.ts:74-74 | After a rebuild each node has exactly one index row and there are no others |
| `Database.RebuildOutcome` | src/queue.ts:111-120 | A rebuild attempt loses the index if and only if the delete works, the insert does not, and there are nodes |
| `Database.CrawlDb.RebuildFtsIfNeeded` | src/queue.ts:106-124 | Rebuilds only below 80 percent coverage, and changes nothing but the index |
| `Database.CrawlDb.DeleteVisitedRows` | src/db.ts:65-65 | Removes the limit, or all, of the rows whose URL is visited, and nothing else; `changes` is the number removed |
| `FrontierCleanup.RemoveVisited` | src/queue.ts:64-101 | Ends under any pattern of statement errors, removes only visited rows, counts them, and leaves exactly the unvisited rows unless a round was given up |
| `FrontierCleanup.CleanupFrontier` | src/queue.ts:51-104 | Above FRONTIER_MAX the frontier is dropped and ids start over, as far as the three statements work, and the table is missing exactly when only the first one does; otherwise as above |
| `CrawlState.CrawlState.Refresh` | src/db.ts:128-134 | `nodeCount` becomes the number of nodes and `frontierCount` the number of frontier rows, each if its statement is reached and works |
| `CrawlState.CrawlState.FullRefresh` | src/db.ts:136-143 | The same, and the cache becomes the number of nodes of each domain, if the query works |
| `CrawlState.CrawlState.IncrementDomainCount` | src/db.ts:149-151 | The cached count of one domain grows by one |
| `CrawlState.CrawlState.RecordDomainSuccess` | src/db.ts:153-155 | One success more for one domain |
| `CrawlState.CrawlState.RecordDomainFail` | src/db.ts:157-165 | One failure more for one domain; only it may enter the blacklist |
| `CrawlState.CrawlState.SetInflight` | src/db.ts:175-177 | Sets one count, never below zero |
| `CrawlState.BlacklistedIff` | src/db.ts:153-169 | A domain is blacklisted if and only if some prefix of the history ends in its failure with at least 20 outcomes, more than nine tenths failures |
| `Accounting.BlacklistOfRun` | src/queue.ts:270-297 | In every interleaving that history is the outcomes the fetches of the run report, in order |
| `CrawlState.AllFailing` | src/db.ts:157-165 | A domain that never succeeds enters with its 20th failure |
| `CircuitBreaker.CircuitBreaker.constructor` | src/circuit.ts:23-38 | Defaults apply and the breaker starts CLOSED |
| `CircuitBreaker.CircuitBreaker.CurrentState` | src/circuit.ts:40-47 | OPEN becomes HALF_OPEN once the timeout is over |
| `CircuitBreaker.CircuitBreaker.Admission` | src/circuit.ts:49-63 | Computes the admission that `CalmAdmits`, `OpenAdmitsIff` and `EpisodeEnds` characterise, and the state it leaves |
| `CircuitBreaker.CircuitBreaker.OnSuccess` | src/circuit.ts:76-85 | The state after a reported success |
| `CircuitBreaker.CircuitBreaker.OnFailure` | src/circuit.ts:87-96 | The state after a reported failure |
| `CircuitBreaker.CircuitBreaker.Transition` | src/circuit.ts:98-113 | The counters a transition resets |
| `CircuitBreaker.LeakIsMaxSuffix` | src/circuit.ts:84-88 | The leaky counter is the largest excess of failures over successes in a suffix of the outcomes |
| `CircuitBreaker.ClosedIffCalm` | src/circuit.ts:76-96 | Since CLOSED was entered the breaker has been CLOSED all along if and only if no stretch of outcomes has `failureThreshold` more failures than successes; until then its counter is that largest excess |
| `CircuitBreaker.ClosedBegins` | src/circuit.ts:76-83 | CLOSED is entered only by a success in HALF_OPEN, with no failure counted |
| `CircuitBreaker.CalmAdmits` | src/circuit.ts:49-66 | From the start, or from the success that closes the breaker, every call is admitted while no stretch of the outcomes since has `failureThreshold` more failures than successes |
| `CircuitBreaker.OpenAdmitsIff` | src/circuit.ts:40-54 | In OPEN a call is admitted if and only if `resetTimeout` has passed since the last failure reported in any state |
| `CircuitBreaker.TripHolds` | src/circuit.ts:40-54 | After a failure at t0 leaves it OPEN, no call is admitted before t0 + resetTimeout, whatever earlier calls report |
| `CircuitBreaker.EpisodeBegins` | src/circuit.ts:40-62 | HALF_OPEN is entered only from OPEN after the timeout, by a poll or by a call, which is then admitted as the first attempt |
| `CircuitBreaker.EpisodeEnds` | src/circuit.ts:40-93 | In a HALF_OPEN episode, however entered, a call is admitted if and only if fewer than halfOpenMax have been, the entering one included, and no failure is reported; it closes with exactly the halfOpenMax-th success, opens with a failure or an excess attempt, and ends in no other way |
| `CircuitBreaker.RejectionNeedsOverlap` | src/circuit.ts:56-61 | CLOSED as long as no failure was reported; a HALF_OPEN rejection needs an unfinished call, so sequential runs never meet it |
| `CircuitBreaker.RejectionReachable` | src/circuit.ts:56-61 | With overlapping calls the rejection does happen |
| `RateLimit.RateLimiter.GetClient` | src/ratelimit.ts:26-34 | The record in force, renewed when its window is over |
| `RateLimit.RateLimiter.AllowPage` | src/ratelimit.ts:52-59 | Decision and new record of a page request |
| `RateLimit.RateLimiter.AllowSearch` | src/ratelimit.ts:78-85 | Decision and new record of a search request |
| `RateLimit.RateLimiter.CleanupClients` | src/ratelimit.ts:88-93 | Exactly the records older than two windows go |
| `RateLimit.PerWindow` | src/ratelimit.ts:26-59 | In a window exactly the first requests of each kind are admitted, up to the limit |
| `RateLimit.AdmittedIffAmongFirst` | src/ratelimit.ts:26-59 | A request is admitted if and only if it is among the first requests of its kind, up to the limit, in its window, which lasts RATE_LIMIT_WINDOW_MS from the request that opens it, that moment included |
| `RateLimit.TwiceTheLimit` | src/ratelimit.ts:26-59 | At most twice the limit in any interval as long as a window, for any trace of both kinds |
| `RateLimit.DecisionsAreLocal` | src/ratelimit.ts:88-93 | Neither other clients nor cleanups at any times ever change a decision |
| `RateLimit.LimiterBound` | src/ratelimit.ts:26-93 | The bound for the whole limiter, with any clients and cleanups |
| `RedisLimiter.RedisRateLimiter.IsAllowed` | src/redis.ts:62-80 | Trim, add, count and expiry of one key; a count that fails lets the request pass; the fallback when Redis does not answer |
| `RedisLimiter.RedisRateLimiter.LocalFallback` | src/redis.ts:82-92 | Decision and new entry of the fallback |
| `RedisLimiter.AllowedIffFewRecent` | src/redis.ts:68-76 | Allowed if and only if the requests later than windowMs ago, allowed or not and this one included, are at most maxRequests; key expiry never matters |
| `RedisLimiter.SlidingBound` | src/redis.ts:68-76 | No interval (t - windowMs, t] holds more than maxRequests allowed requests |
| `RedisLimiter.LogAgrees` | src/redis.ts:70-73 | Above the edge of the window the trimmed, expiring log equals the full history |
| `RedisLimiter.FallbackIsFixedWindow` | src/redis.ts:82-92 | The fallback decides as the in-memory limiter does for requests of its kind |
| `UrlQueue.KafkaUrlQueue.Enqueue` | src/kafka.ts:93-120 | Accepts unseen URLs, evicts the oldest half beyond the limit, queues locally without Kafka or when the send fails |
| `UrlQueue.KafkaUrlQueue.Remember` | src/kafka.ts:95-99 | The eviction loop removes exactly the oldest half |
| `UrlQueue.KafkaUrlQueue.OfferAll` | src/kafka.ts:124-130 | The batch loop is a sequence of offers without eviction |
| `UrlQueue.KafkaUrlQueue.BuildMessages` | src/kafka.ts:134-144 | The messages are the URLs not seen before, and are remembered before the send |
| `UrlQueue.KafkaUrlQueue.Dequeue` | src/kafka.ts:157-159 | Takes the oldest item, if any |
| `UrlQueue.FailedBatchIsLost` | src/kafka.ts:133-154 | After a failed send the catch block queues nothing: exactly the unseen URLs are lost, and refused from then on |
| `UrlQueue.FirstInFirstOut` | src/kafka.ts:101-159 | Without Kafka, dequeued items followed by queued ones are the accepted ones |
| `UrlQueue.SeenIsLatest` | src/kafka.ts:93-131 | The remembered set is the latest part of the accepted URLs, at least half the limit plus one unless fewer were accepted |
| `UrlQueue.AcceptancesApart` | src/kafka.ts:93-131 | Two acceptances of one URL are more than half the limit plus one acceptances apart |
| `UrlQueue.SeenBounded` | src/kafka.ts:93-99 | With enqueue only, the set never exceeds its limit |
| `UrlQueue.QueuedIffNotRecent` | src/kafka.ts:93-104 | With enqueue and dequeue only, a URL is queued if and only if it is none of the last Kept(n) of the n queued so far, where Kept(n) is n up to the limit and half the limit fewer each time that is exceeded |

## Left out

- Sweep.LoopSweeps: relies on what SQLite runs have in common, that a body that reads a batch moves the cursor before anything else happens; where statements really wait, a body can write back an older cursor after a reset.
- Flights.OneFlightPerUrl: one direction; a reset of the cursor makes a second flight possible, and whether it happens depends on when robots.txt and the pages answer.
- Restarts.ConsistentForever: the start of a process is its effect on the tables; a start that itself fails, and the limit of ten restarts, are left out.
- RedisLimiter.RedisRateLimiter.IsAllowed: of the four commands of the pipeline only the count can fail on its own.
- RedisLimiter.AllowedIffFewRecent: takes the pipeline as atomic and its count as answered, and set members as distinct, although two requests of one millisecond could draw the same random suffix.
- UrlQueue.FailedBatchIsLost: no other call runs between the send and its failure; one that evicts in between would let the catch block queue the evicted URLs.
- UrlQueue.KafkaUrlQueue.Enqueue: the send and its failure are one step, so the order of local items from failing sends that overlap is not modelled.
- CrawlState.CrawlState.RecordDomainFail: the failure share is exact instead of a double; the comparison with 0.9 agrees for all counts that occur.
- CircuitBreaker.CircuitBreaker.constructor: options are natural numbers; negative and fractional ones are not modelled. Log lines, the status report and the registry of breakers are left out.
- Database.CrawlDb.RebuildFtsIfNeeded: nothing else runs between its two statements, as is the case before the loop starts.
- Scheduler.CollectLinks: `getDomain` and the static blacklist are fields of a URL instead of computed.
- The seeding timer inserts any URL at any moment: its visited check is not modelled, since it says nothing about the moment of the insertion.
- Seeds are arbitrary URLs; how the batch is drawn from the lists is left out.
- Fetching, DNS, TLS, charset decoding, page and robots.txt parsing: arbitrary inputs.
- The PostgreSQL backend, where a full refresh is not atomic.
- Kafka transport and partitions; a delivered message is one event with arbitrary contents.
- The other Redis and Elasticsearch clients, the server, dashboards, metrics, scripts and deployment.
- Retry-After headers, RetryStrategy, the container, migrations: they would only add easy members.
- Timers fire at any time; their durations, disk usage and garbage collection are left out.
