/** RedisRateLimiter of src/redis.ts: a sliding log in a Redis sorted set, with an in-memory fixed
    window when Redis does not answer. The pipeline of four commands is one step, and the random
    suffix of a member makes members distinct, so a sorted set is the sequence of its scores. */
module RedisLimiter {
  import opened Prelude
  import RateLimit

  /** A sorted set of clock readings and the time its key expires. */
  datatype Log = Log(scores: seq<nat>, expireAt: nat)

  datatype Entry = Entry(count: nat, windowStart: int)

  /** The scores above `edge`: what ZREMRANGEBYSCORE key 0 edge leaves, scores being non-negative. */
  function Above(scores: seq<nat>, edge: int): seq<nat> {
    if scores == [] then []
    else
      var front, last := scores[..|scores| - 1], scores[|scores| - 1];
      if last > edge then Above(front, edge) + [last] else Above(front, edge)
  }

  function Scores(l: Option<Log>): seq<nat> { if l.Some? then l.value.scores else [] }

  /** One pipeline: trim, add, count, and renew the expiry. The count is the length of the result. */
  function Logged(l: Option<Log>, now: nat, windowMs: nat): Log {
    Log(Above(Scores(l), now - windowMs) + [now], now + windowMs)
  }

  function Counted(e: Option<Entry>, now: int, windowMs: nat): Entry {
    if e.None? || now - e.value.windowStart > windowMs then Entry(1, now) else e.value.(count := e.value.count + 1)
  }

  /** What comes back from Redis: no answer, or the answers of the pipeline, where the count may be
      an error. */
  datatype Reply = Unreachable | Answered(counts: bool)

  // ---------------------------------------------------------------- the object

  class RedisRateLimiter {
    const maxRequests: nat
    const windowMs: nat
    var store: map<string, Log>             // the limiter's keys in Redis
    var localFallback: map<string, Entry>

    constructor (maxRequests: nat, windowMs: nat)
      ensures this.maxRequests == maxRequests && this.windowMs == windowMs
      ensures store == map[] && localFallback == map[]
    {
      this.maxRequests, this.windowMs := maxRequests, windowMs;
      store, localFallback := map[], map[];
    }

    function LogOf(key: string): Option<Log>
      reads this
    {
      if key in store then Some(store[key]) else None
    }

    function EntryOf(key: string): Option<Entry>
      reads this
    {
      if key in localFallback then Some(localFallback[key]) else None
    }

    method ZRemRangeByScore(key: string, edge: int)
      modifies this`store
      ensures key in old(store) ==>
                var l := old(store)[key];
                store == old(store)[key := l.(scores := Above(l.scores, edge))]
      ensures key !in old(store) ==> store == old(store)
    {
      if key in store {
        var scores := store[key].scores;
        var kept: seq<nat> := [];
        for k := 0 to |scores|
          invariant kept == Above(scores[..k], edge)
        {
          assert scores[..k + 1][..k] == scores[..k];
          if scores[k] > edge { kept := kept + [scores[k]]; }
        }
        assert scores[..|scores|] == scores;
        store := store[key := store[key].(scores := kept)];
      }
    }

    /** A count that fails inside the pipeline reads as 0, and the request is allowed. */
    method IsAllowed(key: string, now: nat, reply: Reply) returns (allowed: bool)
      modifies this
      ensures reply.Answered? ==>
                var l := Logged(old(LogOf(key)), now, windowMs);
                && store == old(store)[key := l] && localFallback == old(localFallback)
                && allowed == (!reply.counts || |l.scores| <= maxRequests)
      ensures reply == Unreachable ==>
                var e := Counted(old(EntryOf(key)), now, windowMs);
                && localFallback == old(localFallback)[key := e] && store == old(store)
                && allowed == (e.count <= maxRequests)
    {
      if reply == Unreachable {
        allowed := LocalFallback(key, now);
        return;
      }
      var result := Pipeline(key, now);
      var count := if reply.counts then result else 0;
      allowed := count <= maxRequests;
    }

    /** The four commands, answered by the count. */
    method Pipeline(key: string, now: nat) returns (count: nat)
      modifies this`store
      ensures var l := Logged(old(LogOf(key)), now, windowMs);
        store == old(store)[key := l] && count == |l.scores|
    {
      ZRemRangeByScore(key, now - windowMs);
      var scores := if key in store then store[key].scores else [];
      store := store[key := Log(scores + [now], now + windowMs)];
      count := |store[key].scores|;
      assert store == old(store)[key := Logged(old(LogOf(key)), now, windowMs)];
    }

    method LocalFallback(key: string, now: int) returns (allowed: bool)
      modifies this`localFallback
      ensures var e := Counted(old(EntryOf(key)), now, windowMs);
        localFallback == old(localFallback)[key := e] && allowed == (e.count <= maxRequests)
    {
      var entry := if key in localFallback then localFallback[key] else Entry(0, now);
      if now - entry.windowStart > windowMs {
        entry := Entry(0, now);
      }
      entry := entry.(count := entry.count + 1);
      localFallback := localFallback[key := entry];
      allowed := entry.count <= maxRequests;
    }
  }

  // ---------------------------------------------------------------- the sliding log of one key

  datatype Event = Request(now: nat) | Expiry(now: nat)

  /** The key's log after a trace. Redis may drop the key once its expiry time has come. */
  function LogAfter(es: seq<Event>, windowMs: nat): Option<Log> {
    if es == [] then None
    else
      var l := LogAfter(es[..|es| - 1], windowMs);
      match es[|es| - 1]
      case Request(now) => Some(Logged(l, now, windowMs))
      case Expiry(now) => if l.Some? && now >= l.value.expireAt then None else l
  }

  /** The clock readings of all requests, allowed or not. */
  function Times(es: seq<Event>): seq<nat> {
    if es == [] then []
    else
      var front := Times(es[..|es| - 1]);
      match es[|es| - 1] case Request(now) => front + [now] case Expiry(_) => front
  }

  predicate Clocked(es: seq<Event>) { forall j, k | 0 <= j < k < |es| :: es[j].now <= es[k].now }

  function Decision(es: seq<Event>, now: nat, maxRequests: nat, windowMs: nat): bool {
    |Logged(LogAfter(es, windowMs), now, windowMs).scores| <= maxRequests
  }

  lemma AboveSnoc(scores: seq<nat>, x: nat, edge: int)
    ensures Above(scores + [x], edge) == if x > edge then Above(scores, edge) + [x] else Above(scores, edge)
  {
    assert (scores + [x])[..|scores|] == scores;
  }

  lemma {:induction false} AboveAbove(scores: seq<nat>, low: int, high: int)
    requires low <= high
    ensures Above(Above(scores, low), high) == Above(scores, high)
    ensures |Above(scores, high)| <= |Above(scores, low)|
  {
    if scores != [] {
      var front, last := scores[..|scores| - 1], scores[|scores| - 1];
      AboveAbove(front, low, high);
      if last > low { AboveSnoc(Above(front, low), last, high); }
    }
  }

  lemma {:induction false} AboveAll(scores: seq<nat>, edge: int)
    requires forall k | 0 <= k < |scores| :: scores[k] <= edge
    ensures Above(scores, edge) == []
  {
    if scores != [] { AboveAll(scores[..|scores| - 1], edge); }
  }

  predicate AtMost(ts: seq<nat>, bound: int) { forall k | 0 <= k < |ts| :: ts[k] <= bound }

  /** Requests are not in the future, and the key lives for windowMs after the last of them. */
  lemma {:induction false} TimesBounded(es: seq<Event>, windowMs: nat)
    requires Clocked(es)
    ensures if es == [] then Times(es) == [] else AtMost(Times(es), es[|es| - 1].now)
    ensures LogAfter(es, windowMs).Some? ==> AtMost(Times(es), LogAfter(es, windowMs).value.expireAt - windowMs)
  {
    if es != [] {
      TimesBounded(es[..|es| - 1], windowMs);
      if |es| > 1 { assert es[|es| - 2].now <= es[|es| - 1].now; }
    }
  }

  lemma SnocAgrees(scores: seq<nat>, ts: seq<nat>, now: nat, edge: int)
    requires Above(scores, edge) == Above(ts, edge)
    ensures Above(scores + [now], edge) == Above(ts + [now], edge)
  {
    AboveSnoc(scores, now, edge);
    AboveSnoc(ts, now, edge);
  }

  lemma LoggedAgrees(l: Option<Log>, ts: seq<nat>, now: nat, windowMs: nat, edge: int)
    requires edge >= now - windowMs && Above(Scores(l), edge) == Above(ts, edge)
    ensures Above(Logged(l, now, windowMs).scores, edge) == Above(ts + [now], edge)
  {
    AboveAbove(Scores(l), now - windowMs, edge);
    SnocAgrees(Above(Scores(l), now - windowMs), ts, now, edge);
  }

  lemma ExpiredAgrees(l: Log, ts: seq<nat>, now: nat, windowMs: nat, edge: int)
    requires edge >= now - windowMs && now >= l.expireAt && AtMost(ts, l.expireAt - windowMs)
    ensures Above(ts, edge) == []
  {
    AboveAll(ts, edge);
  }

  /** Trimming and expiry only ever remove what no later window can contain: above the edge of the
      current window the log and the full history agree. */
  lemma {:induction false} LogAgrees(es: seq<Event>, windowMs: nat, edge: int)
    requires Clocked(es) && (es != [] ==> edge >= es[|es| - 1].now - windowMs)
    ensures Above(Scores(LogAfter(es, windowMs)), edge) == Above(Times(es), edge)
  {
    if es != [] {
      var front, last := es[..|es| - 1], es[|es| - 1];
      if front != [] { assert front[|front| - 1].now <= last.now; }
      LogAgrees(front, windowMs, edge);
      var l := LogAfter(front, windowMs);
      match last
      case Request(now) =>
        LoggedAgrees(l, Times(front), now, windowMs, edge);
        assert Times(es) == Times(front) + [now];
        assert LogAfter(es, windowMs) == Some(Logged(l, now, windowMs));
      case Expiry(now) =>
        TimesBounded(front, windowMs);
        assert Times(es) == Times(front);
        if l.Some? && now >= l.value.expireAt { ExpiredAgrees(l.value, Times(front), now, windowMs, edge); }
    }
  }

  /** The requests later than `from`, allowed or not. */
  function RequestsAfter(es: seq<Event>, from: int): nat {
    if es == [] then 0
    else RequestsAfter(es[..|es| - 1], from) + One(es[|es| - 1].Request? && es[|es| - 1].now > from)
  }

  lemma {:induction false} TimesAfter(es: seq<Event>, from: int)
    ensures |Above(Times(es), from)| == RequestsAfter(es, from)
  {
    if es != [] {
      TimesAfter(es[..|es| - 1], from);
      if es[|es| - 1].Request? { AboveSnoc(Times(es[..|es| - 1]), es[|es| - 1].now, from); }
    }
  }

  /** A request is allowed exactly when the requests of the last windowMs, allowed or not and this
      one included, are at most maxRequests; key expiry never changes that. */
  lemma AllowedIffFewRecent(es: seq<Event>, now: nat, maxRequests: nat, windowMs: nat)
    requires Clocked(es) && (es != [] ==> es[|es| - 1].now <= now)
    ensures Decision(es, now, maxRequests, windowMs) <==> RequestsAfter(es, now - windowMs) + 1 <= maxRequests
  {
    LogAgrees(es, windowMs, now - windowMs);
    TimesAfter(es, now - windowMs);
  }

  /** The allowed requests with a clock reading in (from, until]. */
  function AllowedIn(es: seq<Event>, maxRequests: nat, windowMs: nat, from: int, until: int): nat {
    if es == [] then 0
    else
      var front := es[..|es| - 1];
      AllowedIn(front, maxRequests, windowMs, from, until)
      + match es[|es| - 1]
        case Expiry(_) => 0
        case Request(now) => One(from < now <= until && Decision(front, now, maxRequests, windowMs))
  }

  lemma {:induction false} AllowedAreRequests(es: seq<Event>, maxRequests: nat, windowMs: nat, from: int, until: int)
    ensures AllowedIn(es, maxRequests, windowMs, from, until) <= |Above(Times(es), from)|
  {
    if es != [] {
      AllowedAreRequests(es[..|es| - 1], maxRequests, windowMs, from, until);
      if es[|es| - 1].Request? { AboveSnoc(Times(es[..|es| - 1]), es[|es| - 1].now, from); }
    }
  }

  /** No interval (t - windowMs, t] holds more than maxRequests allowed requests. */
  lemma {:induction false} SlidingBound(es: seq<Event>, maxRequests: nat, windowMs: nat, t: int)
    requires Clocked(es)
    ensures AllowedIn(es, maxRequests, windowMs, t - windowMs, t) <= maxRequests
  {
    if es != [] {
      var front, last := es[..|es| - 1], es[|es| - 1];
      SlidingBound(front, maxRequests, windowMs, t);
      if last.Request? && t - windowMs < last.now <= t && Decision(front, last.now, maxRequests, windowMs) {
        if front != [] { assert front[|front| - 1].now <= last.now; }
        AllowedIffFewRecent(front, last.now, maxRequests, windowMs);
        TimesAfter(front, last.now - windowMs);
        AllowedAreRequests(front, maxRequests, windowMs, t - windowMs, t);
        AboveAbove(Times(front), last.now - windowMs, t - windowMs);
      }
    }
  }

  // ---------------------------------------------------------------- the fallback

  function EntryAfter(hits: seq<RateLimit.Hit>): Option<Entry> {
    if hits == [] then None
    else Some(Counted(EntryAfter(hits[..|hits| - 1]), hits[|hits| - 1].now, RateLimit.RATE_LIMIT_WINDOW_MS))
  }

  /** Without Redis a limiter decides like the in-memory limiter of src/ratelimit.ts would, for the
      requests of its own kind: same window, same counter, hence the same bounds. */
  lemma {:induction false} FallbackIsFixedWindow(hits: seq<RateLimit.Hit>, search: bool, h: RateLimit.Hit)
    requires h.search == search && forall x | x in hits :: x.search == search
    ensures var e, c := EntryAfter(hits), RateLimit.After(hits);
      && (hits != [] ==> e.value == Entry(if search then c.value.searchCount else c.value.count, c.value.start))
      && (Counted(e, h.now, RateLimit.RATE_LIMIT_WINDOW_MS).count <= RateLimit.Limit(search)
          <==> RateLimit.Passes(c, h))
  {
    if hits != [] {
      assert hits[|hits| - 1] in hits;
      FallbackIsFixedWindow(hits[..|hits| - 1], search, hits[|hits| - 1]);
    }
  }
}
