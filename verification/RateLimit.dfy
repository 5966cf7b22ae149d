/** The in-memory rate limiter of src/ratelimit.ts: fixed windows, one record per client that the
    page limit and the search limit share. */
module RateLimit {
  import opened Prelude

  const RATE_LIMIT_WINDOW_MS := 60000
  const RATE_LIMIT_MAX := 100
  const RATE_LIMIT_SEARCH_MAX := 30

  datatype Client = Client(start: int, count: nat, searchCount: nat)

  /** A window has run out; its last moment still belongs to it. */
  predicate Over(c: Client, now: int, window: int) { now - c.start > window }

  /** getClient: the record to count in, a new one when there is none or its window is over. */
  function Current(c: Option<Client>, now: int): Client {
    if c.None? || Over(c.value, now, RATE_LIMIT_WINDOW_MS) then Client(now, 0, 0) else c.value
  }

  /** One request of a client. */
  datatype Hit = Hit(now: int, search: bool)

  function Charged(c: Option<Client>, h: Hit): Client {
    var cur := Current(c, h.now);
    if h.search then cur.(searchCount := cur.searchCount + 1) else cur.(count := cur.count + 1)
  }

  predicate Passes(c: Option<Client>, h: Hit) {
    if h.search then Charged(c, h).searchCount <= RATE_LIMIT_SEARCH_MAX else Charged(c, h).count <= RATE_LIMIT_MAX
  }

  function Limit(search: bool): nat { if search then RATE_LIMIT_SEARCH_MAX else RATE_LIMIT_MAX }

  // ---------------------------------------------------------------- the object

  function Lookup(clients: map<string, Client>, ip: string): Option<Client> {
    if ip in clients then Some(clients[ip]) else None
  }

  /** cleanupClients removes the records that are over for two windows. */
  function Cleaned(clients: map<string, Client>, now: int): map<string, Client> {
    map ip | ip in clients && !Over(clients[ip], now, 2 * RATE_LIMIT_WINDOW_MS) :: clients[ip]
  }

  class RateLimiter {
    var clients: map<string, Client>

    constructor ()
      ensures clients == map[]
    {
      clients := map[];
    }

    method GetClient(ip: string, now: int) returns (c: Client)
      modifies this
      ensures c == Current(Lookup(old(clients), ip), now)
      ensures clients == old(clients)[ip := c]
    {
      if ip !in clients || now - clients[ip].start > RATE_LIMIT_WINDOW_MS {
        clients := clients[ip := Client(now, 0, 0)];
      }
      c := clients[ip];
      assert clients == old(clients)[ip := c];
    }

    /** rateLimit without Redis: true calls next(), false answers 429. */
    method AllowPage(ip: string, now: int) returns (allowed: bool)
      modifies this
      ensures var h := Hit(now, false);
        && allowed == Passes(Lookup(old(clients), ip), h)
        && clients == old(clients)[ip := Charged(Lookup(old(clients), ip), h)]
    {
      var c := GetClient(ip, now);
      c := c.(count := c.count + 1);
      clients := clients[ip := c];
      allowed := c.count <= RATE_LIMIT_MAX;
    }

    /** searchRateLimit without Redis. */
    method AllowSearch(ip: string, now: int) returns (allowed: bool)
      modifies this
      ensures var h := Hit(now, true);
        && allowed == Passes(Lookup(old(clients), ip), h)
        && clients == old(clients)[ip := Charged(Lookup(old(clients), ip), h)]
    {
      var c := GetClient(ip, now);
      c := c.(searchCount := c.searchCount + 1);
      clients := clients[ip := c];
      allowed := c.searchCount <= RATE_LIMIT_SEARCH_MAX;
    }

    /** cleanupClients, visiting the records in some order and deleting as it goes. */
    method CleanupClients(now: int)
      modifies this
      ensures clients == Cleaned(old(clients), now)
      ensures forall ip :: ip in clients <==>
                ip in old(clients) && now - old(clients)[ip].start <= 2 * RATE_LIMIT_WINDOW_MS
    {
      var left := clients.Keys;
      while left != {}
        invariant left <= clients.Keys <= old(clients).Keys
        invariant forall ip | ip in clients :: clients[ip] == old(clients)[ip]
        invariant forall ip | ip in old(clients) :: ip in left || (ip in clients <==> ip in Cleaned(old(clients), now))
        decreases left
      {
        var ip :| ip in left;
        left := left - {ip};
        if now - clients[ip].start > RATE_LIMIT_WINDOW_MS * 2 {
          clients := clients - {ip};
        }
      }
    }
  }

  // ---------------------------------------------------------------- one client

  /** The record after a trace of requests of one client. */
  function After(hits: seq<Hit>): Option<Client> {
    if hits == [] then None else Some(Charged(After(hits[..|hits| - 1]), hits[|hits| - 1]))
  }

  predicate InOrder(hits: seq<Hit>) { forall j, k | 0 <= j < k < |hits| :: hits[j].now <= hits[k].now }

  /** How many requests of one kind were admitted with a clock reading in [from, until]. */
  function Admitted(hits: seq<Hit>, search: bool, from: int, until: int): nat {
    if hits == [] then 0
    else
      var front, h := hits[..|hits| - 1], hits[|hits| - 1];
      Admitted(front, search, from, until)
      + One(h.search == search && from <= h.now <= until && Passes(After(front), h))
  }

  /** The counter of one kind, as far as it admits. */
  function Used(c: Client, search: bool): nat { Min(if search then c.searchCount else c.count, Limit(search)) }

  /** What holds after every trace, for an interval that is as long as a window. */
  ghost predicate Within(hits: seq<Hit>, search: bool, from: int) {
    var until := from + RATE_LIMIT_WINDOW_MS;
    var n := Admitted(hits, search, from, until);
    hits != [] ==>
      var c := After(hits).value;
      && (hits[|hits| - 1].now < from ==> n == 0)
      && c.start <= hits[|hits| - 1].now <= c.start + RATE_LIMIT_WINDOW_MS
      && n <= (if c.start <= from then Used(c, search)
               else if c.start <= until then Limit(search) + Used(c, search)
               else 2 * Limit(search))
  }

  lemma {:induction false} WithinAlways(hits: seq<Hit>, search: bool, from: int)
    requires InOrder(hits)
    ensures Within(hits, search, from)
  {
    if hits != [] {
      WithinAlways(hits[..|hits| - 1], search, from);
      if |hits| > 1 { assert hits[|hits| - 2].now <= hits[|hits| - 1].now; }
    }
  }

  /** One client is admitted at most twice the limit in any interval as long as a window, ends
      included, for any trace of page and search requests. */
  lemma TwiceTheLimit(hits: seq<Hit>, search: bool, from: int)
    requires InOrder(hits)
    ensures Admitted(hits, search, from, from + RATE_LIMIT_WINDOW_MS) <= 2 * Limit(search)
  {
    WithinAlways(hits, search, from);
  }

  /** In the window a client is in, exactly the first requests of each kind are admitted, up to the
      limit: the admissions since its start are the smaller of the requests and the limit. */
  lemma {:induction false} PerWindow(hits: seq<Hit>, search: bool, until: int)
    requires hits != [] && InOrder(hits) && hits[|hits| - 1].now <= until
    ensures var c := After(hits).value; Admitted(hits, search, c.start, until) == Used(c, search) <= Limit(search)
  {
    var front, h, c := hits[..|hits| - 1], hits[|hits| - 1], After(hits).value;
    if front != [] {
      assert front[|front| - 1].now <= h.now;
      WithinAlways(front, search, c.start);
      if c.start == After(front).value.start {
        PerWindow(front, search, until);
      } else {
        NoneBefore(front, search, c.start, until);
      }
    }
  }

  lemma {:induction false} NoneBefore(hits: seq<Hit>, search: bool, from: int, until: int)
    requires InOrder(hits) && (hits != [] ==> hits[|hits| - 1].now < from)
    ensures Admitted(hits, search, from, until) == 0
  {
    if |hits| > 1 { assert hits[|hits| - 2].now <= hits[|hits| - 1].now; }
    if hits != [] { NoneBefore(hits[..|hits| - 1], search, from, until); }
  }

  /** The start of the window of the last request: the first request opens one, and so does each that
      comes more than RATE_LIMIT_WINDOW_MS after the start of the window before. */
  function WindowStart(hits: seq<Hit>): int
    requires hits != []
  {
    var now := hits[|hits| - 1].now;
    if |hits| == 1 then now
    else
      var start := WindowStart(hits[..|hits| - 1]);
      if now > start + RATE_LIMIT_WINDOW_MS then now else start
  }

  /** The requests of one kind from `start` on, admitted or not. */
  function RequestsFrom(hits: seq<Hit>, search: bool, start: int): nat {
    if hits == [] then 0
    else
      var h := hits[|hits| - 1];
      RequestsFrom(hits[..|hits| - 1], search, start) + One(h.search == search && h.now >= start)
  }

  lemma {:induction false} NoneFrom(hits: seq<Hit>, search: bool, start: int)
    requires InOrder(hits) && (hits != [] ==> hits[|hits| - 1].now < start)
    ensures RequestsFrom(hits, search, start) == 0
  {
    if |hits| > 1 { assert hits[|hits| - 2].now <= hits[|hits| - 1].now; }
    if hits != [] { NoneFrom(hits[..|hits| - 1], search, start); }
  }

  /** A client's record is the start of its window and the numbers of its requests in it. */
  lemma {:induction false} RecordCounts(hits: seq<Hit>)
    requires InOrder(hits) && hits != []
    ensures var c, start := After(hits).value, WindowStart(hits);
      && c == Client(start, RequestsFrom(hits, false, start), RequestsFrom(hits, true, start))
      && start <= hits[|hits| - 1].now <= start + RATE_LIMIT_WINDOW_MS
  {
    if |hits| > 1 {
      var front, now := hits[..|hits| - 1], hits[|hits| - 1].now;
      assert hits[|hits| - 2].now <= now;
      RecordCounts(front);
      if now > WindowStart(front) + RATE_LIMIT_WINDOW_MS {
        NoneFrom(front, false, now);
        NoneFrom(front, true, now);
      }
    }
  }

  /** The exact rule: a request is admitted if and only if it is among the first RATE_LIMIT_MAX page
      requests, or RATE_LIMIT_SEARCH_MAX search requests, of its window. */
  lemma AdmittedIffAmongFirst(hits: seq<Hit>, h: Hit)
    requires InOrder(hits + [h])
    ensures Passes(After(hits), h)
            <==> RequestsFrom(hits + [h], h.search, WindowStart(hits + [h]))
                 <= if h.search then RATE_LIMIT_SEARCH_MAX else RATE_LIMIT_MAX
  {
    RecordCounts(hits + [h]);
    assert (hits + [h])[..|hits|] == hits;
  }

  // ---------------------------------------------------------------- many clients, and cleanups

  datatype Event = Request(ip: string, hit: Hit) | Cleanup(at: int)

  function Time(e: Event): int { match e case Request(_, h) => h.now case Cleanup(at) => at }

  function Clients(es: seq<Event>): map<string, Client> {
    if es == [] then map[]
    else
      var before := Clients(es[..|es| - 1]);
      match es[|es| - 1]
      case Request(ip, h) => before[ip := Charged(Lookup(before, ip), h)]
      case Cleanup(at) => Cleaned(before, at)
  }

  /** The requests of one client. */
  function HitsOf(es: seq<Event>, ip: string): seq<Hit> {
    if es == [] then []
    else
      var front, last := es[..|es| - 1], es[|es| - 1];
      if last.Request? && last.ip == ip then HitsOf(front, ip) + [last.hit] else HitsOf(front, ip)
  }

  predicate Clocked(es: seq<Event>) { forall j, k | 0 <= j < k < |es| :: Time(es[j]) <= Time(es[k]) }

  /** A client's record is the one its own requests produce, unless a cleanup has removed it after
      its window was over. */
  lemma {:induction false} RecordOrOver(es: seq<Event>, ip: string)
    requires Clocked(es)
    ensures var mine := After(HitsOf(es, ip));
      || Lookup(Clients(es), ip) == mine
      || (ip !in Clients(es) && mine.Some? && Over(mine.value, Time(es[|es| - 1]), RATE_LIMIT_WINDOW_MS))
    ensures es == [] ==> HitsOf(es, ip) == []
  {
    if es != [] {
      var front, last := es[..|es| - 1], es[|es| - 1];
      RecordOrOver(front, ip);
      if front != [] { assert Time(front[|front| - 1]) <= Time(last); }
      match last
      case Cleanup(at) =>
      case Request(i, h) =>
        if i == ip { assert HitsOf(es, ip)[..|HitsOf(es, ip)| - 1] == HitsOf(front, ip); }
    }
  }

  /** Every decision depends on the client's own requests only: neither other clients nor cleanups,
      whenever they run, ever change one. */
  lemma DecisionsAreLocal(es: seq<Event>, ip: string, h: Hit)
    requires Clocked(es) && (es != [] ==> Time(es[|es| - 1]) <= h.now)
    ensures Passes(Lookup(Clients(es), ip), h) == Passes(After(HitsOf(es, ip)), h)
  {
    RecordOrOver(es, ip);
  }

  /** The requests of one client and kind that a run admits with a clock reading in [from, until]. */
  function AdmittedIn(es: seq<Event>, ip: string, search: bool, from: int, until: int): nat {
    if es == [] then 0
    else
      var front := es[..|es| - 1];
      AdmittedIn(front, ip, search, from, until)
      + match es[|es| - 1]
        case Cleanup(_) => 0
        case Request(i, h) =>
          One(i == ip && h.search == search && from <= h.now <= until && Passes(Lookup(Clients(front), ip), h))
  }

  lemma {:induction false} HitsInOrder(es: seq<Event>, ip: string)
    requires Clocked(es)
    ensures InOrder(HitsOf(es, ip))
    ensures forall k | 0 <= k < |HitsOf(es, ip)| :: es != [] && HitsOf(es, ip)[k].now <= Time(es[|es| - 1])
  {
    if es != [] {
      HitsInOrder(es[..|es| - 1], ip);
      if |es| > 1 { assert Time(es[|es| - 2]) <= Time(es[|es| - 1]); }
    }
  }

  lemma AdmittedNext(front: seq<Hit>, h: Hit, search: bool, from: int, until: int)
    ensures Admitted(front + [h], search, from, until)
         == Admitted(front, search, from, until)
          + One(h.search == search && from <= h.now <= until && Passes(After(front), h))
  {
    assert (front + [h])[..|front|] == front;
  }

  /** What the last event of a run adds: nothing, unless it is a request of the client. */
  lemma AdmittedInNext(es: seq<Event>, ip: string, search: bool, from: int, until: int)
    requires es != []
    ensures var front, last := es[..|es| - 1], es[|es| - 1];
      AdmittedIn(es, ip, search, from, until) == AdmittedIn(front, ip, search, from, until)
        + if !last.Request? || last.ip != ip then 0
          else One(last.hit.search == search && from <= last.hit.now <= until
                   && Passes(Lookup(Clients(front), ip), last.hit))
  {
  }

  lemma {:induction false} AdmittedIsLocal(es: seq<Event>, ip: string, search: bool, from: int, until: int)
    requires Clocked(es)
    ensures AdmittedIn(es, ip, search, from, until) == Admitted(HitsOf(es, ip), search, from, until)
  {
    if es != [] {
      var front, last := es[..|es| - 1], es[|es| - 1];
      AdmittedIsLocal(front, ip, search, from, until);
      AdmittedInNext(es, ip, search, from, until);
      if last.Request? && last.ip == ip {
        LastDecision(es, ip);
        AdmittedNext(HitsOf(front, ip), last.hit, search, from, until);
      }
    }
  }

  lemma LastDecision(es: seq<Event>, ip: string)
    requires Clocked(es) && es != [] && es[|es| - 1].Request? && es[|es| - 1].ip == ip
    ensures var front, h := es[..|es| - 1], es[|es| - 1].hit;
      && HitsOf(es, ip) == HitsOf(front, ip) + [h]
      && Passes(Lookup(Clients(front), ip), h) == Passes(After(HitsOf(front, ip)), h)
  {
    var front, last := es[..|es| - 1], es[|es| - 1];
    if front != [] { assert Time(front[|front| - 1]) <= Time(last); }
    DecisionsAreLocal(front, ip, last.hit);
  }

  /** The limiter as a whole: with any number of clients and with cleanups at any times, a client is
      admitted at most twice the limit in any interval as long as a window. */
  lemma LimiterBound(es: seq<Event>, ip: string, search: bool, from: int)
    requires Clocked(es)
    ensures AdmittedIn(es, ip, search, from, from + RATE_LIMIT_WINDOW_MS) <= 2 * Limit(search)
  {
    AdmittedIsLocal(es, ip, search, from, from + RATE_LIMIT_WINDOW_MS);
    HitsInOrder(es, ip);
    TwiceTheLimit(HitsOf(es, ip), search, from);
  }
}
