/** The in-memory counters of src/db.ts: class CrawlState, and the value its fields amount to. */
module CrawlState {
  import opened Prelude
  import opened Database

  datatype Stats = Stats(nodeCount: nat, frontierCount: nat, domainNodeCount: map<string, nat>,
                         domainInflight: map<string, nat>, domainSuccess: map<string, nat>,
                         domainFail: map<string, nat>, domainBlacklist: set<string>,
                         success: nat, fail: nat, diskPaused: bool, recrawlAttempted: bool)

  const FRESH := Stats(0, 0, map[], map[], map[], map[], {}, 0, 0, false, false)

  function OnDomain(d: string): NodeRow -> bool { (n: NodeRow) => n.domain == d }

  /** SELECT COUNT(*) FROM nodes WHERE domain = d. */
  function NodesOn(t: Tables, d: string): nat { CountIf(t.nodes, OnDomain(d)) }

  function Domains(t: Tables): set<string> { set u | u in t.nodes :: t.nodes[u].domain }

  /** SELECT domain, COUNT(*) FROM nodes GROUP BY domain. */
  function DomainCounts(t: Tables): map<string, nat> { map d | d in Domains(t) :: NodesOn(t, d) }

  /** refresh() on tables with that many rows, when only its first `worked` count statements work:
      the fields read so far keep their new values. */
  function Refreshed(s: Stats, nodeRows: nat, frontierRows: nat, worked: nat): Stats {
    if worked == 0 then s
    else if worked == 1 then s.(nodeCount := nodeRows)
    else s.(nodeCount := nodeRows, frontierCount := frontierRows)
  }

  function Loaded(s: Stats, counts: map<string, nat>): Stats { s.(domainNodeCount := counts) }

  /** fullRefresh(): the cache is replaced by `counts`, if the query for them works. */
  function FullyRefreshed(s: Stats, nodeRows: nat, frontierRows: nat, worked: nat, counts: Option<map<string, nat>>)
    : Stats
  {
    match counts
    case None => Refreshed(s, nodeRows, frontierRows, worked)
    case Some(rows) => Loaded(Refreshed(s, nodeRows, frontierRows, worked), rows)
  }

  lemma RowsCounted(t: Tables)
    ensures forall d :: Get(DomainCounts(t), d) == |set u | u in t.nodes && t.nodes[u].domain == d|
  {
    forall d ensures Get(DomainCounts(t), d) == |set u | u in t.nodes && t.nodes[u].domain == d| {
      assert KeysWhere(t.nodes, OnDomain(d)) == set u | u in t.nodes && t.nodes[u].domain == d;
      if d !in Domains(t) { CountNone(t.nodes, OnDomain(d)); }
    }
  }

  function CountsQuery(t: Tables, works: bool): Option<map<string, nat>> {
    if works then Some(DomainCounts(t)) else None
  }

  /** The outcome counters and the in-flight counts of `r` are those of `s`. */
  predicate SameOutcomes(s: Stats, r: Stats) {
    && r.domainInflight == s.domainInflight
    && r.domainSuccess == s.domainSuccess && r.domainFail == s.domainFail
    && r.success == s.success && r.fail == s.fail
  }

  lemma RefreshedOutcomes(s: Stats, nodeRows: nat, frontierRows: nat, worked: nat)
    ensures var r := Refreshed(s, nodeRows, frontierRows, worked);
      SameOutcomes(s, r) && r.domainBlacklist == s.domainBlacklist
  {
  }

  /** A refresh leaves them alone. */
  lemma RefreshKeepsOutcomes(s: Stats, nodeRows: nat, frontierRows: nat, worked: nat, counts: Option<map<string, nat>>)
    ensures var r := FullyRefreshed(s, nodeRows, frontierRows, worked, counts);
      SameOutcomes(s, r) && r.domainBlacklist == s.domainBlacklist
  {
    RefreshedOutcomes(s, nodeRows, frontierRows, worked);
  }

  function Counted(s: Stats, d: string): Stats {
    s.(domainNodeCount := s.domainNodeCount[d := Get(s.domainNodeCount, d) + 1])
  }

  function Succeeded(s: Stats, d: string): Stats {
    s.(domainSuccess := s.domainSuccess[d := Get(s.domainSuccess, d) + 1])
  }

  /** More than 90 percent of at least 20 outcomes are failures. */
  predicate Hopeless(ok: nat, fail: nat) { ok + fail >= 20 && 10 * fail > 9 * (ok + fail) }

  function Failed(s: Stats, d: string): Stats {
    var fails := s.domainFail[d := Get(s.domainFail, d) + 1];
    s.(domainFail := fails,
       domainBlacklist := if Hopeless(Get(s.domainSuccess, d), fails[d]) then s.domainBlacklist + {d}
                          else s.domainBlacklist)
  }

  function InflightSet(s: Stats, d: string, val: int): Stats {
    s.(domainInflight := s.domainInflight[d := Max(0, val)])
  }

  // ---------------------------------------------------------------- the object

  class CrawlState {
    const db: CrawlDb
    var nodeCount: nat
    var frontierCount: nat
    var domainNodeCount: map<string, nat>
    var domainInflight: map<string, nat>
    var domainSuccess: map<string, nat>
    var domainFail: map<string, nat>
    var domainBlacklist: set<string>
    var success: nat
    var fail: nat
    var diskPaused: bool
    var recrawlAttempted: bool

    function View(): Stats
      reads this
    {
      Stats(nodeCount, frontierCount, domainNodeCount, domainInflight, domainSuccess, domainFail,
            domainBlacklist, success, fail, diskPaused, recrawlAttempted)
    }

    constructor (db: CrawlDb)
      ensures this.db == db && View() == FRESH
    {
      this.db := db;
      nodeCount, frontierCount, domainNodeCount, domainInflight := 0, 0, map[], map[];
      domainSuccess, domainFail, domainBlacklist := map[], map[], {};
      success, fail, diskPaused, recrawlAttempted := 0, 0, false, false;
    }

    method Refresh(worked: nat)
      modifies this`nodeCount, this`frontierCount
      ensures View() == Refreshed(old(View()), |db.nodes|, |db.frontier|, worked)
      ensures nodeCount == if worked >= 1 then |db.nodes| else old(nodeCount)
      ensures frontierCount == if worked >= 2 then |db.frontier| else old(frontierCount)
    {
      if worked == 0 { return; }
      nodeCount := |db.nodes|;
      if worked == 1 { return; }
      frontierCount := |db.frontier|;
    }

    /** The result rows replace the cache one by one, in whatever order the query yields them. */
    method LoadDomainCounts(rows: map<string, nat>)
      modifies this`domainNodeCount
      ensures domainNodeCount == rows
    {
      var left := rows.Keys;
      domainNodeCount := map[];
      while left != {}
        invariant left <= rows.Keys && domainNodeCount.Keys == rows.Keys - left
        invariant forall d | d in domainNodeCount :: domainNodeCount[d] == rows[d]
        decreases left
      {
        var d :| d in left;
        domainNodeCount := domainNodeCount[d := rows[d]];
        left := left - {d};
      }
    }

    method FullRefresh(worked: nat, countsWork: bool)
      modifies this`nodeCount, this`frontierCount, this`domainNodeCount
      ensures View() == FullyRefreshed(old(View()), |db.nodes|, |db.frontier|, worked,
                                       CountsQuery(db.View(), countsWork))
      ensures nodeCount == if worked >= 1 then |db.nodes| else old(nodeCount)
      ensures frontierCount == if worked >= 2 then |db.frontier| else old(frontierCount)
      ensures countsWork ==> forall d :: GetDomainCount(d) == |set u | u in db.nodes && db.nodes[u].domain == d|
    {
      Refresh(worked);
      if countsWork {
        LoadDomainCounts(DomainCounts(db.View()));
        RowsCounted(db.View());
      }
    }

    function GetDomainCount(d: string): nat
      reads this
    {
      Get(domainNodeCount, d)
    }

    function GetInflight(d: string): nat
      reads this
    {
      Get(domainInflight, d)
    }

    predicate IsDomainBlacklisted(d: string)
      reads this
    {
      d in domainBlacklist
    }

    method IncrementDomainCount(d: string)
      modifies this`domainNodeCount
      ensures View() == Counted(old(View()), d)
      ensures GetDomainCount(d) == old(GetDomainCount(d)) + 1
    {
      domainNodeCount := domainNodeCount[d := GetDomainCount(d) + 1];
    }

    method RecordDomainSuccess(d: string)
      modifies this`domainSuccess
      ensures View() == Succeeded(old(View()), d)
    {
      domainSuccess := domainSuccess[d := Get(domainSuccess, d) + 1];
    }

    method RecordDomainFail(d: string)
      modifies this`domainFail, this`domainBlacklist
      ensures View() == Failed(old(View()), d)
      ensures old(domainBlacklist) <= domainBlacklist <= old(domainBlacklist) + {d}
    {
      domainFail := domainFail[d := Get(domainFail, d) + 1];
      var ok := Get(domainSuccess, d);
      var bad := domainFail[d];
      var total := ok + bad;
      if total >= 20 && 10 * bad > 9 * total {
        domainBlacklist := domainBlacklist + {d};
      }
    }

    method SetInflight(d: string, val: int)
      modifies this`domainInflight
      ensures View() == InflightSet(old(View()), d, val)
      ensures GetInflight(d) == if val < 0 then 0 else val
    {
      domainInflight := domainInflight[d := Max(0, val)];
    }
  }

  // ---------------------------------------------------------------- the automatic blacklist

  /** One finished fetch, as reported to the counters. */
  datatype Outcome = Good(domain: string) | Bad(domain: string)

  function Reported(s: Stats, o: Outcome): Stats {
    match o
    case Good(d) => Succeeded(s, d)
    case Bad(d) => Failed(s, d)
  }

  /** The counters after a history of outcomes. */
  function Replay(os: seq<Outcome>): Stats {
    if os == [] then FRESH else Reported(Replay(os[..|os| - 1]), os[|os| - 1])
  }

  function Occurrences(os: seq<Outcome>, o: Outcome): nat {
    if os == [] then 0 else Occurrences(os[..|os| - 1], o) + One(os[|os| - 1] == o)
  }

  /** The history ends in a failure of `d` that leaves `d` with at least 20 outcomes, more than
      nine tenths of them failures. */
  predicate Trips(os: seq<Outcome>, d: string) {
    var ok, bad := Occurrences(os, Good(d)), Occurrences(os, Bad(d));
    os != [] && os[|os| - 1] == Bad(d) && ok + bad >= 20 && 10 * bad > 9 * (ok + bad)
  }

  lemma {:induction false} ReplayCounts(os: seq<Outcome>, d: string)
    ensures Get(Replay(os).domainSuccess, d) == Occurrences(os, Good(d))
    ensures Get(Replay(os).domainFail, d) == Occurrences(os, Bad(d))
  {
    if os != [] {
      ReplayCounts(os[..|os| - 1], d);
    }
  }

  /** A domain is blacklisted exactly when some prefix of the history trips it. Prefixes of a
      longer history include those of a shorter one, so membership is permanent. */
  lemma {:induction false} BlacklistedIff(os: seq<Outcome>, d: string)
    ensures d in Replay(os).domainBlacklist <==> exists k :: 0 <= k <= |os| && Trips(os[..k], d)
  {
    var n := |os|;
    if n > 0 {
      var front := os[..n - 1];
      BlacklistedIff(front, d);
      ReplayCounts(os, d);
      ReplayCounts(front, d);
      assert os[..n] == os;
      assert forall k | 0 <= k < n :: front[..k] == os[..k];
      assert Replay(os) == Reported(Replay(front), os[n - 1]);
      if d in Replay(os).domainBlacklist {
        if d in Replay(front).domainBlacklist {
          var k :| 0 <= k <= n - 1 && Trips(front[..k], d);
          assert Trips(os[..k], d);
        } else {
          assert Trips(os[..n], d);
        }
      }
      if k :| 0 <= k <= n && Trips(os[..k], d) {
        if k < n { assert Trips(front[..k], d); }
      }
    }
  }

  /** A domain that never succeeds enters the blacklist with its 20th failure, not before. */
  lemma {:induction false} AllFailing(os: seq<Outcome>, d: string)
    requires Occurrences(os, Good(d)) == 0
    ensures d in Replay(os).domainBlacklist <==> Occurrences(os, Bad(d)) >= 20
  {
    if os != [] {
      AllFailing(os[..|os| - 1], d);
      ReplayCounts(os, d);
      ReplayCounts(os[..|os| - 1], d);
    }
  }
}
