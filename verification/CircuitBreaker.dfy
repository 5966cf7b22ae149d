/** The circuit breaker of src/circuit.ts.

    A call has two moments: admission, and the report of its outcome. Other calls may come between
    them, so a call admitted in one state can report in another. Time is an argument; it is the
    clock reading the code takes. */
module CircuitBreaker {
  import opened Prelude

  datatype State = CLOSED | OPEN | HALF_OPEN

  /** The construction options; the three numbers are positive after the defaults are applied. */
  datatype Options = Options(failureThreshold: nat, resetTimeout: nat, halfOpenMax: nat) {
    predicate Valid() { failureThreshold >= 1 && resetTimeout >= 1 && halfOpenMax >= 1 }
  }

  /** `options.x || default`. */
  function Or(given: nat, default: nat): nat { if given == 0 then default else given }

  function WithDefaults(given: Options): Options {
    Options(Or(given.failureThreshold, 5), Or(given.resetTimeout, 30000), Or(given.halfOpenMax, 3))
  }

  datatype Breaker = Breaker(state: State, failureCount: nat, successCount: nat, halfOpenAttempts: nat,
                             lastFailureTime: Option<int>)

  const NEW := Breaker(CLOSED, 0, 0, 0, None)

  /** What a call or a timer does to the breaker. */
  datatype Event = Poll(now: int) | Admit(now: int) | Success(now: int) | Failure(now: int)

  function To(b: Breaker, target: State): Breaker {
    match target
    case CLOSED => b.(state := CLOSED, failureCount := 0, successCount := 0, halfOpenAttempts := 0)
    case HALF_OPEN => b.(state := HALF_OPEN, halfOpenAttempts := 0, successCount := 0)
    case OPEN => b.(state := OPEN)
  }

  /** The timeout since the last failure is over; a missing time counts as 0. */
  predicate Expired(o: Options, b: Breaker, now: int) {
    now - (if b.lastFailureTime.Some? then b.lastFailureTime.value else 0) >= o.resetTimeout
  }

  function Polled(o: Options, b: Breaker, now: int): Breaker {
    if b.state == OPEN && Expired(o, b, now) then To(b, HALF_OPEN) else b
  }

  predicate Admits(o: Options, b: Breaker, now: int) {
    var p := Polled(o, b, now);
    p.state == CLOSED || (p.state == HALF_OPEN && p.halfOpenAttempts < o.halfOpenMax)
  }

  function Stepped(o: Options, b: Breaker, e: Event): Breaker {
    match e
    case Poll(now) => Polled(o, b, now)
    case Admit(now) =>
      var p := Polled(o, b, now);
      if p.state != HALF_OPEN then p
      else if p.halfOpenAttempts >= o.halfOpenMax then To(p, OPEN)
      else p.(halfOpenAttempts := p.halfOpenAttempts + 1)
    case Success(now) =>
      if b.state != HALF_OPEN then b.(failureCount := Max(0, b.failureCount - 1))
      else if b.successCount + 1 >= o.halfOpenMax then To(b, CLOSED)
      else b.(successCount := b.successCount + 1)
    case Failure(now) =>
      var f := b.(failureCount := b.failureCount + 1, lastFailureTime := Some(now));
      if b.state == HALF_OPEN || f.failureCount >= o.failureThreshold then To(f, OPEN) else f
  }

  function Run(o: Options, b: Breaker, es: seq<Event>): Breaker {
    if es == [] then b else Stepped(o, Run(o, b, es[..|es| - 1]), es[|es| - 1])
  }

  // ---------------------------------------------------------------- the object

  class CircuitBreaker {
    const options: Options
    var state: State
    var failureCount: nat
    var successCount: nat
    var halfOpenAttempts: nat
    var lastFailureTime: Option<int>
    var lastStateChange: int

    function View(): Breaker
      reads this
    {
      Breaker(state, failureCount, successCount, halfOpenAttempts, lastFailureTime)
    }

    constructor (given: Options, now: int)
      ensures options == WithDefaults(given) && options.Valid()
      ensures options.failureThreshold == if given.failureThreshold > 0 then given.failureThreshold else 5
      ensures options.resetTimeout == if given.resetTimeout > 0 then given.resetTimeout else 30000
      ensures options.halfOpenMax == if given.halfOpenMax > 0 then given.halfOpenMax else 3
      ensures View() == NEW && lastStateChange == now
    {
      options := WithDefaults(given);
      state, failureCount, successCount, halfOpenAttempts, lastFailureTime := CLOSED, 0, 0, 0, None;
      lastStateChange := now;
    }

    method Transition(newState: State, now: int)
      modifies this
      ensures View() == To(old(View()), newState) && lastStateChange == now
    {
      state := newState;
      lastStateChange := now;
      if newState == CLOSED {
        failureCount := 0;
        successCount := 0;
        halfOpenAttempts := 0;
      } else if newState == HALF_OPEN {
        halfOpenAttempts := 0;
        successCount := 0;
      }
    }

    /** The currentState getter. */
    method CurrentState(now: int) returns (current: State)
      modifies this
      ensures View() == Stepped(options, old(View()), Poll(now)) && current == state
      ensures lastStateChange == if state == old(state) then old(lastStateChange) else now
    {
      if state == OPEN {
        var since := match lastFailureTime case Some(t) => t case None => 0;
        if now - since >= options.resetTimeout {
          Transition(HALF_OPEN, now);
        }
      }
      current := state;
    }

    /** The monitor timer, _checkState. */
    method CheckState(now: int)
      modifies this
      ensures View() == Stepped(options, old(View()), Poll(now))
    {
      if state == OPEN {
        var _ := CurrentState(now);
      }
    }

    /** execute() up to the call of fn; false means the fallback, or an error, instead of the call. */
    method Admission(now: int) returns (admitted: bool)
      modifies this
      ensures View() == Stepped(options, old(View()), Admit(now))
      ensures admitted == Admits(options, old(View()), now)
    {
      var current := CurrentState(now);
      if current == OPEN { return false; }
      if state == HALF_OPEN {
        if halfOpenAttempts >= options.halfOpenMax {
          Transition(OPEN, now);
          return false;
        }
        halfOpenAttempts := halfOpenAttempts + 1;
      }
      admitted := true;
    }

    method OnSuccess(now: int)
      modifies this
      ensures View() == Stepped(options, old(View()), Success(now))
    {
      if state == HALF_OPEN {
        successCount := successCount + 1;
        if successCount >= options.halfOpenMax {
          Transition(CLOSED, now);
        }
      } else {
        failureCount := Max(0, failureCount - 1);
      }
    }

    method OnFailure(now: int)
      modifies this
      ensures View() == Stepped(options, old(View()), Failure(now))
    {
      failureCount := failureCount + 1;
      lastFailureTime := Some(now);
      if state == HALF_OPEN {
        Transition(OPEN, now);
      } else if failureCount >= options.failureThreshold {
        Transition(OPEN, now);
      }
    }
  }

  // ---------------------------------------------------------------- the leaky failure counter

  /** Failures minus successes among the reported outcomes; polls and admissions do not count. */
  function Balance(es: seq<Event>): int {
    if es == [] then 0
    else Balance(es[..|es| - 1]) + match es[|es| - 1] case Failure(_) => 1 case Success(_) => -1 case _ => 0
  }

  /** `n` is the largest balance of a suffix of `es`, the empty one included. */
  ghost predicate IsLeak(es: seq<Event>, n: nat) {
    && (forall k | 0 <= k <= |es| :: Balance(es[k..]) <= n)
    && (exists k :: 0 <= k <= |es| && Balance(es[k..]) == n)
  }

  lemma SuffixBalance(es: seq<Event>, k: nat)
    requires k < |es|
    ensures Balance(es[k..]) == Balance(es[..|es| - 1][k..]) + Balance([es[|es| - 1]])
  {
    var front, last := es[..|es| - 1], es[|es| - 1];
    assert es[k..][..|es| - k - 1] == front[k..];
    assert [last][..0] == [];
  }

  /** The counter while the breaker has been CLOSED since a fresh start, as the code computes it. */
  function Leak(es: seq<Event>): nat {
    if es == [] then 0
    else Max(0, Leak(es[..|es| - 1]) + match es[|es| - 1] case Failure(_) => 1 case Success(_) => -1 case _ => 0)
  }

  /** It is the largest balance of failures over successes in a suffix of the outcomes. */
  lemma {:induction false} LeakIsMaxSuffix(es: seq<Event>)
    ensures IsLeak(es, Leak(es))
  {
    var n := |es|;
    if n == 0 {
      assert Balance(es[0..]) == 0;
    } else {
      var front := es[..n - 1];
      LeakIsMaxSuffix(front);
      assert es[n..] == [];
      forall k | 0 <= k <= n ensures Balance(es[k..]) <= Leak(es) {
        if k < n { SuffixBalance(es, k); }
      }
      var k :| 0 <= k <= n - 1 && Balance(front[k..]) == Leak(front);
      SuffixBalance(es, k);
      if Leak(es) == 0 {
        assert Balance(es[n..]) == Leak(es);
      } else {
        assert Balance(es[k..]) == Leak(es);
      }
    }
  }

  /** No suffix has as many as `failureThreshold` more failures than successes. */
  ghost predicate CalmNow(o: Options, es: seq<Event>) {
    forall j | 0 <= j <= |es| :: Balance(es[j..]) < o.failureThreshold
  }

  /** No stretch of consecutive outcomes has, at any time. */
  ghost predicate Calm(o: Options, es: seq<Event>) { forall k | 0 <= k <= |es| :: CalmNow(o, es[..k]) }

  lemma CalmNowIffLeak(o: Options, es: seq<Event>)
    ensures CalmNow(o, es) <==> Leak(es) < o.failureThreshold
  {
    LeakIsMaxSuffix(es);
  }

  lemma CalmStep(o: Options, es: seq<Event>)
    requires es != []
    ensures Calm(o, es) <==> Calm(o, es[..|es| - 1]) && Leak(es) < o.failureThreshold
  {
    var n, front := |es|, es[..|es| - 1];
    CalmNowIffLeak(o, es);
    assert es[..n] == es;
    assert forall k | 0 <= k < n :: front[..k] == es[..k];
    if Calm(o, es) {
      assert CalmNow(o, es[..n]);
      forall k | 0 <= k <= n - 1 ensures CalmNow(o, front[..k]) { assert CalmNow(o, es[..k]); }
    }
    if Calm(o, front) && Leak(es) < o.failureThreshold {
      forall k | 0 <= k <= n ensures CalmNow(o, es[..k]) {
        if k < n { assert CalmNow(o, front[..k]); }
      }
    }
  }

  ghost predicate StaysIn(o: Options, b: Breaker, es: seq<Event>, state: State) {
    forall k | 0 <= k <= |es| :: Run(o, b, es[..k]).state == state
  }

  lemma StaysInStep(o: Options, b: Breaker, es: seq<Event>, state: State)
    requires es != []
    ensures StaysIn(o, b, es, state) <==> StaysIn(o, b, es[..|es| - 1], state) && Run(o, b, es).state == state
  {
    var n, front := |es|, es[..|es| - 1];
    assert es[..n] == es;
    assert forall k | 0 <= k < n :: front[..k] == es[..k];
    if StaysIn(o, b, es, state) {
      assert Run(o, b, es[..n]).state == state;
      forall k | 0 <= k <= n - 1 ensures Run(o, b, front[..k]).state == state {
        assert Run(o, b, es[..k]).state == state;
      }
    }
    if StaysIn(o, b, front, state) && Run(o, b, es).state == state {
      forall k | 0 <= k <= n ensures Run(o, b, es[..k]).state == state {
        if k < n { assert Run(o, b, front[..k]).state == state; }
      }
    }
  }

  /** From the moment CLOSED is entered, with any mix of reports, polls and admissions: the breaker
      has been CLOSED all along exactly while no stretch of outcomes has `failureThreshold` more
      failures than successes. Until then its counter is the largest excess of failures over
      successes in a suffix of the outcomes. */
  lemma {:induction false} ClosedIffCalm(o: Options, b: Breaker, es: seq<Event>)
    requires o.Valid() && b.state == CLOSED && b.failureCount == 0
    ensures StaysIn(o, b, es, CLOSED) <==> Calm(o, es)
    ensures Calm(o, es) ==> Run(o, b, es).failureCount == Leak(es) && IsLeak(es, Run(o, b, es).failureCount)
  {
    LeakIsMaxSuffix(es);
    if es == [] {
      assert forall k | 0 <= k <= |es| :: es[..k] == es;
      CalmNowIffLeak(o, es);
    } else {
      var front := es[..|es| - 1];
      ClosedIffCalm(o, b, front);
      CalmStep(o, es);
      StaysInStep(o, b, es, CLOSED);
      if StaysIn(o, b, front, CLOSED) {
        assert front[..|front|] == front;
        assert Run(o, b, front[..|front|]).state == CLOSED;
      }
    }
  }

  /** How CLOSED is entered: by a reported success in HALF_OPEN, with nothing counted. */
  lemma ClosedBegins(o: Options, b: Breaker, entry: Event)
    requires b.state != CLOSED && Stepped(o, b, entry).state == CLOSED
    ensures b.state == HALF_OPEN && entry.Success? && Stepped(o, b, entry).failureCount == 0
  {
  }

  lemma ClosedAdmits(o: Options, b: Breaker, es: seq<Event>, now: int)
    requires o.Valid() && b.state == CLOSED && b.failureCount == 0 && Calm(o, es)
    ensures Admits(o, Run(o, b, es), now)
  {
    ClosedIffCalm(o, b, es);
    assert es[..|es|] == es;
    assert Run(o, b, es[..|es|]).state == CLOSED;
  }

  /** A CLOSED breaker lets calls through: from the start, or from the success that has closed it, every
      call is admitted, at any time, while no stretch of the outcomes since has `failureThreshold` more
      failures than successes. */
  lemma CalmAdmits(o: Options, b: Breaker, entry: Event, es: seq<Event>, now: int)
    requires o.Valid() && Calm(o, es)
    ensures Admits(o, Run(o, NEW, es), now)
    ensures b.state != CLOSED && Stepped(o, b, entry).state == CLOSED ==>
              Admits(o, Run(o, Stepped(o, b, entry), es), now)
  {
    ClosedAdmits(o, NEW, es, now);
    if b.state != CLOSED && Stepped(o, b, entry).state == CLOSED {
      ClosedBegins(o, b, entry);
      ClosedAdmits(o, Stepped(o, b, entry), es, now);
    }
  }

  // ---------------------------------------------------------------- after a trip

  /** The clock reading of the last failure reported, in whatever state. */
  function LastFailure(es: seq<Event>): Option<int> {
    if es == [] then None
    else match es[|es| - 1] case Failure(now) => Some(now) case _ => LastFailure(es[..|es| - 1])
  }

  lemma {:induction false} LastFailureKept(o: Options, es: seq<Event>)
    ensures Run(o, NEW, es).lastFailureTime == LastFailure(es)
    ensures LastFailure(es).None? ==> Run(o, NEW, es).state == CLOSED
  {
    if es != [] { LastFailureKept(o, es[..|es| - 1]); }
  }

  /** An OPEN breaker admits a call if and only if `resetTimeout` has passed since the last failure
      that was reported, also when that failure was reported while it was OPEN. */
  lemma OpenAdmitsIff(o: Options, es: seq<Event>, now: int)
    requires o.Valid() && Run(o, NEW, es).state == OPEN
    ensures LastFailure(es).Some?
    ensures Admits(o, Run(o, NEW, es), now) <==> now - LastFailure(es).value >= o.resetTimeout
  {
    LastFailureKept(o, es);
  }

  /** The clock readings of `es` lie in [from, until). */
  predicate During(es: seq<Event>, from: int, until: int) { forall e | e in es :: from <= e.now < until }

  lemma {:induction false} OpenHolds(o: Options, b: Breaker, es: seq<Event>, t0: int)
    requires b.state == OPEN && b.lastFailureTime.Some? && b.lastFailureTime.value >= t0
    requires During(es, t0, t0 + o.resetTimeout)
    ensures Run(o, b, es).state == OPEN
    ensures Run(o, b, es).lastFailureTime.Some? && Run(o, b, es).lastFailureTime.value >= t0
  {
    if es != [] {
      OpenHolds(o, b, es[..|es| - 1], t0);
      assert es[|es| - 1] in es;
    }
  }

  /** After a failure at t0 leaves the breaker OPEN, it stays OPEN and no call is admitted before
      t0 + resetTimeout, whatever calls admitted earlier still report. */
  lemma TripHolds(o: Options, b: Breaker, t0: int, es: seq<Event>, now: int)
    requires Stepped(o, b, Failure(t0)).state == OPEN
    requires During(es, t0, t0 + o.resetTimeout) && t0 <= now < t0 + o.resetTimeout
    ensures var r := Run(o, Stepped(o, b, Failure(t0)), es); r.state == OPEN && !Admits(o, r, now)
  {
    OpenHolds(o, Stepped(o, b, Failure(t0)), es, t0);
  }

  // ---------------------------------------------------------------- a HALF_OPEN episode

  function Admissions(es: seq<Event>): nat {
    if es == [] then 0 else Admissions(es[..|es| - 1]) + One(es[|es| - 1].Admit?)
  }

  function Successes(es: seq<Event>): nat {
    if es == [] then 0 else Successes(es[..|es| - 1]) + One(es[|es| - 1].Success?)
  }

  /** Within HALF_OPEN every attempt is counted and stays within the limit. */
  lemma {:induction false} EpisodeCounts(o: Options, b: Breaker, es: seq<Event>)
    requires b.state == HALF_OPEN && b.halfOpenAttempts <= o.halfOpenMax && b.successCount < o.halfOpenMax
    requires StaysIn(o, b, es, HALF_OPEN)
    ensures var r := Run(o, b, es);
      && r.halfOpenAttempts == b.halfOpenAttempts + Admissions(es) <= o.halfOpenMax
      && r.successCount == b.successCount + Successes(es) < o.halfOpenMax
    ensures forall e | e in es :: !e.Failure?
  {
    if es != [] {
      StaysInStep(o, b, es, HALF_OPEN);
      EpisodeCounts(o, b, es[..|es| - 1]);
      assert es == es[..|es| - 1] + [es[|es| - 1]];
    }
  }

  lemma EpisodeAdmits(o: Options, b: Breaker, es: seq<Event>, k: nat)
    requires StaysIn(o, b, es, HALF_OPEN) && k < |es| && es[k].Admit?
    ensures Admits(o, Run(o, b, es[..k]), es[k].now)
  {
    assert es[..k + 1][..k] == es[..k];
    assert Run(o, b, es[..k]).state == HALF_OPEN && Run(o, b, es[..k + 1]).state == HALF_OPEN;
  }

  /** How an episode begins: a poll or a call after the timeout, and a call is its first attempt. */
  lemma EpisodeBegins(o: Options, b: Breaker, entry: Event)
    requires o.Valid() && b.state != HALF_OPEN && Stepped(o, b, entry).state == HALF_OPEN
    ensures b.state == OPEN && (entry.Poll? || entry.Admit?)
    ensures entry.now - (if b.lastFailureTime.Some? then b.lastFailureTime.value else 0) >= o.resetTimeout
    ensures entry.Admit? ==> Admits(o, b, entry.now)
    ensures var h := Stepped(o, b, entry); h.halfOpenAttempts == One(entry.Admit?) && h.successCount == 0
  {
  }

  /** A HALF_OPEN episode of any run, from the event that enters it on: every attempt so far was
      admitted, the one that entered it included, there were at most halfOpenMax of them, and no
      failure was reported. It ends in CLOSED with exactly the halfOpenMax-th reported success, and
      in OPEN with the first failure or with the first attempt beyond halfOpenMax; nothing else
      ends it. */
  lemma EpisodeEnds(o: Options, b: Breaker, entry: Event, es: seq<Event>, e: Event)
    requires o.Valid() && b.state != HALF_OPEN && Stepped(o, b, entry).state == HALF_OPEN
    requires StaysIn(o, Stepped(o, b, entry), es, HALF_OPEN)
    ensures var h, n := Stepped(o, b, entry), One(entry.Admit?) + Admissions(es);
      && n <= o.halfOpenMax && (forall x | x in es :: !x.Failure?)
      && (entry.Admit? ==> Admits(o, b, entry.now))
      && (forall k | 0 <= k < |es| && es[k].Admit? :: Admits(o, Run(o, h, es[..k]), es[k].now))
    ensures var h, n := Stepped(o, b, entry), One(entry.Admit?) + Admissions(es);
      var r := Stepped(o, Run(o, h, es), e);
      && (r.state == CLOSED <==> e.Success? && Successes(es) + 1 == o.halfOpenMax)
      && (r.state == OPEN <==> e.Failure? || (e.Admit? && n == o.halfOpenMax))
      && (e.Admit? ==> (Admits(o, Run(o, h, es), e.now) <==> n < o.halfOpenMax))
  {
    var h := Stepped(o, b, entry);
    EpisodeBegins(o, b, entry);
    EpisodeCounts(o, h, es);
    forall k | 0 <= k < |es| && es[k].Admit? ensures Admits(o, Run(o, h, es[..k]), es[k].now) {
      EpisodeAdmits(o, h, es, k);
    }
    assert es[..|es|] == es;
    assert Run(o, h, es[..|es|]).state == HALF_OPEN;
  }

  // ---------------------------------------------------------------- overlapping and sequential calls

  /** Calls admitted and not yet reported. */
  function Pending(o: Options, es: seq<Event>): int {
    if es == [] then 0
    else
      var front := es[..|es| - 1];
      Pending(o, front) + match es[|es| - 1]
        case Poll(_) => 0
        case Admit(now) => One(Admits(o, Run(o, NEW, front), now))
        case _ => -1
  }

  /** Only admitted calls report, each once. */
  predicate Honest(o: Options, es: seq<Event>)
  {
    es == [] || (Honest(o, es[..|es| - 1]) && Pending(o, es) >= 0)
  }

  lemma {:induction false} AttemptsArePending(o: Options, es: seq<Event>)
    requires o.Valid() && Honest(o, es)
    ensures var r := Run(o, NEW, es);
      && (r.lastFailureTime.None? ==> r.state == CLOSED)
      && (r.state == CLOSED ==> r.failureCount < o.failureThreshold)
      && (r.state == HALF_OPEN ==>
            r.halfOpenAttempts <= r.successCount + Pending(o, es) && r.successCount < o.halfOpenMax)
  {
    if es != [] { AttemptsArePending(o, es[..|es| - 1]); }
  }

  /** In every run with overlapping calls: the breaker is CLOSED as long as no failure was ever
      reported, and an attempt is rejected in HALF_OPEN only while another call is unfinished.
      In a run that makes its calls one after the other that rejection is unreachable. */
  lemma RejectionNeedsOverlap(o: Options, es: seq<Event>, now: int)
    requires o.Valid() && Honest(o, es)
    ensures Run(o, NEW, es).lastFailureTime.None? ==> Run(o, NEW, es).state == CLOSED
    ensures var p := Polled(o, Run(o, NEW, es), now);
      p.state == HALF_OPEN && !Admits(o, Run(o, NEW, es), now) ==> Pending(o, es) >= 1
  {
    AttemptsArePending(o, es);
  }

  /** With overlapping calls it does happen: one failure trips, one call is admitted after the
      timeout and is still running when the next one arrives. */
  lemma RejectionReachable(resetTimeout: nat)
    requires resetTimeout >= 1
    ensures var o := Options(1, resetTimeout, 1);
      var es := [Admit(0), Failure(0), Admit(resetTimeout)];
      Honest(o, es) && Run(o, NEW, es).state == HALF_OPEN && !Admits(o, Run(o, NEW, es), resetTimeout)
  {
    var o := Options(1, resetTimeout, 1);
    var es := [Admit(0), Failure(0), Admit(resetTimeout)];
    var two, one := es[..2], [Admit(0)];
    assert two == [Admit(0), Failure(0)] && two[..1] == one && one[..0] == [];
    assert Run(o, NEW, one) == NEW && Pending(o, one) == 1 && Honest(o, one);
    assert Run(o, NEW, two) == Breaker(OPEN, 1, 0, 0, Some(0)) && Pending(o, two) == 0 && Honest(o, two);
    assert Pending(o, es) == 1;
  }
}
