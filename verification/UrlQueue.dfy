/** KafkaUrlQueue of src/kafka.ts: a queue that remembers the URLs it accepted lately. */
module UrlQueue {
  import opened Prelude
  import opened Database

  const SEEN_MAX := 100000

  /** `seen` is an insertion-ordered set: a sequence without repetitions, oldest first. */
  datatype Queue = Queue(localQueue: seq<Item>, seen: seq<Url>)

  const NEW := Queue([], [])

  /** One URL offered to the queue, by enqueue (which evicts) or by enqueueBatch (which does not),
      or one dequeue. */
  datatype Event = Offer(item: Item, evict: bool) | Take

  /** The oldest half goes when the set has grown beyond SEEN_MAX. */
  function Evicted(seen: seq<Url>): seq<Url> { if |seen| > SEEN_MAX then seen[SEEN_MAX / 2..] else seen }

  function Accepts(q: Queue, item: Item): bool { item.url !in q.seen }

  /** The queue without Kafka. */
  function Stepped(q: Queue, e: Event): Queue {
    match e
    case Take => if q.localQueue == [] then q else q.(localQueue := q.localQueue[1..])
    case Offer(item, evict) =>
      if !Accepts(q, item) then q
      else
        var grown := q.seen + [item.url];
        Queue(q.localQueue + [item], if evict then Evicted(grown) else grown)
  }

  function Run(q: Queue, es: seq<Event>): Queue {
    if es == [] then q else Stepped(Run(q, es[..|es| - 1]), es[|es| - 1])
  }

  function Offers(items: seq<Item>): seq<Event> { seq(|items|, k requires 0 <= k < |items| => Offer(items[k], false)) }

  /** The URLs of `items` that are not in `seen`, repetitions included: what enqueueBatch sends. */
  function Fresh(items: seq<Item>, seen: seq<Url>): seq<Item> {
    if items == [] then []
    else
      var front, last := items[..|items| - 1], items[|items| - 1];
      if last.url in seen then Fresh(front, seen) else Fresh(front, seen) + [last]
  }

  /** Set insertion in order. */
  function Remembered(seen: seq<Url>, items: seq<Item>): seq<Url> {
    if items == [] then seen
    else
      var before, last := Remembered(seen, items[..|items| - 1]), items[|items| - 1];
      if last.url in before then before else before + [last.url]
  }

  // ---------------------------------------------------------------- the object

  class KafkaUrlQueue {
    var enabled: bool
    var localQueue: seq<Item>
    var seen: seq<Url>

    function View(): Queue
      reads this
    {
      Queue(localQueue, seen)
    }

    constructor ()
      ensures View() == NEW && !enabled
    {
      enabled, localQueue, seen := false, [], [];
    }

    /** seen.add and the eviction loop over the set's iterator. */
    method Remember(url: Url)
      requires url !in seen
      modifies this`seen
      ensures seen == Evicted(old(seen) + [url])
    {
      seen := seen + [url];
      if |seen| > SEEN_MAX {
        var all := seen;
        for i := 0 to SEEN_MAX / 2
          invariant seen == all[i..]
        {
          seen := seen[1..];
        }
      }
    }

    /** `sendWorks` is the fate of the Kafka send, when there is one; a failed send queues locally. */
    method Enqueue(url: Url, depth: int, parent: Option<Url>, sendWorks: bool)
      modifies this`localQueue, this`seen
      ensures var item := Item(url, depth, parent, 0);
        && seen == Stepped(old(View()), Offer(item, true)).seen
        && (!enabled || !sendWorks ==> View() == Stepped(old(View()), Offer(item, true)))
        && (enabled && sendWorks ==> localQueue == old(localQueue))
    {
      if url in seen { return; }
      Remember(url);
      if !enabled || !sendWorks {
        localQueue := localQueue + [Item(url, depth, parent, 0)];
      }
    }

    /** The loop that enqueueBatch runs without Kafka, and again in its catch block. */
    method OfferAll(items: seq<Item>)
      modifies this`localQueue, this`seen
      ensures View() == Run(old(View()), Offers(items))
    {
      for k := 0 to |items|
        invariant View() == Run(old(View()), Offers(items[..k]))
      {
        assert Offers(items[..k + 1])[..k] == Offers(items[..k]);
        if items[k].url !in seen {
          seen := seen + [items[k].url];
          localQueue := localQueue + [items[k]];
        }
      }
      assert items[..|items|] == items;
    }

    /** enqueueBatch with Kafka, up to the send: the messages are built, and their URLs remembered. */
    method BuildMessages(items: seq<Item>) returns (messages: seq<Item>)
      modifies this`seen
      ensures messages == Fresh(items, old(seen))
      ensures seen == Remembered(old(seen), messages)
    {
      messages := [];
      for k := 0 to |items|
        invariant messages == Fresh(items[..k], seen) && seen == old(seen)
      {
        assert items[..k + 1][..k] == items[..k];
        if items[k].url !in seen { messages := messages + [items[k]]; }
      }
      assert items[..|items|] == items;
      for k := 0 to |messages|
        invariant seen == Remembered(old(seen), messages[..k])
      {
        assert messages[..k + 1][..k] == messages[..k];
        if messages[k].url !in seen { seen := seen + [messages[k].url]; }
      }
      assert messages[..|messages|] == messages;
    }

    method Dequeue() returns (item: Option<Item>)
      modifies this`localQueue
      ensures View() == Stepped(old(View()), Take)
      ensures item == if old(localQueue) == [] then None else Some(old(localQueue)[0])
    {
      if localQueue == [] { return None; }
      item := Some(localQueue[0]);
      localQueue := localQueue[1..];
    }
  }

  lemma {:induction false} RememberedGrows(seen: seq<Url>, items: seq<Item>, u: Url)
    ensures u in Remembered(seen, items) <==> u in seen || exists k :: 0 <= k < |items| && items[k].url == u
  {
    if items != [] {
      var front, last := items[..|items| - 1], items[|items| - 1];
      RememberedGrows(seen, front, u);
      if u in Remembered(seen, items) && u !in seen && u !in Remembered(seen, front) {
        assert items[|items| - 1].url == u;
      }
      if k :| 0 <= k < |items| && items[k].url == u {
        if k < |items| - 1 { assert front[k].url == u; }
      }
      if k :| 0 <= k < |front| && front[k].url == u { assert items[k].url == u; }
    }
  }

  lemma {:induction false} FreshHas(items: seq<Item>, seen: seq<Url>, i: Item)
    ensures i in Fresh(items, seen) <==> i in items && i.url !in seen
  {
    if items != [] {
      FreshHas(items[..|items| - 1], seen, i);
      assert items == items[..|items| - 1] + [items[|items| - 1]];
    }
  }

  lemma ItemRemembered(items: seq<Item>, seen: seq<Url>, i: Item)
    requires i in items
    ensures i.url in Remembered(seen, Fresh(items, seen))
  {
    var unseen := Fresh(items, seen);
    FreshHas(items, seen, i);
    RememberedGrows(seen, unseen, i.url);
    if i in unseen {
      var k :| 0 <= k < |unseen| && unseen[k] == i;
      assert unseen[k].url == i.url;
    }
  }

  lemma {:induction false} NothingOffered(q: Queue, items: seq<Item>)
    requires forall k | 0 <= k < |items| :: items[k].url in q.seen
    ensures Run(q, Offers(items)) == q
  {
    if items != [] {
      var front := items[..|items| - 1];
      NothingOffered(q, front);
      assert Offers(items)[..|items| - 1] == Offers(front);
    }
  }

  /** When the send of a batch fails and nothing else has run meanwhile, the catch block queues
      nothing: the batch leaves the queue as it was, with all its URLs remembered. So exactly the
      URLs not seen before are lost: neither sent nor queued, and refused when offered again. */
  lemma FailedBatchIsLost(q: Queue, items: seq<Item>)
    ensures var remembered := q.(seen := Remembered(q.seen, Fresh(items, q.seen)));
      Run(remembered, Offers(items)) == remembered
    ensures forall i | i in items :: !Accepts(q.(seen := Remembered(q.seen, Fresh(items, q.seen))), i)
    ensures forall i | i in items :: i in Fresh(items, q.seen) <==> Accepts(q, i)
  {
    forall i | i in items ensures i.url in Remembered(q.seen, Fresh(items, q.seen)) {
      ItemRemembered(items, q.seen, i);
    }
    NothingOffered(q.(seen := Remembered(q.seen, Fresh(items, q.seen))), items);
    forall i | i in items ensures i in Fresh(items, q.seen) <==> Accepts(q, i) { FreshHas(items, q.seen, i); }
  }

  // ---------------------------------------------------------------- runs without Kafka

  /** The items accepted in a run, in order. */
  function Accepted(es: seq<Event>): seq<Item> {
    if es == [] then []
    else
      var front, last := es[..|es| - 1], es[|es| - 1];
      if last.Offer? && Accepts(Run(NEW, front), last.item) then Accepted(front) + [last.item] else Accepted(front)
  }

  /** The items dequeued in a run, in order. */
  function Taken(es: seq<Event>): seq<Item> {
    if es == [] then []
    else
      var front, last := es[..|es| - 1], es[|es| - 1];
      if last == Take && Run(NEW, front).localQueue != [] then Taken(front) + [Run(NEW, front).localQueue[0]]
      else Taken(front)
  }

  /** Nothing is lost, repeated or reordered: what was dequeued, followed by what is queued, is what
      was accepted. */
  lemma {:induction false} FirstInFirstOut(es: seq<Event>)
    ensures Taken(es) + Run(NEW, es).localQueue == Accepted(es)
  {
    if es != [] {
      FirstInFirstOut(es[..|es| - 1]);
    }
  }

  predicate NoRepeats(us: seq<Url>) { forall j, k | 0 <= j < k < |us| :: us[j] != us[k] }

  /** The remembered set is the latest part of the accepted URLs, and more than half of SEEN_MAX of
      them unless fewer were accepted. */
  ghost predicate IsLatest(seen: seq<Url>, accepted: seq<Item>) {
    && Min(|accepted|, SEEN_MAX / 2 + 1) <= |seen| <= |accepted|
    && (forall k | 0 <= k < |seen| :: seen[k] == accepted[|accepted| - |seen| + k].url)
    && NoRepeats(seen)
  }

  lemma {:induction false} SeenIsLatest(es: seq<Event>)
    ensures IsLatest(Run(NEW, es).seen, Accepted(es))
  {
    if es != [] {
      var front, last := es[..|es| - 1], es[|es| - 1];
      SeenIsLatest(front);
      if last.Offer? && Accepts(Run(NEW, front), last.item) {
        LatestGrows(Run(NEW, front).seen, Accepted(front), last.item, last.evict);
      }
    }
  }

  lemma LatestGrows(seen: seq<Url>, accepted: seq<Item>, item: Item, evict: bool)
    requires IsLatest(seen, accepted) && item.url !in seen
    ensures IsLatest(if evict then Evicted(seen + [item.url]) else seen + [item.url], accepted + [item])
  {
    var grown, all := seen + [item.url], accepted + [item];
    assert forall k | 0 <= k < |seen| :: grown[k] == seen[k];
    assert forall k | 0 <= k < |accepted| :: all[k] == accepted[k];
    assert IsLatest(grown, all);
    if |grown| > SEEN_MAX { LatestTrimmed(grown, all); }
  }

  lemma LatestTrimmed(seen: seq<Url>, accepted: seq<Item>)
    requires IsLatest(seen, accepted) && |seen| > SEEN_MAX
    ensures IsLatest(seen[SEEN_MAX / 2..], accepted)
  {
  }

  lemma NotLately(seen: seq<Url>, accepted: seq<Item>, j: nat)
    requires IsLatest(seen, accepted) && j < |accepted| && accepted[j].url !in seen
    ensures |accepted| - j > SEEN_MAX / 2 + 1
  {
    var start := |accepted| - |seen|;
    forall i | start <= i < |accepted| ensures accepted[i].url in seen {
      assert seen[i - start] == accepted[start + (i - start)].url;
    }
  }

  /** Two acceptances of one URL are more than SEEN_MAX / 2 + 1 acceptances apart. */
  lemma {:induction false} AcceptancesApart(es: seq<Event>, j: nat, k: nat)
    requires j < k < |Accepted(es)| && Accepted(es)[j].url == Accepted(es)[k].url
    ensures k - j > SEEN_MAX / 2 + 1
  {
    var front := es[..|es| - 1];
    if k < |Accepted(front)| {
      AcceptancesApart(front, j, k);
    } else {
      SeenIsLatest(front);
      NotLately(Run(NEW, front).seen, Accepted(front), j);
    }
  }

  predicate EnqueueOnly(es: seq<Event>) { forall e | e in es && e.Offer? :: e.evict }

  /** In runs that only use enqueue and dequeue the set never exceeds SEEN_MAX. */
  lemma {:induction false} SeenBounded(es: seq<Event>)
    requires EnqueueOnly(es)
    ensures |Run(NEW, es).seen| <= SEEN_MAX
  {
    if es != [] {
      assert forall e | e in es[..|es| - 1] :: e in es;
      assert es[|es| - 1] in es;
      SeenBounded(es[..|es| - 1]);
    }
  }

  // ---------------------------------------------------------------- how long a URL is remembered

  /** How many of `n` queued URLs are remembered: all of them up to SEEN_MAX, and SEEN_MAX / 2 fewer
      each time that is exceeded. */
  function Kept(n: nat): nat { if n <= SEEN_MAX then n else Kept(n - SEEN_MAX / 2) }

  lemma {:induction false} KeptNext(n: nat)
    ensures Kept(n) <= SEEN_MAX
    ensures Kept(n + 1) == if Kept(n) == SEEN_MAX then SEEN_MAX / 2 + 1 else Kept(n) + 1
  {
    if n > SEEN_MAX { KeptNext(n - SEEN_MAX / 2); }
  }

  lemma SizeNext(q: Queue, item: Item)
    requires |q.seen| <= SEEN_MAX
    ensures |Stepped(q, Offer(item, true)).seen|
         == if item.url in q.seen then |q.seen|
            else if |q.seen| == SEEN_MAX then SEEN_MAX / 2 + 1
            else |q.seen| + 1
  {
  }

  lemma {:induction false} SeenSize(es: seq<Event>)
    requires EnqueueOnly(es)
    ensures |Run(NEW, es).seen| == Kept(|Accepted(es)|)
  {
    if es != [] {
      var front, last := es[..|es| - 1], es[|es| - 1];
      assert forall e | e in front :: e in es;
      assert last in es;
      SeenSize(front);
      KeptNext(|Accepted(front)|);
      if last.Offer? { SizeNext(Run(NEW, front), last.item); }
    }
  }

  /** The URL is none of the last `n` of `items`. */
  predicate NotAmong(items: seq<Item>, n: nat, u: Url)
    requires n <= |items|
  {
    forall k | |items| - n <= k < |items| :: items[k].url != u
  }

  lemma SeenIffAmong(seen: seq<Url>, accepted: seq<Item>, u: Url)
    requires IsLatest(seen, accepted)
    ensures u !in seen <==> NotAmong(accepted, |seen|, u)
  {
    var start := |accepted| - |seen|;
    if u in seen {
      var k :| 0 <= k < |seen| && seen[k] == u;
      assert accepted[start + k].url == u;
    } else {
      forall k | start <= k < |accepted| ensures accepted[k].url != u {
        assert seen[k - start] == accepted[start + (k - start)].url;
      }
    }
  }

  /** The exact rule: after any run of enqueue and dequeue, a URL is queued if and only if it is none
      of the last Kept(n) of the n URLs that have been queued so far. */
  lemma QueuedIffNotRecent(es: seq<Event>, item: Item)
    requires EnqueueOnly(es)
    ensures var q := Run(NEW, es);
      var all, next := Taken(es) + q.localQueue, Stepped(q, Offer(item, true)).localQueue;
      && Kept(|all|) <= |all|
      && next == if NotAmong(all, Kept(|all|), item.url) then q.localQueue + [item] else q.localQueue
  {
    FirstInFirstOut(es);
    SeenIsLatest(es);
    SeenSize(es);
    SeenIffAmong(Run(NEW, es).seen, Accepted(es), item.url);
  }
}
