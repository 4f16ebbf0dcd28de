/** What holds of a send queue over every run, whatever the interleaving. */
module SendQueueRuns {
  import opened SendQueueModel
  import opened DeliveryOrder

  // ------------------------------------------------------------------
  // First in, first out, and nothing lost unaccounted
  // ------------------------------------------------------------------

  lemma SentOrPending<T>(s: State<T>)
    requires SendInv(s)
    ensures |Popped(s)| == s.q.stats.sent + s.q.stats.errors + |s.h.abandoned| + |s.q.sending|
  {
    assert |multiset(Popped(s))| == |Popped(s)|;
  }

  /** The lossless strategies: arrivals are the pops followed by the queue, and as long as the
      oldest send in flight is the one that ends, the client receives them in that order. */
  lemma FifoConservation<T>(strategy: Strategy, max: int, events: seq<Event<T>>)
    requires strategy != DropOldest
    ensures var s := Reached(strategy, max, events);
      && s.h.entered == Popped(s) + s.q.items
      && (0 < max ==> |s.q.items| <= max)
      && s.q.stats.queued == |s.h.entered|
      && s.q.stats.queued
         == s.q.stats.sent + s.q.stats.errors + |s.q.items| + |s.q.sending| + |s.h.abandoned|
      && multiset(Popped(s))
         == multiset(s.h.delivered) + multiset(s.h.failed) + multiset(s.h.abandoned) + s.q.sending
      && (OldestFirst(Init(strategy, max), events) ==> InOrder(s.h.delivered, Popped(s)))
  {
    ReachedInv(strategy, max, events);
    if OldestFirst(Init(strategy, max), events) { DeliveredInOrder(strategy, max, events); }
    var s := Reached(strategy, max, events);
    NoEvictions(s.h.removed);
    MsgsAt(s.h.removed);
    assert s.h.entered[..|s.h.removed|] == Msgs(s.h.removed);
    SentOrPending(s);
  }

  /** Every enqueue call is queued, dropped, refused, still blocked, or was cancelled while blocked. */
  lemma CallAccounting<T>(strategy: Strategy, max: int, events: seq<Event<T>>)
    requires Constructible(strategy, max)
    ensures var s := Reached(strategy, max, events);
      && s.h.calls == s.q.stats.queued + s.q.stats.dropped + |s.q.blocked| + s.h.withdrawn + s.h.refused
      && (s.q.blocked != multiset{} ==> strategy == BlockSender && 0 < max)
  {
    ReachedInv(strategy, max, events);
  }

  // ------------------------------------------------------------------
  // DROP_OLDEST against the unbounded history
  // ------------------------------------------------------------------

  /** The queue is the newest part of the history; what was popped and what was evicted
      partition the rest, each in the order of arrival; and as long as the oldest send in flight
      is the one that ends, the client receives messages in the order of arrival. */
  lemma DropOldestRefinesHistory<T>(max: nat, events: seq<Event<T>>)
    ensures var s := Reached(DropOldest, max, events);
      var n := |s.h.removed|;
      var sent, gone := Positions(s.h.removed, false), Positions(s.h.removed, true);
      && s.h.calls == |s.h.entered|
      && n <= |s.h.entered| && s.q.items == s.h.entered[n..] && |s.q.items| <= max
      && Increasing(sent, n) && Increasing(gone, n)
      && (forall i :: 0 <= i < n ==> (i in sent <==> i !in gone))
      && |sent| == |Popped(s)| && (forall k :: 0 <= k < |sent| ==> Popped(s)[k] == s.h.entered[sent[k]])
      && |gone| == |Evicted(s)| && (forall k :: 0 <= k < |gone| ==> Evicted(s)[k] == s.h.entered[gone[k]])
      && (OldestFirst(Init(DropOldest, max), events) ==> InOrder(s.h.delivered, s.h.entered[..n]))
  {
    if OldestFirst(Init(DropOldest, max), events) { DeliveredInOrder(DropOldest, max, events); }
    ReachedInv(DropOldest, max, events);
    var s := Reached(DropOldest, max, events);
    MsgsAt(s.h.removed);
    PositionsOf(s.h.removed, false);
    PositionsOf(s.h.removed, true);
    assert forall i :: 0 <= i < |s.h.removed| ==> s.h.entered[i] == s.h.removed[i].msg;
  }

  /** The steps of a run that raise the depth from max-1 to max. */
  function Fills<T>(s: State<T>, events: seq<Event<T>>): nat {
    if events == [] then 0
    else
      var last := |events| - 1;
      var before, after := Exec(s, events[..last]), Exec(s, events);
      Fills(s, events[..last]) + if |before.q.items| == s.q.max - 1 && |after.q.items| == s.q.max then 1 else 0
  }

  lemma ApplyFills<T>(s: State<T>, e: Event<T>)
    requires CapacityInv(s)
    ensures var t := Apply(s, e);
      t.h.fills == s.h.fills + if |s.q.items| == s.q.max - 1 && |t.q.items| == s.q.max then 1 else 0
  {
    match e
    case Enqueue(m) =>
    case Unblock(m) =>
    case Withdraw(m) =>
    case Pop =>
    case Finish(m, outcome) =>
  }

  lemma {:induction false} FillsCounted<T>(s: State<T>, events: seq<Event<T>>)
    requires Inv(s)
    ensures Exec(s, events).h.fills == s.h.fills + Fills(s, events)
  {
    if events != [] {
      var before := events[..|events| - 1];
      FillsCounted(s, before);
      ExecInv(s, before);
      ExecConfig(s, before);
      ApplyFills(Exec(s, before), events[|events| - 1]);
    }
  }

  /** What the DROP_OLDEST counters mean. */
  lemma DropOldestCounters<T>(max: nat, events: seq<Event<T>>)
    ensures var s := Reached(DropOldest, max, events);
      && s.q.stats.queued + s.q.stats.dropped == s.h.calls
      && s.q.stats.dropped == |Evicted(s)| + Fills(Init(DropOldest, max), events)
      && |Evicted(s)| <= s.q.stats.dropped <= |Evicted(s)| + |Popped(s)| + 1
  {
    ReachedInv(DropOldest, max, events);
    InitInv<T>(DropOldest, max);
    FillsCounted(Init(DropOldest, max), events);
  }

  // ------------------------------------------------------------------
  // The high-water mark
  // ------------------------------------------------------------------

  function Depths<T>(s: State<T>, events: seq<Event<T>>): seq<nat> {
    if events == [] then [|s.q.items|]
    else Depths(s, events[..|events| - 1]) + [|Exec(s, events).q.items|]
  }

  ghost predicate IsPeak(depths: seq<nat>, peak: nat) {
    peak in depths && forall d :: d in depths ==> d <= peak
  }

  lemma ApplyPeak<T>(s: State<T>, e: Event<T>)
    requires |s.q.items| <= s.h.peak
    ensures Apply(s, e).h.peak == Max(s.h.peak, |Apply(s, e).q.items|)
  {}

  lemma ExtendPeak(depths: seq<nat>, peak: nat, d: nat)
    requires IsPeak(depths, peak)
    ensures IsPeak(depths + [d], Max(peak, d))
  {
    assert (depths + [d])[|depths|] == d;
  }

  lemma {:induction false} PeakIsTrue<T>(s: State<T>, events: seq<Event<T>>)
    requires Inv(s) && s.h.peak == |s.q.items|
    ensures IsPeak(Depths(s, events), Exec(s, events).h.peak)
  {
    if events != [] {
      var before := events[..|events| - 1];
      PeakIsTrue(s, before);
      ExecInv(s, before);
      ApplyPeak(Exec(s, before), events[|events| - 1]);
      ExtendPeak(Depths(s, before), Exec(s, before).h.peak, |Exec(s, events).q.items|);
    }
  }

  /** For every strategy the recorded mark is the true peak or one below it. */
  lemma HighWaterMark<T>(strategy: Strategy, max: int, events: seq<Event<T>>, peak: nat)
    requires Constructible(strategy, max)
    requires IsPeak(Depths(Init(strategy, max), events), peak)
    ensures var mark := Reached(strategy, max, events).q.stats.highWater;
      && mark <= peak <= mark + 1
      && (0 < max ==> peak <= max)
  {
    ReachedInv(strategy, max, events);
    InitInv<T>(strategy, max);
    PeakIsTrue(Init(strategy, max), events);
    assert peak == Reached(strategy, max, events).h.peak;
  }

  /** The depths that the enqueue calls of a run found. */
  function Found<T>(s: State<T>, events: seq<Event<T>>): seq<nat> {
    if events == [] then []
    else
      var before := events[..|events| - 1];
      Found(s, before) + if events[|events| - 1].Enqueue? then [|Exec(s, before).q.items|] else []
  }

  lemma ApplyMark<T>(s: State<T>, e: Event<T>)
    ensures Apply(s, e).q.stats.highWater
            == if e.Enqueue? then Max(s.q.stats.highWater, |s.q.items|) else s.q.stats.highWater
  {}

  ghost predicate Tops(mark: nat, start: nat, found: seq<nat>) {
    && start <= mark && (forall d :: d in found ==> d <= mark)
    && (mark == start || mark in found)
  }

  lemma TopsMore(mark: nat, start: nat, found: seq<nat>, d: nat)
    requires Tops(mark, start, found)
    ensures Tops(Max(mark, d), start, found + [d])
  {
    assert (found + [d])[|found|] == d;
  }

  ghost predicate MarkTops<T>(s: State<T>, events: seq<Event<T>>) {
    Tops(Exec(s, events).q.stats.highWater, s.q.stats.highWater, Found(s, events))
  }

  lemma MarkStep<T>(s: State<T>, before: seq<Event<T>>, e: Event<T>, events: seq<Event<T>>)
    requires events == before + [e] && MarkTops(s, before)
    ensures MarkTops(s, events)
  {
    assert events[..|before|] == before;
    var t := Exec(s, before);
    ApplyMark(t, e);
    if e.Enqueue? {
      TopsMore(t.q.stats.highWater, s.q.stats.highWater, Found(s, before), |t.q.items|);
    }
  }

  lemma NothingFound<T>(s: State<T>)
    ensures MarkTops(s, [])
  {
    assert Exec(s, []) == s;
  }

  lemma MarkIsFound<T>(s: State<T>, events: seq<Event<T>>)
    ensures MarkTops(s, events)
  {
    NothingFound(s);
    for n := 0 to |events|
      invariant MarkTops(s, events[..n])
    {
      MarkStep(s, events[..n], events[n], events[..n + 1]);
    }
    assert events[..|events|] == events;
  }

  /** The mark is the peak the documentation promises exactly if some enqueue call found the
      queue that deep, or it was never filled at all. */
  lemma MarkIsPeakIff<T>(strategy: Strategy, max: int, events: seq<Event<T>>, peak: nat)
    requires Constructible(strategy, max)
    requires IsPeak(Depths(Init(strategy, max), events), peak)
    ensures Reached(strategy, max, events).q.stats.highWater == peak
            <==> peak == 0 || peak in Found(Init(strategy, max), events)
  {
    HighWaterMark(strategy, max, events, peak);
    MarkIsFound(Init(strategy, max), events);
  }

  /** A run on which it is not: the mark does not see the first message of a queue. */
  lemma MarkBelowPeak<T>(m: T) returns (events: seq<Event<T>>)
    ensures events == [Enqueue(m)]
    ensures Reached(DropNewest, 2, events).q.stats.highWater == 0
    ensures IsPeak(Depths(Init(DropNewest, 2), events), 1)
  {
    events := OneArrived(m);
    InitInv<T>(DropNewest, 2);
    PeakIsTrue(Init(DropNewest, 2), events);
  }

  lemma FirstArrives<T>(s: State<T>, m: T)
    requires s == Init(DropNewest, 2)
    ensures var t := Apply(s, Enqueue(m)); t.h.peak == 1 && t.q.stats.highWater == 0
  {}

  lemma Started<T>(s: State<T>, e: Event<T>) returns (events: seq<Event<T>>, t: State<T>)
    ensures events == [e] && t == Apply(s, e) && Exec(s, events) == t
  {
    assert Exec(s, []) == s;
    events := Then(s, [], e);
    t := Apply(s, e);
  }

  lemma OneArrived<T>(m: T) returns (events: seq<Event<T>>)
    ensures events == [Enqueue(m)]
    ensures Reached(DropNewest, 2, events).h.peak == 1 && Reached(DropNewest, 2, events).q.stats.highWater == 0
  {
    FirstArrives(Init(DropNewest, 2), m);
    var t;
    events, t := Started(Init(DropNewest, 2), Enqueue(m));
  }

  // ------------------------------------------------------------------
  // Where `messages_dropped` is not the number of evictions
  // ------------------------------------------------------------------

  /** One call counts a drop without evicting exactly when it takes the last free place. */
  lemma CountsDropWithoutEviction<T>(s: State<T>, m: T)
    requires Inv(s) && s.q.strategy == DropOldest
    ensures var t := Apply(s, Enqueue(m));
      (t.q.stats.dropped == s.q.stats.dropped + 1 && Evicted(t) == Evicted(s))
      <==> |s.q.items| == s.q.max - 1
  {
    EnqueueInv(s, m);
    if |s.q.items| >= s.q.max {
      ReadLog(s.h.removed, Removed((s.q.items + [m])[0], true));
    }
  }

  /** Over a run the counter is the number of evictions exactly when the queue was never full. */
  lemma DroppedIsEvictionsIff<T>(max: nat, events: seq<Event<T>>, peak: nat)
    requires 0 < max
    requires IsPeak(Depths(Init(DropOldest, max), events), peak)
    ensures var s := Reached(DropOldest, max, events);
      s.q.stats.dropped == |Evicted(s)| <==> peak < max
  {
    ReachedInv(DropOldest, max, events);
    InitInv<T>(DropOldest, max);
    PeakIsTrue(Init(DropOldest, max), events);
    assert peak == Reached(DropOldest, max, events).h.peak;
  }

  /** And `messages_queued`, documented as the messages successfully queued, is the number of
      arrivals exactly then too. */
  lemma QueuedIsArrivalsIff<T>(max: nat, events: seq<Event<T>>, peak: nat)
    requires 0 < max
    requires IsPeak(Depths(Init(DropOldest, max), events), peak)
    ensures var s := Reached(DropOldest, max, events);
      s.q.stats.queued == |s.h.entered| <==> peak < max
  {
    ReachedInv(DropOldest, max, events);
    InitInv<T>(DropOldest, max);
    PeakIsTrue(Init(DropOldest, max), events);
    assert peak == Reached(DropOldest, max, events).h.peak;
  }

  /** The shortest run on which it fails: one message into a queue of one place. */
  lemma DropCountedNothingLost<T>(m: T)
    ensures var s := Reached(DropOldest, 1, [Enqueue(m)]);
      s.q.items == [m] && Evicted(s) == [] && s.q.stats.dropped == 1 && s.q.stats.queued == 0
  {
    var events := [Enqueue(m)];
    assert events[..0] == [];
    assert Exec(Init(DropOldest, 1), events) == DoEnqueue(Init(DropOldest, 1), m);
  }

  // ------------------------------------------------------------------
  // What `enqueue` answers
  // ------------------------------------------------------------------

  /** The message entered by this call and is now the newest one queued. */
  ghost predicate Queued<T>(s: State<T>, t: State<T>, m: T) {
    t.h.entered == s.h.entered + [m] && t.q.items != [] && t.q.items[|t.q.items| - 1] == m
  }

  lemma LastOfAppend<T>(items: seq<T>, m: T)
    ensures items != [] ==> ((items + [m])[1..])[|items| - 1] == m
    ensures (items + [m])[|items|] == m
  {}

  lemma DropOldestQueues<T>(s: State<T>, m: T)
    requires Inv(s) && s.q.strategy == DropOldest
    ensures Queued(s, DoEnqueue(s, m), m) <==> s.q.max != 0
  {
    LastOfAppend(s.q.items, m);
  }

  lemma OthersQueue<T>(s: State<T>, m: T)
    requires Inv(s) && s.q.strategy != DropOldest
    ensures Queued(s, DoEnqueue(s, m), m)
            <==> if s.q.strategy == Disconnect then |s.q.items| < s.q.max else !AsyncFull(s.q)
  {
    LastOfAppend(s.q.items, m);
    assert s.h.entered != s.h.entered + [m];
  }

  /** A call that does not suspend is documented to answer True if the message was enqueued and
      False if not.  It does so exactly unless DROP_NEWEST finds its queue full, or DROP_OLDEST
      has no place at all. */
  lemma AnswerIsTrueIff<T>(s: State<T>, m: T)
    requires Inv(s) && AnswerOf(s.q).Returned?
    ensures (AnswerOf(s.q).accepted <==> Queued(s, Apply(s, Enqueue(m)), m))
            <==> !(s.q.strategy == DropNewest && AsyncFull(s.q)) && !(s.q.strategy == DropOldest && s.q.max == 0)
  {
    if s.q.strategy == DropOldest { DropOldestQueues(s, m); } else { OthersQueue(s, m); }
  }

  /** A call that suspends is queued by the resumption that makes it answer, and by no other. */
  lemma ResumedWhenQueued<T>(s: State<T>, m: T)
    requires Inv(s) && m in s.q.blocked
    ensures AnswerOf(s.q) == Returned(true) <==> Queued(s, Apply(s, Unblock(m)), m)
  {
    var t := Apply(s, Unblock(m));
    assert t.h.entered == s.h.entered ==> !Queued(s, t, m);
  }

  lemma FullAnswersTrue<T>(s: State<T>, m: T)
    requires s.q.strategy == DropNewest && AsyncFull(s.q)
    ensures AnswerOf(s.q) == Returned(true)
    ensures var t := Apply(s, Enqueue(m));
      t.q.items == s.q.items && t.h.entered == s.h.entered && t.q.stats.dropped == s.q.stats.dropped + 1
  {}

  lemma FirstQueued<T>(s: State<T>, a: T)
    requires s == Init(DropNewest, 1)
    ensures var t := Apply(s, Enqueue(a));
      t.q == Queue(DropNewest, 1, [a], SendStats(1, 0, 0, 0, 0), multiset{}, multiset{}) && t.h.entered == [a]
  {}

  lemma OneQueued<T>(a: T) returns (events: seq<Event<T>>)
    ensures events == [Enqueue(a)]
    ensures var s := Reached(DropNewest, 1, events);
      s.q == Queue(DropNewest, 1, [a], SendStats(1, 0, 0, 0, 0), multiset{}, multiset{}) && s.h.entered == [a]
  {
    FirstQueued(Init(DropNewest, 1), a);
    var t;
    events, t := Started(Init(DropNewest, 1), Enqueue(a));
  }

  /** A run: a full DROP_NEWEST queue answers True to the second message, which it drops. */
  lemma DroppedButTrue<T>(a: T, b: T) returns (events: seq<Event<T>>)
    ensures events == [Enqueue(a), Enqueue(b)]
    ensures AnswerOf(Reached(DropNewest, 1, events[..1]).q) == Returned(true)
    ensures var t := Reached(DropNewest, 1, events);
      t.q.items == [a] && t.h.entered == [a] && t.q.stats.dropped == 1
  {
    var one := OneQueued(a);
    FullAnswersTrue(Reached(DropNewest, 1, one), b);
    events := Then(Init(DropNewest, 1), one, Enqueue(b));
    assert events[..1] == one;
  }
}
