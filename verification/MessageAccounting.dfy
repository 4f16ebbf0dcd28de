/** What becomes of each message that is handed to `enqueue`, read from the calls, the resumptions
    and the depths they find. */
module MessageAccounting {
  import opened SendQueueModel

  /** `asyncio.Queue.full`. */
  predicate NoRoom<T>(q: Queue<T>) { 0 < q.max <= |q.items| }

  /** A call that finds the queue so waits ... */
  predicate Waits<T>(q: Queue<T>) { q.strategy == BlockSender && NoRoom(q) }

  /** ... or has its message dropped or refused. */
  predicate TurnsAway<T>(q: Queue<T>) {
    (q.strategy == DropNewest && NoRoom(q)) || (q.strategy == Disconnect && |q.items| >= q.max)
  }

  /** The messages of the enqueue calls. */
  function Asked<T>(events: seq<Event<T>>): multiset<T> {
    if events == [] then multiset{} else Asked(events[..|events| - 1]) + AskedBy(events[|events| - 1])
  }

  function AskedBy<T>(e: Event<T>): multiset<T> { if e.Enqueue? then multiset{e.msg} else multiset{} }

  function TurnedAway<T>(s: State<T>, events: seq<Event<T>>): multiset<T> {
    if events == [] then multiset{}
    else
      var before := events[..|events| - 1];
      TurnedAway(s, before) + TurnedAwayBy(Exec(s, before).q, events[|events| - 1])
  }

  function TurnedAwayBy<T>(q: Queue<T>, e: Event<T>): multiset<T> {
    if e.Enqueue? && TurnsAway(q) then multiset{e.msg} else multiset{}
  }

  /** The messages of senders cancelled while they waited. */
  function GivenUp<T>(s: State<T>, events: seq<Event<T>>): multiset<T> {
    if events == [] then multiset{}
    else
      var before := events[..|events| - 1];
      GivenUp(s, before) + GivenUpBy(Exec(s, before).q, events[|events| - 1])
  }

  function GivenUpBy<T>(q: Queue<T>, e: Event<T>): multiset<T> {
    if e.Withdraw? && e.msg in q.blocked then multiset{e.msg} else multiset{}
  }

  /** The messages that enter, in order: those of calls that neither wait nor are turned away, and
      those of waiting senders resumed with room. */
  function Arrivals<T>(s: State<T>, events: seq<Event<T>>): seq<T> {
    if events == [] then []
    else
      var before := events[..|events| - 1];
      Arrivals(s, before) + ArrivesBy(Exec(s, before).q, events[|events| - 1])
  }

  function ArrivesBy<T>(q: Queue<T>, e: Event<T>): seq<T> {
    match e
    case Enqueue(m) => if Waits(q) || TurnsAway(q) then [] else [m]
    case Unblock(m) => if m in q.blocked && !NoRoom(q) then [m] else []
    case _ => []
  }

  lemma EnterStep<T>(s: State<T>, e: Event<T>)
    ensures Apply(s, e).h.entered == s.h.entered + ArrivesBy(s.q, e)
  {}

  lemma CallStep<T>(s: State<T>, m: T)
    ensures Apply(s, Enqueue(m)).q.blocked == s.q.blocked + if Waits(s.q) then multiset{m} else multiset{}
  {}

  lemma ResumeStep<T>(s: State<T>, m: T)
    ensures Apply(s, Unblock(m)).q.blocked
            == if m in s.q.blocked && !NoRoom(s.q) then s.q.blocked - multiset{m} else s.q.blocked
  {}

  lemma GiveUpStep<T>(s: State<T>, m: T)
    ensures Apply(s, Withdraw(m)).q.blocked == if m in s.q.blocked then s.q.blocked - multiset{m} else s.q.blocked
  {}

  lemma DrainStep<T>(s: State<T>, e: Event<T>)
    requires e.Pop? || e.Finish?
    ensures Apply(s, e).q.blocked == s.q.blocked
  {}

  ghost predicate Balance<T>(q: Queue<T>, e: Event<T>, blocked: multiset<T>) {
    blocked + multiset(ArrivesBy(q, e)) + TurnedAwayBy(q, e) + GivenUpBy(q, e) == q.blocked + AskedBy(e)
  }

  lemma Balanced<T>(q: Queue<T>, e: Event<T>, blocked: multiset<T>)
    requires e.Enqueue? ==> blocked == q.blocked + if Waits(q) then multiset{e.msg} else multiset{}
    requires e.Unblock? ==>
      blocked == if e.msg in q.blocked && !NoRoom(q) then q.blocked - multiset{e.msg} else q.blocked
    requires e.Withdraw? ==> blocked == if e.msg in q.blocked then q.blocked - multiset{e.msg} else q.blocked
    requires e.Pop? || e.Finish? ==> blocked == q.blocked
    ensures Balance(q, e, blocked)
  {}

  /** What one event does to the senders that wait. */
  lemma WaitStep<T>(s: State<T>, e: Event<T>)
    ensures Balance(s.q, e, Apply(s, e).q.blocked)
  {
    match e
    case Enqueue(m) => CallStep(s, m); Balanced(s.q, e, Apply(s, e).q.blocked);
    case Unblock(m) => ResumeStep(s, m); Balanced(s.q, e, Apply(s, e).q.blocked);
    case Withdraw(m) => GiveUpStep(s, m); Balanced(s.q, e, Apply(s, e).q.blocked);
    case _ => DrainStep(s, e); Balanced(s.q, e, Apply(s, e).q.blocked);
  }

  lemma AddUp<T>(asked: multiset<T>, entered: seq<T>, blocked: multiset<T>, turned: multiset<T>, gone: multiset<T>,
    asked': multiset<T>, more: seq<T>, blocked': multiset<T>, turned': multiset<T>, gone': multiset<T>)
    requires asked == multiset(entered) + blocked + turned + gone
    requires blocked' + multiset(more) + turned' + gone' == blocked + asked'
    ensures asked + asked' == multiset(entered + more) + blocked' + (turned + turned') + (gone + gone')
  {
    var e, n := multiset(entered), multiset(more);
    assert multiset(entered + more) == e + n;
    assert e + blocked + turned + gone + asked' == e + turned + gone + (blocked + asked');
    assert e + turned + gone + (blocked' + n + turned' + gone')
        == (e + n) + blocked' + (turned + turned') + (gone + gone');
  }

  lemma {:induction false} Accounted<T>(s: State<T>, events: seq<Event<T>>)
    requires s.h.entered == [] && s.q.blocked == multiset{}
    ensures var t := Exec(s, events);
      && t.h.entered == Arrivals(s, events)
      && Asked(events) == multiset(t.h.entered) + t.q.blocked + TurnedAway(s, events) + GivenUp(s, events)
  {
    if events != [] {
      var before, e := events[..|events| - 1], events[|events| - 1];
      var t := Exec(s, before);
      Accounted(s, before);
      EnterStep(t, e);
      WaitStep(t, e);
      AddUp(Asked(before), t.h.entered, t.q.blocked, TurnedAway(s, before), GivenUp(s, before),
            AskedBy(e), ArrivesBy(t.q, e), Apply(t, e).q.blocked, TurnedAwayBy(t.q, e), GivenUpBy(t.q, e));
    }
  }

  /** Over any run, message by message: what was handed to `enqueue` entered the queue, still waits
      with its sender, was dropped or refused on arrival, or was given up with its sender; and what
      entered did so in this order. */
  lemma EveryMessageAccounted<T>(strategy: Strategy, max: int, events: seq<Event<T>>)
    ensures var start, s := Init(strategy, max), Reached(strategy, max, events);
      && Asked(events)
         == multiset(s.h.entered) + s.q.blocked + TurnedAway(start, events) + GivenUp(start, events)
      && s.h.entered == Arrivals(start, events)
  {
    Accounted(Init(strategy, max), events);
  }

  // ------------------------------------------------------------------
  // One step
  // ------------------------------------------------------------------

  /** The last n of a sequence. */
  function Newest<T>(all: seq<T>, n: nat): seq<T> { if |all| <= n then all else all[|all| - n..] }

  /** A call that suspends leaves its message with the waiting senders and moves nothing else. */
  lemma SuspendedCall<T>(s: State<T>, m: T)
    ensures AnswerOf(s.q) == Suspended <==> Waits(s.q)
    ensures AnswerOf(s.q) == Suspended ==>
      var t := Apply(s, Enqueue(m));
      && t.q.blocked == s.q.blocked + multiset{m}
      && t.q == s.q.(blocked := t.q.blocked, stats := s.q.stats.(highWater := t.q.stats.highWater))
      && t.h == s.h.(calls := s.h.calls + 1)
  {}

  /** Nothing but the queue of messages moves. */
  ghost predicate OnlyItems<T>(s: State<T>, t: State<T>) {
    && t.q.blocked == s.q.blocked && t.q.sending == s.q.sending
    && t.h.delivered == s.h.delivered && t.h.failed == s.h.failed && t.h.abandoned == s.h.abandoned
  }

  lemma KeepsNewest<T>(s: State<T>, m: T)
    requires s.q.strategy == DropOldest && 0 <= s.q.max && |s.q.items| <= s.q.max
    ensures OnlyItems(s, Apply(s, Enqueue(m)))
    ensures Apply(s, Enqueue(m)).q.items == Newest(s.q.items + [m], s.q.max)
  {}

  lemma KeepsAll<T>(s: State<T>, m: T)
    requires s.q.strategy != DropOldest && AnswerOf(s.q).Returned?
    ensures OnlyItems(s, Apply(s, Enqueue(m)))
    ensures Apply(s, Enqueue(m)).q.items == if TurnsAway(s.q) then s.q.items else s.q.items + [m]
  {}

  /** A call that returns leaves the waiting senders and the sends alone; its message is the newest of
      at most max, or the queue is as it was. */
  lemma ReturnedCall<T>(s: State<T>, m: T)
    requires Inv(s) && AnswerOf(s.q).Returned?
    ensures var t := Apply(s, Enqueue(m));
      && OnlyItems(s, t)
      && t.q.items == (if TurnsAway(s.q) then s.q.items
                       else if s.q.strategy == DropOldest then Newest(s.q.items + [m], s.q.max)
                       else s.q.items + [m])
  {
    if s.q.strategy == DropOldest { KeepsNewest(s, m); } else { KeepsAll(s, m); }
  }

  /** A send that ends leaves the sends in flight and is recorded once; nothing else moves. */
  lemma SendEndsOnce<T>(s: State<T>, m: T, outcome: Outcome)
    ensures var t := Apply(s, Finish(m, outcome));
      if m !in s.q.sending then t == s
      else
        && t.q.sending == s.q.sending - multiset{m}
        && t.q == s.q.(sending := t.q.sending, stats := t.q.stats)
        && t.h.delivered == s.h.delivered + (if outcome == Delivered then [m] else [])
        && t.h.failed == s.h.failed + (if outcome == Failed then [m] else [])
        && t.h.abandoned == s.h.abandoned + (if outcome == Cancelled then [m] else [])
        && t.h.entered == s.h.entered && t.h.removed == s.h.removed
  {
    match outcome
    case Delivered =>
    case Failed =>
    case Cancelled =>
  }
}
