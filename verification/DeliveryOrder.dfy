/** The order in which sends end, against the order in which messages entered the queue.

    Messages are popped in the order they entered, but a popped message is in flight until its
    send ends, and with two drains at work the later one may end first. */
module DeliveryOrder {
  import opened SendQueueModel

  ghost predicate Increasing(p: seq<nat>, below: nat) {
    && (forall i, j :: 0 <= i < j < |p| ==> p[i] < p[j])
    && (forall i :: 0 <= i < |p| ==> p[i] < below)
  }

  /** The messages xs are found in ys, at these increasing positions. */
  ghost predicate FoundAt<T>(xs: seq<T>, ys: seq<T>, at: seq<nat>) {
    |at| == |xs| && Increasing(at, |ys|) && forall k :: 0 <= k < |xs| ==> xs[k] == ys[at[k]]
  }

  ghost predicate InOrder<T>(xs: seq<T>, ys: seq<T>) { exists at :: FoundAt(xs, ys, at) }

  lemma {:induction false} MsgsAt<T>(r: seq<Removed<T>>)
    ensures |Msgs(r)| == |r| && forall i :: 0 <= i < |r| ==> Msgs(r)[i] == r[i].msg
  {
    if r != [] { MsgsAt(r[..|r| - 1]); }
  }

  lemma {:induction false} PositionsOf<T>(r: seq<Removed<T>>, evicted: bool)
    ensures var p := Positions(r, evicted);
      && Increasing(p, |r|)
      && |p| == |Select(r, evicted)|
      && (forall k :: 0 <= k < |p| ==> r[p[k]].evicted == evicted && Select(r, evicted)[k] == r[p[k]].msg)
      && (forall i :: 0 <= i < |r| && r[i].evicted == evicted ==> i in p)
  {
    if r != [] { PositionsOf(r[..|r| - 1], evicted); }
  }

  /** The part of the history that left the queue. */
  function Gone<T>(s: State<T>): seq<T>
    requires |s.h.removed| <= |s.h.entered|
  {
    s.h.entered[..|s.h.removed|]
  }

  /** What was popped is found in it, in order. */
  lemma PoppedInHistory<T>(s: State<T>)
    requires FifoInv(s)
    ensures |s.h.removed| <= |s.h.entered|
    ensures FoundAt(Popped(s), Gone(s), Positions(s.h.removed, false))
  {
    MsgsAt(s.h.removed);
    PositionsOf(s.h.removed, false);
    assert forall i :: 0 <= i < |s.h.removed| ==> s.h.entered[i] == s.h.removed[i].msg;
  }

  lemma Compose<T>(xs: seq<T>, ys: seq<T>, zs: seq<T>, at: seq<nat>, at': seq<nat>)
    requires FoundAt(xs, ys, at) && FoundAt(ys, zs, at')
    ensures InOrder(xs, zs)
  {
    assert FoundAt(xs, zs, seq(|at|, k requires 0 <= k < |at| => at'[at[k]]));
  }

  // ------------------------------------------------------------------
  // The sends of a run
  // ------------------------------------------------------------------

  predicate Ends<T>(s: State<T>, e: Event<T>) { e.Finish? && e.msg in s.q.sending }

  /** The messages whose sends ended, whatever the outcome, in the order in which they ended. */
  function Ended<T>(s: State<T>, events: seq<Event<T>>): seq<T> {
    if events == [] then []
    else
      var before, last := events[..|events| - 1], events[|events| - 1];
      Ended(s, before) + if Ends(Exec(s, before), last) then [last.msg] else []
  }

  /** Which of them were delivered. */
  function DeliveredAt<T>(s: State<T>, events: seq<Event<T>>): seq<nat> {
    if events == [] then []
    else
      var before, last := events[..|events| - 1], events[|events| - 1];
      DeliveredAt(s, before)
      + if Ends(Exec(s, before), last) && last.outcome == Delivered then [|Ended(s, before)|] else []
  }

  /** How many sends have ended. */
  function Done<T>(s: State<T>): nat { |s.h.delivered| + |s.h.failed| + |s.h.abandoned| }

  function EndedBag<T>(s: State<T>): multiset<T> {
    multiset(s.h.delivered) + multiset(s.h.failed) + multiset(s.h.abandoned)
  }

  /** The message in flight that was popped first, as long as sends end in the order of the pops. */
  ghost predicate IsOldest<T>(s: State<T>, m: T) { Done(s) < |Popped(s)| && Popped(s)[Done(s)] == m }

  /** Every send that ends is the oldest one in flight. */
  ghost predicate OldestFirst<T>(s: State<T>, events: seq<Event<T>>) {
    forall i :: 0 <= i < |events| && Ends(Exec(s, events[..i]), events[i]) ==>
      IsOldest(Exec(s, events[..i]), events[i].msg)
  }

  /** No second drain pops while a send is suspended. */
  ghost predicate OneDrain<T>(s: State<T>, events: seq<Event<T>>) {
    forall i :: 0 <= i <= |events| ==> |Exec(s, events[..i]).q.sending| <= 1
  }

  /** A step other than the end of a send. */
  ghost predicate Continues<T>(s: State<T>, t: State<T>) {
    Popped(s) <= Popped(t) && Done(t) == Done(s) && t.h.delivered == s.h.delivered
  }

  lemma EnqueueContinues<T>(s: State<T>, m: T)
    ensures Continues(s, DoEnqueue(s, m))
  {
    if s.q.strategy == DropOldest && |s.q.items| >= s.q.max {
      ReadLog(s.h.removed, Removed((s.q.items + [m])[0], true));
    }
  }

  lemma PopContinues<T>(s: State<T>)
    requires s.q.items != []
    ensures Continues(s, DoPop(s))
  {
    ReadLog(s.h.removed, Removed(s.q.items[0], false));
  }

  lemma SenderContinues<T>(s: State<T>, m: T)
    ensures Continues(s, Apply(s, Unblock(m))) && Continues(s, Apply(s, Withdraw(m)))
  {}

  lemma FinishEnds<T>(s: State<T>, m: T, outcome: Outcome)
    ensures var t := Apply(s, Finish(m, outcome));
      && Popped(t) == Popped(s)
      && Done(t) == Done(s) + (if m in s.q.sending then 1 else 0)
      && t.h.delivered == s.h.delivered + (if m in s.q.sending && outcome == Delivered then [m] else [])
  {
    match outcome
    case Delivered =>
    case Failed =>
    case Cancelled =>
  }

  lemma StepSends<T>(s: State<T>, e: Event<T>) returns (t: State<T>)
    ensures t == Apply(s, e)
    ensures Popped(s) <= Popped(t) && (e.Finish? ==> Popped(t) == Popped(s))
    ensures Done(t) == Done(s) + (if Ends(s, e) then 1 else 0)
    ensures t.h.delivered == s.h.delivered + (if Ends(s, e) && e.outcome == Delivered then [e.msg] else [])
  {
    t := Apply(s, e);
    match e
    case Enqueue(m) => EnqueueContinues(s, m);
    case Pop => if s.q.items != [] { PopContinues(s); }
    case Unblock(m) => SenderContinues(s, m);
    case Withdraw(m) => SenderContinues(s, m);
    case Finish(m, outcome) => FinishEnds(s, m, outcome);
  }

  lemma StepBag<T>(s: State<T>, e: Event<T>)
    ensures EndedBag(Apply(s, e)) == EndedBag(s) + if Ends(s, e) then multiset{e.msg} else multiset{}
  {
    if Ends(s, e) {
      match e.outcome
      case Delivered => assert multiset(s.h.delivered + [e.msg]) == multiset(s.h.delivered) + multiset{e.msg};
      case Failed => assert multiset(s.h.failed + [e.msg]) == multiset(s.h.failed) + multiset{e.msg};
      case Cancelled => assert multiset(s.h.abandoned + [e.msg]) == multiset(s.h.abandoned) + multiset{e.msg};
    }
  }

  /** What the logs of a run say of each other. */
  ghost predicate LogsAgree<T>(s: State<T>, ended: seq<T>, at: seq<nat>) {
    |ended| == Done(s) && FoundAt(s.h.delivered, ended, at)
  }

  lemma StepLogs<T>(s: State<T>, e: Event<T>, ended: seq<T>, at: seq<nat>)
    requires LogsAgree(s, ended, at)
    ensures LogsAgree(Apply(s, e), ended + (if Ends(s, e) then [e.msg] else []),
                      at + (if Ends(s, e) && e.outcome == Delivered then [|ended|] else []))
  {
    var r := StepSends(s, e);
  }

  lemma {:induction false} RunLogs<T>(s: State<T>, events: seq<Event<T>>)
    requires Done(s) == 0
    ensures LogsAgree(Exec(s, events), Ended(s, events), DeliveredAt(s, events))
  {
    if events != [] {
      var before := events[..|events| - 1];
      RunLogs(s, before);
      StepLogs(Exec(s, before), events[|events| - 1], Ended(s, before), DeliveredAt(s, before));
    }
  }

  // ------------------------------------------------------------------
  // Sends end in the order of the pops exactly if the oldest always ends first
  // ------------------------------------------------------------------

  lemma InFlight<T>(s: State<T>)
    requires SendInv(s)
    ensures |Popped(s)| == Done(s) + |s.q.sending|
  {
    assert |multiset(Popped(s))| == |Popped(s)|;
  }

  lemma StepPrefix<T>(s: State<T>, t: State<T>, e: Event<T>, ended: seq<T>, ended': seq<T>)
    requires SendInv(s) && t == Apply(s, e) && |ended| == Done(s)
    requires ended' == ended + if Ends(s, e) then [e.msg] else []
    ensures ended' <= Popped(t) <==> ended <= Popped(s) && (Ends(s, e) ==> IsOldest(s, e.msg))
  {
    var r := StepSends(s, e);
    InFlight(s);
    if ended' <= Popped(t) { assert ended == ended'[..|ended|] == Popped(t)[..|ended|] == Popped(s)[..|ended|]; }
  }

  lemma OldestFirstStep<T>(s: State<T>, before: seq<Event<T>>, e: Event<T>)
    ensures OldestFirst(s, before + [e])
            <==> OldestFirst(s, before) && (Ends(Exec(s, before), e) ==> IsOldest(Exec(s, before), e.msg))
  {
    var events := before + [e];
    assert forall i :: 0 <= i <= |before| ==> events[..i] == before[..i];
    assert before[..|before|] == before && events[|before|] == e;
  }

  lemma {:induction false} EndedInOrder<T>(s: State<T>, events: seq<Event<T>>)
    requires Inv(s) && Done(s) == 0
    ensures Ended(s, events) <= Popped(Exec(s, events)) <==> OldestFirst(s, events)
  {
    if events != [] {
      var before, last := events[..|events| - 1], events[|events| - 1];
      assert events == before + [last];
      EndedInOrder(s, before);
      ExecInv(s, before);
      RunLogs(s, before);
      OldestFirstStep(s, before, last);
      StepPrefix(Exec(s, before), Exec(s, events), last, Ended(s, before), Ended(s, events));
    }
  }

  lemma {:induction false} RunBag<T>(s: State<T>, events: seq<Event<T>>)
    requires Done(s) == 0
    ensures multiset(Ended(s, events)) == EndedBag(Exec(s, events))
  {
    if events != [] {
      var before, last := events[..|events| - 1], events[|events| - 1];
      RunBag(s, before);
      StepBag(Exec(s, before), last);
    }
  }

  lemma CancelBag<T>(a: multiset<T>, b: multiset<T>, c: multiset<T>)
    requires a + b == a + c
    ensures b == c
  {
    assert b == a + b - a && c == a + c - a;
  }

  /** While the order holds, the sends in flight are those of the messages popped last. */
  lemma FlyingIsTail<T>(s: State<T>, ended: seq<T>)
    requires SendInv(s) && ended <= Popped(s) && multiset(ended) == EndedBag(s)
    ensures Popped(s) == ended + Popped(s)[|ended|..] && multiset(Popped(s)[|ended|..]) == s.q.sending
  {
    var tail := Popped(s)[|ended|..];
    assert Popped(s) == ended + tail;
    assert multiset(ended + tail) == multiset(ended) + multiset(tail);
    CancelBag(multiset(ended), multiset(tail), s.q.sending);
  }

  lemma OnlyOne<T>(s: State<T>, ended: seq<T>, m: T)
    requires SendInv(s) && ended <= Popped(s) && multiset(ended) == EndedBag(s) && |ended| == Done(s)
    requires |s.q.sending| <= 1 && m in s.q.sending
    ensures IsOldest(s, m)
  {
    FlyingIsTail(s, ended);
    InFlight(s);
    var tail := Popped(s)[|ended|..];
    assert |tail| == 1 && m in multiset(tail);
  }

  /** With one drain at a time every send that ends is the oldest in flight. */
  lemma {:induction false} OneDrainIsOldestFirst<T>(s: State<T>, events: seq<Event<T>>)
    requires Inv(s) && Done(s) == 0 && OneDrain(s, events)
    ensures OldestFirst(s, events)
  {
    if events != [] {
      var before, last := events[..|events| - 1], events[|events| - 1];
      assert events == before + [last];
      assert forall i :: 0 <= i <= |before| ==> events[..i] == before[..i];
      OneDrainIsOldestFirst(s, before);
      OldestFirstStep(s, before, last);
      if Ends(Exec(s, before), last) {
        EndedInOrder(s, before);
        ExecInv(s, before);
        RunLogs(s, before);
        RunBag(s, before);
        assert before[..|before|] == before;
        OnlyOne(Exec(s, before), Ended(s, before), last.msg);
      }
    }
  }

  // ------------------------------------------------------------------
  // What a client receives, over every run
  // ------------------------------------------------------------------

  /** Sends end in the order of the pops if and only if each one that ends is the oldest in flight. */
  lemma EndedInOrderIff<T>(strategy: Strategy, max: int, events: seq<Event<T>>)
    requires Constructible(strategy, max)
    ensures Ended(Init(strategy, max), events) <= Popped(Reached(strategy, max, events))
            <==> OldestFirst(Init(strategy, max), events)
  {
    InitInv<T>(strategy, max);
    EndedInOrder(Init(strategy, max), events);
  }

  /** Then the client receives messages in the order in which they entered the queue, whatever
      was evicted, failed or was cancelled. */
  lemma DeliveredInOrder<T>(strategy: Strategy, max: int, events: seq<Event<T>>)
    requires Constructible(strategy, max) && OldestFirst(Init(strategy, max), events)
    ensures var s := Reached(strategy, max, events);
      |s.h.removed| <= |s.h.entered| && InOrder(s.h.delivered, Gone(s))
  {
    var start, s := Init(strategy, max), Reached(strategy, max, events);
    var ended, at := Ended(start, events), DeliveredAt(start, events);
    EndedInOrderIff(strategy, max, events);
    RunLogs(start, events);
    ReachedInv(strategy, max, events);
    assert FoundAt(s.h.delivered, Popped(s), at);
    PoppedInHistory(s);
    Compose(s.h.delivered, Popped(s), Gone(s), at, Positions(s.h.removed, false));
  }

  lemma {:induction false} AtLeastIndex(at: seq<nat>, below: nat, k: nat)
    requires Increasing(at, below) && k < |at|
    ensures k <= at[k]
  {
    if k != 0 { AtLeastIndex(at, below, k - 1); }
  }

  lemma {:induction false} AtMostIndex(at: seq<nat>, below: nat, k: nat)
    requires Increasing(at, below) && k < |at| && |at| == below
    ensures at[k] <= k
    decreases below - k
  {
    if k + 1 < |at| { AtMostIndex(at, below, k + 1); }
  }

  lemma SameLength<T>(xs: seq<T>, ys: seq<T>, at: seq<nat>)
    requires FoundAt(xs, ys, at) && |xs| == |ys|
    ensures xs == ys
  {
    forall k | 0 <= k < |xs| ensures xs[k] == ys[k] {
      AtLeastIndex(at, |ys|, k);
      AtMostIndex(at, |ys|, k);
    }
  }

  lemma AllDelivered<T>(s: State<T>, ended: seq<T>, at: seq<nat>) returns (flying: seq<T>)
    requires SendInv(s) && LogsAgree(s, ended, at) && ended <= Popped(s) && multiset(ended) == EndedBag(s)
    requires s.h.failed == [] && s.h.abandoned == []
    ensures Popped(s) == s.h.delivered + flying && multiset(flying) == s.q.sending
  {
    FlyingIsTail(s, ended);
    SameLength(s.h.delivered, ended, at);
    flying := Popped(s)[|ended|..];
  }

  /** If besides nothing failed or was cancelled, what was popped is what was delivered followed
      by what is in flight. */
  lemma DeliveredThenFlying<T>(strategy: Strategy, max: int, events: seq<Event<T>>) returns (flying: seq<T>)
    requires Constructible(strategy, max) && OldestFirst(Init(strategy, max), events)
    requires Reached(strategy, max, events).h.failed == [] && Reached(strategy, max, events).h.abandoned == []
    ensures var s := Reached(strategy, max, events);
      Popped(s) == s.h.delivered + flying && multiset(flying) == s.q.sending
  {
    var start := Init(strategy, max);
    EndedInOrderIff(strategy, max, events);
    RunLogs(start, events);
    RunBag(start, events);
    ReachedInv(strategy, max, events);
    flying := AllDelivered(Reached(strategy, max, events), Ended(start, events), DeliveredAt(start, events));
  }

  /** One drain at a time: the client receives messages in the order in which they entered. */
  lemma OneDrainDeliversInOrder<T>(strategy: Strategy, max: int, events: seq<Event<T>>)
    requires Constructible(strategy, max) && OneDrain(Init(strategy, max), events)
    ensures var s := Reached(strategy, max, events);
      && OldestFirst(Init(strategy, max), events)
      && |s.h.removed| <= |s.h.entered| && InOrder(s.h.delivered, Gone(s))
  {
    InitInv<T>(strategy, max);
    OneDrainIsOldestFirst(Init(strategy, max), events);
    DeliveredInOrder(strategy, max, events);
  }

  /** One drain at a time and no failed or cancelled send: nothing is missing in what was delivered. */
  lemma OneDrainLosesNothing<T>(strategy: Strategy, max: int, events: seq<Event<T>>) returns (flying: seq<T>)
    requires strategy != DropOldest && OneDrain(Init(strategy, max), events)
    requires Reached(strategy, max, events).h.failed == [] && Reached(strategy, max, events).h.abandoned == []
    ensures var s := Reached(strategy, max, events);
      && s.h.entered == s.h.delivered + flying + s.q.items
      && |flying| <= 1 && multiset(flying) == s.q.sending
  {
    OneDrainDeliversInOrder(strategy, max, events);
    flying := DeliveredThenFlying(strategy, max, events);
    var s := Reached(strategy, max, events);
    ReachedInv(strategy, max, events);
    NoEvictions(s.h.removed);
    assert events[..|events|] == events;
    assert |flying| == |multiset(flying)|;
  }

  lemma {:induction false} NoEvictions<T>(r: seq<Removed<T>>)
    requires Select(r, true) == []
    ensures Select(r, false) == Msgs(r)
  {
    if r != [] {
      NoEvictions(r[..|r| - 1]);
    }
  }

  /** A state from which the order cannot be broken by the next send to end is exactly one with
      no two different messages in flight. */
  lemma NextEndKeepsOrderIff<T>(strategy: Strategy, max: int, events: seq<Event<T>>)
    requires Constructible(strategy, max) && OldestFirst(Init(strategy, max), events)
    ensures var s := Reached(strategy, max, events);
      (forall m, outcome :: m in s.q.sending ==> OldestFirst(Init(strategy, max), events + [Finish(m, outcome)]))
      <==> forall a, b :: a in s.q.sending && b in s.q.sending ==> a == b
  {
    var start, s := Init(strategy, max), Reached(strategy, max, events);
    EndedInOrderIff(strategy, max, events);
    RunLogs(start, events);
    RunBag(start, events);
    ReachedInv(strategy, max, events);
    FlyingIsTail(s, Ended(start, events));
    InFlight(s);
    forall m, outcome ensures OldestFirst(start, events + [Finish(m, outcome)])
                              <==> (m in s.q.sending ==> IsOldest(s, m)) {
      OldestFirstStep(start, events, Finish(m, outcome));
    }
    if s.q.sending != multiset{} {
      var oldest := Popped(s)[Done(s)..][0];
      assert oldest in multiset(Popped(s)[Done(s)..]);
      assert forall m :: IsOldest(s, m) <==> m == oldest;
      assert forall m :: m in s.q.sending ==> OldestFirst(start, events + [Finish(m, Delivered)]) ==> m == oldest;
    }
  }

  // ------------------------------------------------------------------
  // What the client receives stays in order exactly if at most one message is in flight
  // ------------------------------------------------------------------

  lemma NoPopNoSend<T>(s: State<T>, e: Event<T>)
    requires !e.Pop?
    ensures |Apply(s, e).q.sending| <= |s.q.sending|
  {}

  ghost predicate ClientInOrder<T>(s: State<T>) {
    |s.h.removed| <= |s.h.entered| && InOrder(s.h.delivered, Gone(s))
  }

  /** Messages can be told apart. */
  ghost predicate Distinct<T>(ms: seq<T>) { forall i, j :: 0 <= i < j < |ms| ==> ms[i] != ms[j] }

  ghost predicate NoPops<T>(events: seq<Event<T>>) { forall e :: e in events ==> !e.Pop? }

  /** One more event that is not a pop, with at most one message in flight. */
  lemma OldestFirstOn<T>(strategy: Strategy, max: int, before: seq<Event<T>>, e: Event<T>)
    requires Constructible(strategy, max) && OldestFirst(Init(strategy, max), before)
    requires |Reached(strategy, max, before).q.sending| <= 1
    ensures OldestFirst(Init(strategy, max), before + [e])
  {
    var start, s := Init(strategy, max), Reached(strategy, max, before);
    OldestFirstStep(start, before, e);
    if Ends(s, e) {
      EndedInOrderIff(strategy, max, before);
      RunLogs(start, before);
      RunBag(start, before);
      ReachedInv(strategy, max, before);
      OnlyOne(s, Ended(start, before), e.msg);
    }
  }

  lemma {:induction false} StaysOldestFirst<T>(strategy: Strategy, max: int, events: seq<Event<T>>, more: seq<Event<T>>)
    requires Constructible(strategy, max) && OldestFirst(Init(strategy, max), events)
    requires |Reached(strategy, max, events).q.sending| <= 1 && NoPops(more)
    ensures OldestFirst(Init(strategy, max), events + more)
    ensures |Reached(strategy, max, events + more).q.sending| <= 1
  {
    if more == [] {
      assert events + more == events;
    } else {
      var before, last := more[..|more| - 1], more[|more| - 1];
      assert last in more && forall e :: e in before ==> e in more;
      assert events + more == events + before + [last];
      StaysOldestFirst(strategy, max, events, before);
      OldestFirstOn(strategy, max, events + before, last);
      var all := Then(Init(strategy, max), events + before, last);
      NoPopNoSend(Reached(strategy, max, events + before), last);
    }
  }

  lemma DistinctPopped<T>(s: State<T>, i: nat, j: nat)
    requires FifoInv(s) && Distinct(s.h.entered) && i < j < |Popped(s)|
    ensures |s.h.removed| <= |s.h.entered| && Popped(s)[i] != Popped(s)[j]
  {
    PoppedInHistory(s);
  }

  /** Two messages found in the other order. */
  lemma NotFoundSwapped<T>(all: seq<T>, history: seq<T>, i: nat, j: nat, n: nat)
    requires Distinct(history) && i < j < |history| && n + 1 < |all|
    requires all[n] == history[j] && all[n + 1] == history[i]
    ensures !InOrder(all, history)
  {}

  /** The two oldest messages in flight are delivered the other way round. */
  lemma Overtake<T>(s: State<T>, x: T, y: T) returns (more: seq<Event<T>>)
    requires x != y && x in s.q.sending && y in s.q.sending
    ensures more == [Finish(y, Delivered), Finish(x, Delivered)]
    ensures var t := Exec(s, more);
      t.h.delivered == s.h.delivered + [y, x] && t.h.entered == s.h.entered && t.h.removed == s.h.removed
  {
    assert Exec(s, []) == s;
    more := Then(s, [], Finish(y, Delivered));
    EndDelivers(s, y);
    more := Then(s, more, Finish(x, Delivered));
    EndDelivers(Apply(s, Finish(y, Delivered)), x);
  }

  lemma EndDelivers<T>(s: State<T>, m: T)
    requires m in s.q.sending
    ensures var t := Apply(s, Finish(m, Delivered));
      && t.h.delivered == s.h.delivered + [m] && t.h.entered == s.h.entered && t.h.removed == s.h.removed
      && t.q.sending == s.q.sending - multiset{m}
  {}

  lemma TwoInFlightOvertake<T>(s: State<T>, ended: seq<T>) returns (more: seq<Event<T>>)
    requires Inv(s) && Distinct(s.h.entered) && ended <= Popped(s) && multiset(ended) == EndedBag(s)
    requires |s.q.sending| >= 2
    ensures NoPops(more) && !ClientInOrder(Exec(s, more))
  {
    FlyingIsTail(s, ended);
    var n := |ended|;
    var tail := Popped(s)[n..];
    assert |tail| == |multiset(tail)|;
    var x, y := tail[0], tail[1];
    assert x in multiset(tail) && y in multiset(tail);
    DistinctPopped(s, n, n + 1);
    more := Overtake(s, x, y);
    PoppedInHistory(s);
    var at := Positions(s.h.removed, false);
    NotFoundSwapped(s.h.delivered + [y, x], Gone(s), at[n], at[n + 1], |s.h.delivered|);
  }

  /** As long as every send that ended was the oldest in flight, the client is sure to receive
      what is in flight in order, however the sends end and whatever else happens before the next
      pop, if and only if at most one message is in flight. */
  lemma ClientOrderIff<T>(strategy: Strategy, max: int, events: seq<Event<T>>)
    requires Constructible(strategy, max) && OldestFirst(Init(strategy, max), events)
    requires Distinct(Reached(strategy, max, events).h.entered)
    ensures var s := Reached(strategy, max, events);
      (forall more :: NoPops(more) ==> ClientInOrder(Exec(s, more))) <==> |s.q.sending| <= 1
  {
    var start, s := Init(strategy, max), Reached(strategy, max, events);
    if |s.q.sending| <= 1 {
      forall more | NoPops(more) ensures ClientInOrder(Exec(s, more)) {
        StaysOldestFirst(strategy, max, events, more);
        DeliveredInOrder(strategy, max, events + more);
        ExecAppend(start, events, more);
      }
    } else {
      EndedInOrderIff(strategy, max, events);
      RunBag(start, events);
      ReachedInv(strategy, max, events);
      var more := TwoInFlightOvertake(s, Ended(start, events));
    }
  }

  /** Two drains took one message each. */
  lemma TwoInFlight<T>(a: T, b: T) returns (events: seq<Event<T>>)
    ensures events == [Enqueue(a), Enqueue(b), Pop, Pop]
    ensures var s := Reached(DropOldest, 5, events);
      && s.h.entered == [a, b] && s.q.sending == multiset{a, b} && s.h.delivered == []
  {
    var s := Init<T>(DropOldest, 5);
    events := Then(s, [], Enqueue(a));
    events := Then(s, events, Enqueue(b));
    assert Exec(s, events).q.items == [a, b];
    events := Then(s, events, Pop);
    events := Then(s, events, Pop);
  }

  lemma BothEnd<T>(s: State<T>, a: T, b: T)
    requires s.q.sending == multiset{a, b} && s.h.delivered == []
    ensures var t := Apply(Apply(s, Finish(b, Delivered)), Finish(a, Delivered));
      t.h.entered == s.h.entered && t.h.delivered == [b, a]
  {}

  lemma Swapped<T>(a: T, b: T)
    requires a != b
    ensures !InOrder([b, a], [a, b])
  {
    forall at: seq<nat> | |at| == 2 && Increasing(at, 2) ensures at[0] == 0 { AtMostIndex(at, 2, 0); }
  }

  /** The client receives the second message first. */
  lemma TwoDrainsOvertake<T>(a: T, b: T) returns (events: seq<Event<T>>)
    requires a != b
    ensures events == [Enqueue(a), Enqueue(b), Pop, Pop, Finish(b, Delivered), Finish(a, Delivered)]
    ensures var s := Reached(DropOldest, 5, events);
      s.h.entered == [a, b] && s.h.delivered == [b, a] && !InOrder(s.h.delivered, s.h.entered)
  {
    events := TwoInFlight(a, b);
    BothEnd(Reached(DropOldest, 5, events), a, b);
    events := Then(Init(DropOldest, 5), events, Finish(b, Delivered));
    events := Then(Init(DropOldest, 5), events, Finish(a, Delivered));
    Swapped(a, b);
  }

  lemma Then<T>(s: State<T>, events: seq<Event<T>>, e: Event<T>) returns (more: seq<Event<T>>)
    ensures more == events + [e] && Exec(s, more) == Apply(Exec(s, events), e)
  {
    more := events + [e];
    assert more[..|events|] == events;
  }
}
