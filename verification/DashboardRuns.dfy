/** What holds of the dashboard over every interleaving of its handlers. */
module DashboardRuns {
  import opened PubSubModel
  import opened PubSubRuns
  import opened DashboardModel

  // ------------------------------------------------------------------
  // The bus of a dashboard runs like any other
  // ------------------------------------------------------------------

  lemma TwoSteps<S>(b: Bus<S>, events: seq<Event<S>>, e: Event<S>, f: Event<S>)
    ensures Exec(b, events + [e, f]) == Apply(Apply(Exec(b, events), e), f)
  {
    ExecStep(b, events, e);
    ExecStep(b, events + [e], f);
    assert events + [e, f] == events + [e] + [f];
  }

  lemma TakeBus<H>(s: State<H>, e: Step<H>)
    ensures var more := BusEvents(s, e);
      && |more| <= 2
      && (|more| == 0 ==> Take(s, e).bus == s.bus)
      && (|more| == 1 ==> Take(s, e).bus == Apply(s.bus, more[0]))
      && (|more| == 2 ==> Take(s, e).bus == Apply(Apply(s.bus, more[0]), more[1]))
  {}

  lemma {:induction false} BusIsARun<H>(steps: seq<Step<H>>)
    ensures Run(steps).bus == Reached(BusRun(steps))
  {
    if steps != [] {
      var before, last := steps[..|steps| - 1], steps[|steps| - 1];
      BusIsARun(before);
      var past, more := BusRun(before), BusEvents(Run(before), last);
      TakeBus(Run(before), last);
      if |more| == 1 {
        ExecStep(Empty(), past, more[0]);
        assert more == [more[0]];
      } else if |more| == 2 {
        TwoSteps(Empty(), past, more[0], more[1]);
        assert more == [more[0], more[1]];
      } else {
        assert past + more == past;
      }
    }
  }

  lemma {:induction false} RunInv<H>(steps: seq<Step<H>>)
    ensures DashboardModel.Inv(Run(steps))
  {
    if steps != [] {
      var before := steps[..|steps| - 1];
      RunInv(before);
      TakeInv(Run(before), steps[|steps| - 1]);
    }
    BusIsARun(steps);
    ReachedInv(BusRun(steps));
  }

  // ------------------------------------------------------------------
  // The three stores
  // ------------------------------------------------------------------

  /** The ids in the registry are the ids with a send queue, and are those of the handlers between
      connect and disconnect. */
  lemma StoresInStep<H>(steps: seq<Step<H>>)
    ensures var s := Run(steps);
      && s.registry.Keys == s.queues
      && s.queues == (set h | h in s.clients && s.clients[h].phase != Gone :: s.clients[h].conn)
      && (forall c :: c in s.registry ==> s.registry[c] in s.clients && s.clients[s.registry[c]].conn == c)
  {
    RunInv(steps);
  }

  lemma FeedStaysOpen<H>(s: State<H>, e: Step<H>)
    requires e != CloseFeed(FEED_CHANNEL)
    ensures Take(s, e).feedClosed == s.feedClosed
  {}

  lemma {:induction false} FeedNotClosed<H>(steps: seq<Step<H>>)
    requires CloseFeed(FEED_CHANNEL) !in steps
    ensures !Run(steps).feedClosed
  {
    if steps != [] {
      var before, last := steps[..|steps| - 1], steps[|steps| - 1];
      assert last in steps && forall e :: e in before ==> e in steps;
      FeedNotClosed(before);
      FeedStaysOpen(Run(before), last);
    }
  }

  /** The subscribers of the feed are the handlers that have not unsubscribed, each listed once. */
  lemma FeedSubscribers<H>(steps: seq<Step<H>>)
    ensures var s := Run(steps);
      && NoDup(Listed(s.bus, FEED_CHANNEL))
      && (forall h :: h in Listed(s.bus, FEED_CHANNEL) ==> Is(s, h, Serving))
      && (CloseFeed(FEED_CHANNEL) !in steps ==> forall h :: Is(s, h, Serving) ==> h in Listed(s.bus, FEED_CHANNEL))
  {
    RunInv(steps);
    BusIsARun(steps);
    ChannelMap(BusRun(steps));
    if CloseFeed(FEED_CHANNEL) !in steps { FeedNotClosed(steps); }
  }

  /** When every handler has finished nothing of it is left in any of the stores, however it ended. */
  lemma NothingLeftBehind<H>(steps: seq<Step<H>>)
    requires forall h :: h in Run(steps).clients ==> Run(steps).clients[h].phase == Gone
    ensures var s := Run(steps);
      s.registry == map[] && s.queues == {} && s.bus.channels == map[]
      && forall h :: h in s.clients ==> s.clients[h].closed
  {
    RunInv(steps);
    BusIsARun(steps);
    ChannelMap(BusRun(steps));
  }

  /** With default publishes, a handler whose feed was closed has a sentinel to come. */
  lemma CloseFeedReachesAll<H>(steps: seq<Step<H>>, h: H)
    requires forall i :: 0 <= i < |steps| ==> steps[i].Post? ==> steps[i].skipLagging
    requires Is(Run(steps), h, Serving) && h in Run(steps).bus.subs && !Run(steps).bus.subs[h].h.open
    ensures Ending(Run(steps).bus.subs[h]) && Sentinel in Run(steps).bus.subs[h].queue
  {
    RunInv(steps);
    BusIsARun(steps);
    BusSkipsLagging(steps);
    LagBound(BusRun(steps), h);
    var sub := Run(steps).bus.subs[h];
    assert sub.queue[Pending(sub)] == Sentinel;
  }

  lemma {:induction false} BusSkipsLagging<H>(steps: seq<Step<H>>)
    requires forall i :: 0 <= i < |steps| ==> steps[i].Post? ==> steps[i].skipLagging
    ensures forall i :: 0 <= i < |BusRun(steps)| ==> SkipsLagging(BusRun(steps)[i])
  {
    if steps != [] {
      BusSkipsLagging(steps[..|steps| - 1]);
      assert forall e :: e in BusEvents(Run(steps[..|steps| - 1]), steps[|steps| - 1]) ==> SkipsLagging(e);
    }
  }

  // ------------------------------------------------------------------
  // A closed feed ends every handler
  // ------------------------------------------------------------------

  ghost function RunOn<H>(s: State<H>, more: seq<Step<H>>): State<H> {
    if more == [] then s else Take(RunOn(s, more[..|more| - 1]), more[|more| - 1])
  }

  function Receives<H(==)>(steps: seq<Step<H>>, h: H): nat {
    if steps == [] then 0
    else
      var last := steps[|steps| - 1];
      Receives(steps[..|steps| - 1], h) + if last.Receive? && last.h == h then 1 else 0
  }

  /** How many more resumptions the handler needs to leave once its feed is closed. */
  function ToGo<H>(s: State<H>, h: H): int
    requires h in s.bus.subs
  {
    if Is(s, h, Serving) then Pending(s.bus.subs[h]) + 1 else 0
  }

  /** The handler leaves for no other reason than the sentinel. */
  predicate Stays<H(==)>(e: Step<H>, h: H) { !(e.Interrupt? && e.h == h) && !(e.Receive? && e.h == h && e.expired) }

  ghost predicate Closing<H>(s: State<H>, h: H) {
    DashboardModel.Inv(s) && h in s.clients && h in s.bus.subs && Ending(s.bus.subs[h])
  }

  lemma TakeKeepsInv<H>(s: State<H>, e: Step<H>)
    requires DashboardModel.Inv(s)
    ensures DashboardModel.Inv(Take(s, e))
  {
    TakeInv(s, e);
    TakeBus(s, e);
    var more := BusEvents(s, e);
    if |more| >= 1 { PubSubModel.ApplyInv(s.bus, more[0]); }
    if |more| == 2 { PubSubModel.ApplyInv(Apply(s.bus, more[0]), more[1]); }
  }

  /** Nothing brings the handler back, adds to what its subscription accepted, or sets it back;
      each of its resumptions brings it closer. */
  lemma SubCloser<H>(s: State<H>, e: Step<H>, h: H)
    requires Closing(s, h)
    ensures h in Take(s, e).bus.subs
    ensures Nearer(s.bus.subs[h], Take(s, e).bus.subs[h],
                   if |BusEvents(s, e)| >= 1 && BusEvents(s, e)[0] == Next(h) then 1 else 0)
  {
    TakeBus(s, e);
    var more := BusEvents(s, e);
    if |more| >= 1 {
      ApplyNearer(s.bus, more[0], h);
      PubSubModel.ApplyInv(s.bus, more[0]);
    }
    if |more| == 2 { ApplyNearer(Apply(s.bus, more[0]), more[1], h); }
  }

  lemma PhaseOnly<H>(s: State<H>, e: Step<H>, h: H)
    requires h in s.clients
    ensures h in Take(s, e).clients && (Is(Take(s, e), h, Serving) ==> Is(s, h, Serving))
  {}

  lemma SentinelWaits(log: seq<Message>, sub: Sub)
    requires QueueInv(log, sub) && Ending(sub) && !sub.finished
    ensures sub.queue != [] && (sub.queue[0] == Sentinel ==> Pending(sub) == 0)
  {}

  lemma ResumptionTakes<H>(s: State<H>, h: H, expired: bool)
    requires Is(s, h, Serving) && h in s.bus.subs && s.bus.subs[h].queue != []
    ensures BusEvents(s, Receive(h, expired)) != [] && BusEvents(s, Receive(h, expired))[0] == Next(h)
  {}

  lemma TakeCloser<H>(s: State<H>, e: Step<H>, h: H)
    requires Closing(s, h)
    ensures var u := Take(s, e);
      && Closing(u, h) && u.bus.subs[h].h.accepted == s.bus.subs[h].h.accepted
      && (ToGo(u, h) == 0 || ToGo(u, h) <= ToGo(s, h) - (if e.Receive? && e.h == h then 1 else 0))
  {
    TakeKeepsInv(s, e);
    SubCloser(s, e, h);
    PhaseOnly(s, e, h);
    if e.Receive? && e.h == h && Is(s, h, Serving) {
      SentinelWaits(s.bus.log, s.bus.subs[h]);
      ResumptionTakes(s, h, e.expired);
    }
  }

  /** A handler that left for no other reason has its whole backlog. */
  ghost predicate HasAllIfGone<H>(s: State<H>, h: H)
    requires h in s.bus.subs
  {
    !Is(s, h, Serving) ==> Pending(s.bus.subs[h]) == 0
  }

  lemma NothingPendingStays(log: seq<Message>, sub: Sub, log': seq<Message>, sub': Sub, steps: nat)
    requires QueueInv(log, sub) && QueueInv(log', sub') && Nearer(sub, sub', steps) && Pending(sub) == 0
    ensures Pending(sub') == 0
  {}

  lemma LeavesBySentinel<H>(s: State<H>, e: Step<H>, h: H)
    requires Is(s, h, Serving) && h in s.bus.subs && !s.clients[h].closed && !s.clients[h].raised
    requires Stays(e, h) && !Is(Take(s, e), h, Serving)
    ensures s.bus.subs[h].queue != [] && s.bus.subs[h].queue[0] == Sentinel
  {}

  lemma TakeHasAll<H>(s: State<H>, e: Step<H>, h: H, log: seq<Message>, sub: Sub)
    requires Closing(s, h) && HasAllIfGone(s, h) && Stays(e, h)
    requires h in Take(s, e).bus.subs && sub == Take(s, e).bus.subs[h] && QueueInv(log, sub)
    ensures HasAllIfGone(Take(s, e), h)
  {
    if !Is(Take(s, e), h, Serving) {
      if Is(s, h, Serving) {
        LeavesBySentinel(s, e, h);
        SentinelWaits(s.bus.log, s.bus.subs[h]);
      }
      SubCloser(s, e, h);
      NothingPendingStays(s.bus.log, s.bus.subs[h], log, sub,
                          if |BusEvents(s, e)| >= 1 && BusEvents(s, e)[0] == Next(h) then 1 else 0);
    }
  }

  lemma {:induction false} RunOnCloser<H>(s: State<H>, more: seq<Step<H>>, h: H)
    requires Closing(s, h)
    ensures var u := RunOn(s, more);
      && Closing(u, h) && u.bus.subs[h].h.accepted == s.bus.subs[h].h.accepted
      && (ToGo(u, h) == 0 || ToGo(u, h) <= ToGo(s, h) - Receives(more, h))
  {
    if more != [] {
      RunOnCloser(s, more[..|more| - 1], h);
      TakeCloser(RunOn(s, more[..|more| - 1]), more[|more| - 1], h);
    }
  }

  lemma {:induction false} RunOnHasAll<H>(s: State<H>, more: seq<Step<H>>, h: H)
    requires Closing(s, h) && HasAllIfGone(s, h)
    requires forall e :: e in more ==> Stays(e, h)
    ensures h in RunOn(s, more).bus.subs && HasAllIfGone(RunOn(s, more), h)
  {
    if more != [] {
      var before, last := more[..|more| - 1], more[|more| - 1];
      assert last in more && forall e :: e in before ==> e in more;
      RunOnHasAll(s, before, h);
      RunOnCloser(s, before, h);
      TakeCloser(RunOn(s, before), last, h);
      var u := RunOn(s, more);
      TakeHasAll(RunOn(s, before), last, h, u.bus.log, u.bus.subs[h]);
    }
  }

  /** Once the feed is closed, a handler leaves after at most as many resumptions as there are items
      in its queue, whatever else happens; and if nothing but the sentinel makes it leave, its
      socket received everything its subscription accepted. */
  lemma ClosedFeedEndsHandler<H>(steps: seq<Step<H>>, more: seq<Step<H>>, h: H)
    requires forall i :: 0 <= i < |steps| ==> steps[i].Post? ==> steps[i].skipLagging
    requires Is(Run(steps), h, Serving) && h in Run(steps).bus.subs && !Run(steps).bus.subs[h].h.open
    requires Receives(more, h) >= |Run(steps).bus.subs[h].queue|
    ensures var u := RunOn(Run(steps), more);
      && h in u.clients && !Is(u, h, Serving)
      && ((forall e :: e in more ==> Stays(e, h)) ==>
            && h in u.bus.subs
            && (forall i :: 0 <= i < |u.bus.subs[h].h.accepted| ==> u.bus.subs[h].h.accepted[i] < |u.bus.log|)
            && u.clients[h].received == Payloads(MessagesAt(u.bus.log, u.bus.subs[h].h.accepted)))
  {
    RunInv(steps);
    CloseFeedReachesAll(steps, h);
    RunOnCloser(Run(steps), more, h);
    assert QueueInv(Run(steps).bus.log, Run(steps).bus.subs[h]);
    if forall e :: e in more ==> Stays(e, h) {
      RunOnHasAll(Run(steps), more, h);
      AllReceived(RunOn(Run(steps), more), h);
    }
  }

  lemma AllReceived<H>(u: State<H>, h: H)
    requires Closing(u, h) && Pending(u.bus.subs[h]) == 0
    ensures var at := u.bus.subs[h].h.accepted;
      && (forall i :: 0 <= i < |at| ==> at[i] < |u.bus.log|)
      && u.clients[h].received == Payloads(MessagesAt(u.bus.log, at))
  {
    var sub := u.bus.subs[h];
    assert QueueInv(u.bus.log, sub);
    assert sub.h.yielded == MessagesAt(u.bus.log, sub.h.accepted);
  }

  // ------------------------------------------------------------------
  // What a client sees
  // ------------------------------------------------------------------

  lemma {:induction false} PayloadsAdd(a: seq<Message>, b: seq<Message>)
    ensures Payloads(a + b) == Payloads(a) + Payloads(b)
  {
    if b == [] {
      assert a + b == a;
    } else {
      PayloadsAdd(a, b[..|b| - 1]);
      assert (a + b)[..|a + b| - 1] == a + b[..|b| - 1];
    }
  }

  /** The messages posted in a run, in order. */
  function Posted<H>(steps: seq<Step<H>>): seq<Message> {
    if steps == [] then []
    else
      var last := steps[|steps| - 1];
      Posted(steps[..|steps| - 1]) + if last.Post? then [last.msg] else []
  }

  lemma StepPosts<H>(s: State<H>, e: Step<H>)
    ensures Take(s, e).bus.log == s.bus.log || e.Post?
    ensures e.Post? && ListsKnown(s.bus) ==> Take(s, e).bus.log == s.bus.log + [e.msg]
  {}

  /** The log of the bus is what was posted. */
  lemma {:induction false} LogIsPosted<H>(steps: seq<Step<H>>)
    ensures Run(steps).bus.log == Posted(steps)
  {
    if steps != [] {
      var before := steps[..|steps| - 1];
      LogIsPosted(before);
      RunInv(before);
      StepPosts(Run(before), steps[|steps| - 1]);
    }
  }

  /** A socket received, in order and without gaps, the payloads of posted messages, those its
      subscription accepted, all of them on the feed while it was subscribed; what is missing is still
      buffered.  No send ever raised. */
  lemma ClientSees<H>(steps: seq<Step<H>>, h: H)
    requires h in Run(steps).clients
    ensures var s, posted := Run(steps), Posted(steps);
      h in s.bus.subs && !s.clients[h].raised
      && var sub := s.bus.subs[h];
      && (forall i :: 0 <= i < |sub.h.accepted| ==> sub.h.accepted[i] < |posted|)
      && s.clients[h].received + Payloads(Datas(sub.queue)) == Payloads(MessagesAt(posted, sub.h.accepted))
      && (forall i, j :: 0 <= i < j < |sub.h.accepted| ==> sub.h.accepted[i] < sub.h.accepted[j])
      && (forall i :: 0 <= i < |sub.h.accepted| ==>
            && posted[sub.h.accepted[i]].channel == FEED_CHANNEL
            && sub.h.from <= sub.h.accepted[i] < (if sub.h.open then |posted| else sub.h.till))
  {
    RunInv(steps);
    BusIsARun(steps);
    LogIsPosted(steps);
    StreamExactness(BusRun(steps), h);
    PayloadsAdd(Run(steps).bus.subs[h].h.yielded, Datas(Run(steps).bus.subs[h].queue));
  }

  // ------------------------------------------------------------------
  // One resumption of a handler, and the last one
  // ------------------------------------------------------------------

  lemma LeaveCloses<H>(t: State<H>, h: H)
    requires Is(t, h, Serving) && h in t.bus.subs
    ensures var u := Leave(t, h);
      && Is(u, h, Leaving) && h in u.bus.subs && !u.bus.subs[h].h.open
      && u.clients[h].received == t.clients[h].received
  {}

  lemma NextTaken<H>(s: State<H>, h: H) returns (t: State<H>)
    requires h in s.bus.subs && s.bus.subs[h].queue != [] && !s.bus.subs[h].finished
    ensures t == s.(bus := Apply(s.bus, Next(h))) && h in t.bus.subs
    ensures t.bus.subs[h].queue == s.bus.subs[h].queue[1..] && t.bus.subs[h].h.open == s.bus.subs[h].h.open
  {
    t := s.(bus := Apply(s.bus, Next(h)));
  }

  lemma MessageTaken<H>(s: State<H>, h: H, m: Message, expired: bool)
    requires Is(s, h, Serving) && !s.clients[h].closed && !s.clients[h].raised
    requires h in s.bus.subs && !s.bus.subs[h].finished
    requires s.bus.subs[h].queue != [] && s.bus.subs[h].queue[0] == Data(m)
    ensures var u := Take(s, Receive(h, expired));
      && h in u.clients && h in u.bus.subs && (Is(u, h, Serving) <==> !expired)
      && (expired ==> Is(u, h, Leaving) && !u.bus.subs[h].h.open)
      && u.clients[h].received == s.clients[h].received + [m.payload]
      && (!expired ==>
            u.bus.subs[h].queue == s.bus.subs[h].queue[1..] && u.bus.subs[h].h.open == s.bus.subs[h].h.open)
  {
    var t := NextTaken(s, h);
    LeaveCloses(t.(clients := s.clients[h := Send(s.clients[h], m.payload)]), h);
  }

  lemma SentinelTaken<H>(s: State<H>, h: H, expired: bool)
    requires Is(s, h, Serving) && h in s.bus.subs && !s.bus.subs[h].finished
    requires s.bus.subs[h].queue != [] && s.bus.subs[h].queue[0] == Sentinel
    ensures var u := Take(s, Receive(h, expired));
      && Is(u, h, Leaving) && h in u.bus.subs && !u.bus.subs[h].h.open
      && u.clients[h].received == s.clients[h].received
  {
    var t := NextTaken(s, h);
    LeaveCloses(t, h);
  }

  /** A handler that is resumed with a message receives it, and goes on if and only if its deadline has not
      passed; at the sentinel it leaves.  Once it leaves its subscription is closed.  With nothing to
      take it waits on. */
  ghost predicate GoesOnIff<H>(s: State<H>, u: State<H>, h: H, queue: seq<Item>, expired: bool) {
    && h in s.clients && h in u.clients && h in u.bus.subs
    && (queue == [] ==> u == s)
    && (queue != [] ==>
          && (Is(u, h, Serving) <==> queue[0].Data? && !expired)
          && (!Is(u, h, Serving) ==> Is(u, h, Leaving) && !u.bus.subs[h].h.open)
          && u.clients[h].received == s.clients[h].received + (if queue[0].Data? then [queue[0].msg.payload] else [])
          && (Is(u, h, Serving) ==> u.bus.subs[h].queue == queue[1..]))
  }

  lemma Resumed<H>(s: State<H>, h: H, expired: bool)
    requires Is(s, h, Serving) && h in s.bus.subs && FeedOf(s.clients[h], s.bus.subs[h], s.feedClosed)
    ensures GoesOnIff(s, Take(s, Receive(h, expired)), h, s.bus.subs[h].queue, expired)
  {
    if s.bus.subs[h].queue != [] {
      match s.bus.subs[h].queue[0]
      case Sentinel => SentinelTaken(s, h, expired);
      case Data(m) => MessageTaken(s, h, m, expired);
    }
  }

  /** So it is in every run. */
  lemma HandlerGoesOnIff<H>(steps: seq<Step<H>>, h: H, expired: bool)
    requires Is(Run(steps), h, Serving) && h in Run(steps).bus.subs
    ensures GoesOnIff(Run(steps), Take(Run(steps), Receive(h, expired)), h, Run(steps).bus.subs[h].queue, expired)
  {
    RunInv(steps);
    Resumed(Run(steps), h, expired);
  }

  /** A cancelled handler leaves its feed at once, with nothing more received. */
  lemma CancelledLeaves<H>(s: State<H>, h: H)
    requires Is(s, h, Serving) && h in s.bus.subs
    ensures var u := Take(s, Interrupt(h));
      && Is(u, h, Leaving) && h in u.bus.subs && !u.bus.subs[h].h.open
      && u.clients[h].received == s.clients[h].received
  {
    LeaveCloses(s, h);
  }

  lemma NoMoreReceived<H>(s: State<H>, e: Step<H>, h: H)
    requires h in s.clients && !Is(s, h, Serving)
    ensures h in Take(s, e).clients && !Is(Take(s, e), h, Serving)
    ensures Take(s, e).clients[h].received == s.clients[h].received
  {}

  lemma {:induction false} NothingAfterLeaving<H>(s: State<H>, more: seq<Step<H>>, h: H)
    requires h in s.clients && !Is(s, h, Serving)
    ensures var u := RunOn(s, more);
      h in u.clients && !Is(u, h, Serving) && u.clients[h].received == s.clients[h].received
  {
    if more != [] {
      NothingAfterLeaving(s, more[..|more| - 1], h);
      NoMoreReceived(RunOn(s, more[..|more| - 1]), more[|more| - 1], h);
    }
  }

  /** The message with which the deadline is found to have passed is the last one a handler receives,
      whatever else happens and however much is queued for it. */
  lemma DeadlineIsLast<H>(steps: seq<Step<H>>, h: H, more: seq<Step<H>>)
    requires Is(Run(steps), h, Serving) && h in Run(steps).bus.subs
    requires Run(steps).bus.subs[h].queue != [] && Run(steps).bus.subs[h].queue[0].Data?
    ensures var s := Run(steps);
      var u := RunOn(Take(s, Receive(h, true)), more);
      && h in u.clients && !Is(u, h, Serving)
      && u.clients[h].received == s.clients[h].received + [s.bus.subs[h].queue[0].msg.payload]
  {
    HandlerGoesOnIff(steps, h, true);
    NothingAfterLeaving(Take(Run(steps), Receive(h, true)), more, h);
  }
}
