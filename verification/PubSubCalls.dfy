/** What a stream holds, read from the calls that were made on the bus. */
module PubSubCalls {
  import opened PubSubModel
  import opened PubSubRuns

  /** The messages of the publishes of a run, in order. */
  function Published<S>(events: seq<Event<S>>): seq<Message> {
    if events == [] then []
    else
      var last := events[|events| - 1];
      Published(events[..|events| - 1]) + if last.Publish? then [last.msg] else []
  }

  lemma LogStep<S>(b: Bus<S>, e: Event<S>)
    requires ListsKnown(b)
    ensures Apply(b, e).log == b.log + if e.Publish? then [e.msg] else []
  {}

  /** The log is what was published, whoever took it. */
  lemma {:induction false} LogIsPublished<S>(events: seq<Event<S>>)
    ensures Reached(events).log == Published(events)
  {
    if events != [] {
      var before := events[..|events| - 1];
      LogIsPublished(before);
      ReachedInv(before);
      LogStep(Reached(before), events[|events| - 1]);
    }
  }

  /** What a subscriber's generator yielded, followed by the messages in its queue, is what was published
      at the positions it was to get: the very messages, payload and publisher included. */
  lemma StreamIsPublished<S>(events: seq<Event<S>>, s: S)
    requires s in Reached(events).subs
    ensures var sub := Reached(events).subs[s];
      && (forall i :: 0 <= i < |Offered(events, s)| ==> Offered(events, s)[i] < |Published(events)|)
      && sub.h.yielded + Datas(sub.queue) == MessagesAt(Published(events), Offered(events, s))
  {
    LogIsPublished(events);
    AcceptsExactly(events, s);
    StreamExactness(events, s);
  }

  // ------------------------------------------------------------------
  // The subscription
  // ------------------------------------------------------------------

  predicate Subscribes<S(==)>(e: Event<S>, s: S) { e.Subscribe? && e.s == s }

  predicate Closes<S(==)>(e: Event<S>, s: S, channel: string) {
    (e.Unsubscribe? && e.s == s) || (e.CloseChannel? && e.channel == channel)
  }

  /** The call that made the subscription. */
  ghost predicate MadeAt<S>(events: seq<Event<S>>, s: S, sub: Sub, at: nat) {
    && at < |events| && events[at] == Subscribe(s, sub.channel, sub.max)
    && (forall i :: 0 <= i < at ==> !Subscribes(events[i], s))
    && sub.h.from == |Published(events[..at])|
  }

  /** The first call that closed it. */
  ghost predicate ClosedAt<S>(events: seq<Event<S>>, s: S, sub: Sub, from: nat, till: nat) {
    && from < till < |events| && Closes(events[till], s, sub.channel)
    && (forall i :: from < i < till ==> !Closes(events[i], s, sub.channel))
    && sub.h.till == |Published(events[..till])|
  }

  /** A subscription as the calls tell it: made by the first subscribe, open until the first call that
      closes it or its channel. */
  ghost predicate AsCalled<S>(events: seq<Event<S>>, s: S, sub: Sub) {
    exists at: nat :: MadeAt(events, s, sub, at)
      && if sub.h.open then forall i :: at < i < |events| ==> !Closes(events[i], s, sub.channel)
         else exists till: nat :: ClosedAt(events, s, sub, at, till)
  }

  lemma MadeStays<S>(events: seq<Event<S>>, e: Event<S>, s: S, sub: Sub, sub': Sub, at: nat)
    requires MadeAt(events, s, sub, at)
    requires sub'.channel == sub.channel && sub'.max == sub.max && sub'.h.from == sub.h.from
    ensures MadeAt(events + [e], s, sub', at)
  {
    assert (events + [e])[..at] == events[..at];
  }

  lemma ClosedStays<S>(events: seq<Event<S>>, e: Event<S>, s: S, sub: Sub, sub': Sub, from: nat, till: nat)
    requires ClosedAt(events, s, sub, from, till)
    requires sub'.channel == sub.channel && sub'.h.till == sub.h.till
    ensures ClosedAt(events + [e], s, sub', from, till)
  {
    assert (events + [e])[..till] == events[..till];
  }

  /** What one call does to a subscription that is there. */
  lemma SubscriptionStep<S>(b: Bus<S>, e: Event<S>, s: S)
    requires MapInv(b) && s in b.subs
    ensures s in Apply(b, e).subs
    ensures var sub, sub' := b.subs[s], Apply(b, e).subs[s];
      && sub'.channel == sub.channel && sub'.max == sub.max && sub'.h.from == sub.h.from
      && (sub'.h.open <==> sub.h.open && !Closes(e, s, sub.channel))
      && sub'.h.till == if sub.h.open && Closes(e, s, sub.channel) then |b.log| else sub.h.till
  {
    if e.CloseChannel? {
      var list := Listed(b, e.channel);
      assert list[..|list|] == list;
      assert s in list <==> b.subs[s].h.open && b.subs[s].channel == e.channel;
    }
  }

  lemma FirstStep<S>(b: Bus<S>, e: Event<S>, s: S)
    requires s !in b.subs
    ensures s in Apply(b, e).subs <==> Subscribes(e, s)
    ensures Subscribes(e, s) ==>
      Apply(b, e).subs[s] == Sub(e.channel, e.max, [], false, Past(true, |b.log|, |b.log|, [], [], 0))
  {}

  lemma StaysAsCalled<S>(events: seq<Event<S>>, e: Event<S>, s: S, sub: Sub, sub': Sub)
    requires AsCalled(events, s, sub)
    requires sub'.channel == sub.channel && sub'.max == sub.max && sub'.h.from == sub.h.from
    requires sub'.h.open <==> sub.h.open && !Closes(e, s, sub.channel)
    requires sub'.h.till == if sub.h.open && Closes(e, s, sub.channel) then |Published(events)| else sub.h.till
    ensures AsCalled(events + [e], s, sub')
  {
    var at: nat :| MadeAt(events, s, sub, at)
      && if sub.h.open then forall i :: at < i < |events| ==> !Closes(events[i], s, sub.channel)
         else exists till: nat :: ClosedAt(events, s, sub, at, till);
    MadeStays(events, e, s, sub, sub', at);
    if sub.h.open && Closes(e, s, sub.channel) {
      assert (events + [e])[..|events|] == events;
      assert ClosedAt(events + [e], s, sub', at, |events|);
    } else if !sub.h.open {
      var till: nat :| ClosedAt(events, s, sub, at, till);
      ClosedStays(events, e, s, sub, sub', at, till);
    }
  }

  /** A subscriber is there if and only if it was subscribed; its channel, its bound and the window of
      the publishes it could get are those the calls tell. */
  lemma {:induction false} SubscriptionAsCalled<S>(events: seq<Event<S>>, s: S)
    ensures s in Reached(events).subs <==> exists i :: 0 <= i < |events| && Subscribes(events[i], s)
    ensures s in Reached(events).subs ==> AsCalled(events, s, Reached(events).subs[s])
  {
    if events != [] {
      var before, e := events[..|events| - 1], events[|events| - 1];
      assert events == before + [e];
      SubscriptionAsCalled(before, s);
      ReachedInv(before);
      LogIsPublished(before);
      var b := Reached(before);
      if s in b.subs {
        SubscriptionStep(b, e, s);
        StaysAsCalled(before, e, s, b.subs[s], Apply(b, e).subs[s]);
      } else {
        FirstStep(b, e, s);
        if Subscribes(e, s) {
          assert events[..|before|] == before;
          assert MadeAt(events, s, Apply(b, e).subs[s], |before|);
        }
      }
    }
  }
}
