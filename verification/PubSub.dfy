/** `Subscriber` and `InMemoryMessageBus` as the program keeps them. */
module PubSub {
  import opened PubSubModel
  import opened PubSubRuns
  import opened PubSubIndependence
  import opened Options

  class Subscriber {
    const subscriberId: string
    const channel: string
    const maxQueueSize: int
    var queue: seq<Item>
    var finished: bool  // control state of the generator that `messages` makes for this subscriber

    constructor (subscriberId: string, channel: string, maxQueueSize: int)
      ensures this.subscriberId == subscriberId && this.channel == channel && this.maxQueueSize == maxQueueSize
      ensures queue == [] && !finished
    {
      this.subscriberId, this.channel, this.maxQueueSize := subscriberId, channel, maxQueueSize;
      queue, finished := [], false;
    }

    predicate IsLagging()
      reads this
    {
      |queue| >= LagThreshold(maxQueueSize)
    }

    /** `put_nowait`; the result says whether QueueFull was raised instead. */
    method PutNowait(item: Item) returns (full: bool)
      modifies this
      ensures full == (0 < maxQueueSize <= |old(queue)|)
      ensures queue == if full then old(queue) else old(queue) + [item]
      ensures finished == old(finished)
    {
      full := 0 < maxQueueSize <= |queue|;
      if !full { queue := queue + [item]; }
    }
  }

  class InMemoryMessageBus {
    var channels: map<string, seq<Subscriber>>
    ghost var view: Bus<Subscriber>
    ghost var run: seq<Event<Subscriber>>  // every event so far

    ghost predicate Tied(s: Subscriber, sub: Sub)
      reads s
    {
      s.channel == sub.channel && s.maxQueueSize == sub.max && s.queue == sub.queue && s.finished == sub.finished
    }

    ghost predicate Valid()
      reads this, view.subs.Keys
    {
      && channels == view.channels
      && (forall s :: s in view.subs ==> Tied(s, view.subs[s]))
      && MapInv(view)
    }

    /** The bus is in the state its run leads to; every event keeps it so. */
    ghost predicate Sound()
      reads this
    {
      view == Reached(run)
    }

    /** The event that led from `before` to the present state. */
    ghost method Record(before: Bus<Subscriber>, e: Event<Subscriber>)
      requires view == Apply(before, e)
      modifies `run
      ensures run == old(run) + [e] && (before == Reached(old(run)) ==> Sound())
    {
      if before == Reached(run) { ExecStep(Empty(), run, e); }
      run := run + [e];
    }

    constructor ()
      ensures Valid() && view == Empty() && Sound()
    {
      channels, view, run := map[], Empty(), [];
    }

    /** The number of channels with an open subscriber. */
    function ChannelCount(): (n: nat)
      requires Valid()
      reads this, view.subs.Keys
      ensures n == |ChannelsInUse(view)|
    {
      OpenChannels(view);
      |channels|
    }

    function ListedOn(channel: string): seq<Subscriber>
      reads this
    {
      if channel in channels then channels[channel] else []
    }

    method Subscribe(channel: string, subscriberId: string, maxQueueSize: int) returns (sub: Subscriber)
      requires Valid()
      modifies this
      ensures Valid() && fresh(sub) && sub !in old(view).subs && sub.subscriberId == subscriberId
      ensures sub.channel == channel && sub.maxQueueSize == maxQueueSize && sub.queue == [] && !sub.finished
      ensures channels == old(channels)[channel := old(ListedOn(channel)) + [sub]]
      ensures view == Apply(old(view), PubSubModel.Subscribe(sub, channel, maxQueueSize))
      ensures run == old(run) + [PubSubModel.Subscribe(sub, channel, maxQueueSize)] && (old(Sound()) ==> Sound())
    {
      sub := new Subscriber(subscriberId, channel, maxQueueSize);
      SubscribeMap(view, sub, channel, maxQueueSize);
      channels := channels[channel := ListedOn(channel) + [sub]];
      view := DoSubscribe(view, sub, channel, maxQueueSize);
      Record(old(view), PubSubModel.Subscribe(sub, channel, maxQueueSize));
    }

    /** Also of a subscriber this bus did not make, which only gets its sentinel. */
    method Unsubscribe(subscriber: Subscriber)
      requires Valid()
      modifies this, subscriber
      ensures Valid() && view == Apply(old(view), PubSubModel.Unsubscribe(subscriber))
      ensures run == old(run) + [PubSubModel.Unsubscribe(subscriber)] && (old(Sound()) ==> Sound())
      ensures subscriber.queue
              == old(subscriber.queue)
                 + if 0 < subscriber.maxQueueSize <= |old(subscriber.queue)| then [] else [Sentinel]
      ensures subscriber.finished == old(subscriber.finished)
    {
      Delisted(view, subscriber.channel, subscriber);
      var channel := subscriber.channel;
      var subs := Remove(ListedOn(channel), subscriber);
      if subs == [] {
        channels := channels - {channel};
      } else {
        channels := channels[channel := subs];
      }
      var _ := subscriber.PutNowait(Sentinel);
      view := Apply(view, PubSubModel.Unsubscribe(subscriber));
      Record(old(view), PubSubModel.Unsubscribe(subscriber));
    }

    method Publish(channel: string, payload: Payload, publisherId: string, skipLagging: bool) returns (delivered: nat)
      requires Valid()
      modifies this, view.subs.Keys
      ensures Valid() && channels == old(channels)
      ensures view == Apply(old(view), PubSubModel.Publish(Message(channel, payload, publisherId), skipLagging))
      ensures delivered == view.delivered - old(view).delivered
      ensures run == old(run) + [PubSubModel.Publish(Message(channel, payload, publisherId), skipLagging)]
      ensures old(Sound()) ==> Sound()
      ensures forall s :: s in old(view).subs ==>
        s.queue == old(s.queue) + if s in old(ListedOn(channel)) && HasRoom(s.maxQueueSize, |old(s.queue)|, skipLagging)
                                  then [Data(Message(channel, payload, publisherId))] else []
    {
      var msg := Message(channel, payload, publisherId);
      PublishMap(view, msg, skipLagging);
      delivered := OfferAll(ListedOn(channel), msg, skipLagging, view.subs, |view.log|);
      PublishQueues(view, msg, skipLagging);
      view := DoPublish(view, msg, skipLagging);
      Record(old(view), PubSubModel.Publish(msg, skipLagging));
    }

    ghost predicate TiedAll(subs: map<Subscriber, Sub>)
      reads subs.Keys
    {
      forall s :: s in subs ==> Tied(s, subs[s])
    }

    lemma OneMore(subs: map<Subscriber, Sub>, list: seq<Subscriber>, k: nat, msg: Message, at: nat, skip: bool)
      requires k < |list| && NoDup(list) && forall s :: s in list ==> s in subs
      ensures var last := list[k];
        var before, after := Deliver(subs, list[..k], msg, at, skip), Deliver(subs, list[..k + 1], msg, at, skip);
        && before[last] == subs[last]
        && after == before[last := if Takes(subs[last], skip) then Put(subs[last], msg, at) else subs[last]]
        && Takers(subs, list[..k + 1], skip)
           == Takers(subs, list[..k], skip) + if Takes(subs[last], skip) then 1 else 0
    {
      assert list[..k + 1][..k] == list[..k];
      DeliverOneMore(subs, list[..k + 1], msg, at, skip);
    }

    /** The loop of `publish` over its snapshot of the channel. */
    method OfferAll(subs: seq<Subscriber>, msg: Message, skip: bool, ghost before: map<Subscriber, Sub>, ghost at: nat)
      returns (delivered: nat)
      requires TiedAll(before) && NoDup(subs) && forall s :: s in subs ==> s in before
      modifies before.Keys
      ensures TiedAll(Deliver(before, subs, msg, at, skip))
      ensures delivered == Takers(before, subs, skip)
    {
      delivered := 0;
      for k := 0 to |subs|
        invariant TiedAll(Deliver(before, subs[..k], msg, at, skip))
        invariant delivered == Takers(before, subs[..k], skip)
      {
        OneMore(before, subs, k, msg, at, skip);
        var taken := OfferTied(subs[k], msg, skip, Deliver(before, subs[..k], msg, at, skip), at);
        if taken { delivered := delivered + 1; }
      }
      assert subs[..|subs|] == subs;
    }

    method OfferTied(sub: Subscriber, msg: Message, skip: bool, ghost now: map<Subscriber, Sub>, ghost at: nat)
      returns (taken: bool)
      requires TiedAll(now) && sub in now
      modifies sub
      ensures taken == Takes(now[sub], skip)
      ensures TiedAll(now[sub := if taken then Put(now[sub], msg, at) else now[sub]])
    {
      assert Tied(sub, now[sub]);
      taken := Offer(sub, msg, skip);
      assert forall s :: s in now && s != sub ==> Tied(s, now[s]);
    }

    /** The body of the loop of `publish`. */
    method Offer(sub: Subscriber, msg: Message, skipLagging: bool) returns (taken: bool)
      modifies sub
      ensures taken == !((skipLagging && old(sub.IsLagging())) || 0 < sub.maxQueueSize <= |old(sub.queue)|)
      ensures sub.queue == (if taken then old(sub.queue) + [Data(msg)] else old(sub.queue))
      ensures sub.finished == old(sub.finished)
    {
      taken := false;
      if !(skipLagging && sub.IsLagging()) {
        var full := sub.PutNowait(Data(msg));
        taken := !full;
      }
    }

    method CloseChannel(channel: string)
      requires Valid()
      modifies this, view.subs.Keys
      ensures Valid() && view == Apply(old(view), PubSubModel.CloseChannel(channel))
      ensures run == old(run) + [PubSubModel.CloseChannel(channel)] && (old(Sound()) ==> Sound())
      ensures channels == old(channels) - {channel}
      ensures forall s :: s in old(view).subs ==>
        s.queue == old(s.queue) + if s in old(ListedOn(channel)) && !(0 < s.maxQueueSize <= |old(s.queue)|)
                                  then [Sentinel] else []
    {
      CloseQueues(view, channel);
      UnsubscribeAll(channel, ListedOn(channel));
      run := old(run);
      Record(old(view), PubSubModel.CloseChannel(channel));
    }

    /** The loop of `close_channel` over its snapshot of the channel. */
    method UnsubscribeAll(channel: string, subs: seq<Subscriber>)
      requires Valid() && subs == Listed(view, channel)
      modifies this, view.subs.Keys
      ensures Valid() && view == DoCloseChannel(old(view), channel)
    {
      CloseNone(view, channel);
      for k := 0 to |subs|
        invariant Valid() && view == CloseFirst(old(view), channel, k)
      {
        CloseOneMore(old(view), channel, k);
        Unsubscribe(subs[k]);
      }
    }

    /** The generator of `messages` runs until its next yield (`yielded.Some?`), its end, or an empty
        queue; also for a subscriber this bus did not make. */
    method Next(subscriber: Subscriber) returns (yielded: Option<Message>)
      requires Valid()
      modifies this, subscriber
      ensures Valid() && view == Apply(old(view), PubSubModel.Next(subscriber))
      ensures run == old(run) + [PubSubModel.Next(subscriber)] && (old(Sound()) ==> Sound())
      ensures channels == old(channels)
      ensures if old(subscriber.finished) || old(subscriber.queue) == [] then
                && yielded == None
                && subscriber.queue == old(subscriber.queue) && subscriber.finished == old(subscriber.finished)
              else
                && subscriber.queue == old(subscriber.queue)[1..]
                && (subscriber.finished <==> old(subscriber.queue)[0] == Sentinel)
                && yielded == match old(subscriber.queue)[0] { case Sentinel => None case Data(m) => Some(m) }
      ensures subscriber in old(view).subs ==>
        && subscriber in view.subs
        && view.subs[subscriber].h.yielded
           == old(view).subs[subscriber].h.yielded + if yielded.Some? then [yielded.value] else []
    {
      if subscriber in view.subs { NextMap(view, subscriber); }
      yielded := None;
      if !subscriber.finished && subscriber.queue != [] {
        match subscriber.queue[0] {
          case Sentinel => subscriber.finished := true;
          case Data(m) => yielded := Some(m);
        }
        subscriber.queue := subscriber.queue[1..];
      }
      view := Apply(view, PubSubModel.Next(subscriber));
      Record(old(view), PubSubModel.Next(subscriber));
    }

    /** The bus got here from `before` by n resumptions of the generator. */
    ghost predicate Resumed(before: Bus<Subscriber>, subscriber: Subscriber, n: nat)
      reads this
    {
      view == Exec(before, Resumptions(subscriber, n))
    }

    /** What the generator is going to yield from its queue. */
    static ghost function Left(subscriber: Subscriber): seq<Message>
      reads subscriber
    {
      if subscriber.finished then [] else UntilSentinel(subscriber.queue)
    }

    /** One resumption on the way, after n others. */
    method NextAfter(subscriber: Subscriber, ghost before: Bus<Subscriber>, ghost n: nat) returns (got: seq<Message>)
      requires Valid() && Resumed(before, subscriber, n)
      requires !subscriber.finished && subscriber.queue != []
      modifies this, subscriber
      ensures Valid() && Resumed(before, subscriber, n + 1) && (old(Sound()) ==> Sound())
      ensures channels == old(channels) && |subscriber.queue| < |old(subscriber.queue)|
      ensures old(Left(subscriber)) == got + Left(subscriber)
    {
      ExecStep(before, Resumptions(subscriber, n), PubSubModel.Next(subscriber));
      var msg := Next(subscriber);
      got := if msg.Some? then [msg.value] else [];
    }

    /** The loop of `messages`, run until it suspends on an empty queue or ends. */
    method RunGenerator(subscriber: Subscriber) returns (received: seq<Message>, ghost n: nat)
      requires Valid()
      modifies this, subscriber
      ensures Valid() && channels == old(channels) && (old(Sound()) ==> Sound())
      ensures Resumed(old(view), subscriber, n)
      ensures subscriber.finished || subscriber.queue == []
      ensures received == old(Left(subscriber))
    {
      received, n := [], 0;
      while !subscriber.finished && subscriber.queue != []
        invariant Valid() && channels == old(channels) && (old(Sound()) ==> Sound())
        invariant Resumed(old(view), subscriber, n)
        invariant old(Left(subscriber)) == received + Left(subscriber)
        decreases |subscriber.queue|
      {
        ghost var left := Left(subscriber);
        var got := NextAfter(subscriber, old(view), n);
        Regroup(received, got, Left(subscriber), left);
        received, n := received + got, n + 1;
      }
    }

    /** `messages`: on a bus in a state it can reach, everything that is buffered is yielded. */
    method Messages(subscriber: Subscriber) returns (received: seq<Message>, ghost n: nat)
      requires Valid()
      modifies this, subscriber
      ensures Valid() && channels == old(channels) && (old(Sound()) ==> Sound())
      ensures view == Exec(old(view), Resumptions(subscriber, n))
      ensures subscriber.finished || subscriber.queue == []
      ensures received == if old(subscriber.finished) then [] else UntilSentinel(old(subscriber.queue))
      ensures old(Sound()) && subscriber in old(view).subs && !old(subscriber.finished) ==>
        received == Datas(old(subscriber.queue))
    {
      if Sound() && subscriber in view.subs {
        ReachedInv(run);
        YieldsAll(view.log, view.subs[subscriber]);
      }
      received, n := RunGenerator(subscriber);
    }
  }

  lemma PublishQueues<S>(b: Bus<S>, msg: Message, skip: bool)
    requires ListsKnown(b)
    ensures forall s :: s in b.subs ==>
      s in DoPublish(b, msg, skip).subs
      && DoPublish(b, msg, skip).subs[s].queue
         == b.subs[s].queue + if s in Listed(b, msg.channel) && HasRoom(b.subs[s].max, |b.subs[s].queue|, skip)
                              then [Data(msg)] else []
  {
    forall s | s in b.subs ensures Takes(b.subs[s], skip) <==> HasRoom(b.subs[s].max, |b.subs[s].queue|, skip) {
      TakesIff(b.subs[s], skip);
    }
  }

  lemma CloseQueues<S>(b: Bus<S>, channel: string)
    ensures forall s :: s in b.subs ==>
      s in DoCloseChannel(b, channel).subs
      && DoCloseChannel(b, channel).subs[s].queue
         == b.subs[s].queue + if s in Listed(b, channel) && !(0 < b.subs[s].max <= |b.subs[s].queue|)
                              then [Sentinel] else []
  {
    var list := Listed(b, channel);
    assert list[..|list|] == list;
  }

  lemma Regroup<T>(a: seq<T>, b: seq<T>, c: seq<T>, bc: seq<T>)
    requires bc == b + c
    ensures a + bc == a + b + c
  {}

  /** Taking a subscriber off the list of its channel, whichever bus made it. */
  lemma Delisted(b: Bus<Subscriber>, channel: string, s: Subscriber)
    requires MapInv(b) && (s in b.subs ==> b.subs[s].channel == channel)
    ensures var rest := Remove(Listed(b, channel), s);
      Apply(b, PubSubModel.Unsubscribe(s)).channels
      == if rest == [] then b.channels - {channel} else b.channels[channel := rest]
    ensures MapInv(Apply(b, PubSubModel.Unsubscribe(s)))
  {
    if s in b.subs {
      DelistInv(b, s);
    } else {
      RemoveAbsent(Listed(b, channel), s);
    }
  }
}
