/** What holds of the message bus over every run. */
module PubSubRuns {
  import opened PubSubModel
  import opened MapSums

  // ------------------------------------------------------------------
  // Streams
  // ------------------------------------------------------------------

  function Datas(queue: seq<Item>): seq<Message> {
    if queue == [] then []
    else
      var last := queue[|queue| - 1];
      Datas(queue[..|queue| - 1]) + if last.Data? then [last.msg] else []
  }

  /** What a generator yields from a queue before it suspends or ends. */
  function UntilSentinel(queue: seq<Item>): seq<Message> {
    if queue == [] || queue[0] == Sentinel then [] else [queue[0].msg] + UntilSentinel(queue[1..])
  }

  lemma {:induction false} UntilSentinelOf(queue: seq<Item>, ms: seq<Message>)
    requires |ms| <= |queue|
    requires forall i :: 0 <= i < |queue| ==> queue[i] == if i < |ms| then Data(ms[i]) else Sentinel
    ensures UntilSentinel(queue) == ms
  {
    if ms != [] {
      UntilSentinelOf(queue[1..], ms[1..]);
      assert [ms[0]] + ms[1..] == ms;
    }
  }

  /** As nothing sits behind a sentinel, that is every message in the queue. */
  lemma YieldsAll(log: seq<Message>, sub: Sub)
    requires QueueInv(log, sub)
    ensures UntilSentinel(sub.queue) == Datas(sub.queue)
  {
    StreamOf(log, sub);
    var pending := MessagesAt(log, sub.h.accepted)[|sub.h.yielded|..];
    DatasOf(sub.queue, pending);
    UntilSentinelOf(sub.queue, pending);
  }

  function MessagesAt(log: seq<Message>, at: seq<nat>): seq<Message>
    requires forall i :: 0 <= i < |at| ==> at[i] < |log|
  {
    seq(|at|, i requires 0 <= i < |at| => log[at[i]])
  }

  lemma {:induction false} DatasOf(queue: seq<Item>, ms: seq<Message>)
    requires |ms| <= |queue|
    requires forall i :: 0 <= i < |queue| ==> queue[i] == if i < |ms| then Data(ms[i]) else Sentinel
    ensures Datas(queue) == ms
  {
    if queue != [] {
      var n := |queue| - 1;
      DatasOf(queue[..n], if |ms| == |queue| then ms[..n] else ms);
    }
  }

  lemma StreamOf(log: seq<Message>, sub: Sub)
    requires QueueInv(log, sub)
    ensures sub.h.yielded + Datas(sub.queue) == MessagesAt(log, sub.h.accepted)
    ensures forall i, j :: 0 <= i < j < |sub.queue| && sub.queue[i] == Sentinel ==> sub.queue[j] == Sentinel
  {
    var all := MessagesAt(log, sub.h.accepted);
    DatasOf(sub.queue, all[|sub.h.yielded|..]);
  }

  /** Yielded and still buffered messages are exactly the accepted ones, nothing sits behind a
      sentinel, and the accepted ones are publishes on the channel made while subscribed, in order. */
  lemma StreamExactness<S>(events: seq<Event<S>>, s: S)
    requires s in Reached(events).subs
    ensures var b := Reached(events);
      var sub := b.subs[s];
      && (forall i :: 0 <= i < |sub.h.accepted| ==> sub.h.accepted[i] < |b.log|)
      && sub.h.yielded + Datas(sub.queue) == MessagesAt(b.log, sub.h.accepted)
      && (forall i, j :: 0 <= i < j < |sub.queue| && sub.queue[i] == Sentinel ==> sub.queue[j] == Sentinel)
      && (forall i, j :: 0 <= i < j < |sub.h.accepted| ==> sub.h.accepted[i] < sub.h.accepted[j])
      && (forall i :: 0 <= i < |sub.h.accepted| ==>
            && b.log[sub.h.accepted[i]].channel == sub.channel
            && sub.h.from <= sub.h.accepted[i] < (if sub.h.open then |b.log| else sub.h.till))
      && (0 < sub.max ==> |sub.queue| <= sub.max)
  {
    ReachedInv(events);
    StreamOf(Reached(events).log, Reached(events).subs[s]);
  }

  /** The publishes of a run that a subscriber is to get: those on its channel, made while it is
      subscribed, that find its queue with room and, if lagging counts, so short that one more message
      leaves it within 80%. */
  function Offered<S(==)>(events: seq<Event<S>>, s: S): seq<nat> {
    if events == [] then []
    else
      var before, last := events[..|events| - 1], events[|events| - 1];
      var b := Reached(before);
      Offered(before, s) + if last.Publish? && Gets(b, s, last.msg, last.skipLagging) then [|b.log|] else []
  }

  predicate Gets<S>(b: Bus<S>, s: S, msg: Message, skip: bool) {
    && s in b.subs && b.subs[s].h.open && b.subs[s].channel == msg.channel
    && HasRoom(b.subs[s].max, |b.subs[s].queue|, skip)
  }

  predicate HasRoom(max: int, depth: nat, skip: bool) {
    (0 < max ==> depth < max) && (skip ==> 5 * (depth + 1) <= 4 * max)
  }

  lemma TakesIff(sub: Sub, skip: bool)
    ensures Takes(sub, skip) <==> HasRoom(sub.max, |sub.queue|, skip)
  {}

  lemma PublishAccepts<S>(b: Bus<S>, msg: Message, skip: bool, s: S)
    requires MapInv(b) && s in b.subs
    ensures ListsKnown(b) && s in DoPublish(b, msg, skip).subs
    ensures DoPublish(b, msg, skip).subs[s].h.accepted
            == b.subs[s].h.accepted + if Gets(b, s, msg, skip) then [|b.log|] else []
  {
    PublishMap(b, msg, skip);
    TakesIff(b.subs[s], skip);
    assert s in Listed(b, msg.channel) <==> b.subs[s].h.open && b.subs[s].channel == msg.channel;
  }

  lemma OthersAcceptNothing<S>(b: Bus<S>, e: Event<S>, s: S)
    requires !e.Publish?
    ensures s in b.subs ==> s in Apply(b, e).subs && Apply(b, e).subs[s].h.accepted == b.subs[s].h.accepted
    ensures s !in b.subs && s in Apply(b, e).subs ==> Apply(b, e).subs[s].h.accepted == []
  {}

  lemma ApplyAccepts<S>(b: Bus<S>, e: Event<S>, s: S)
    requires MapInv(b)
    ensures s in b.subs ==> s in Apply(b, e).subs
    ensures s in Apply(b, e).subs ==>
      Apply(b, e).subs[s].h.accepted
      == (if s in b.subs then b.subs[s].h.accepted else [])
         + if e.Publish? && Gets(b, s, e.msg, e.skipLagging) then [|b.log|] else []
  {
    if !e.Publish? {
      OthersAcceptNothing(b, e, s);
    } else if s in b.subs {
      PublishAccepts(b, e.msg, e.skipLagging, s);
    }
  }

  lemma {:induction false} AcceptedIsOffered<S>(events: seq<Event<S>>, s: S)
    ensures if s in Reached(events).subs then Reached(events).subs[s].h.accepted == Offered(events, s)
            else Offered(events, s) == []
  {
    if events != [] {
      var before := events[..|events| - 1];
      AcceptedIsOffered(before, s);
      ReachedInv(before);
      ApplyAccepts(Reached(before), events[|events| - 1], s);
    }
  }

  /** A subscriber accepted exactly the publishes it was to get. */
  lemma AcceptsExactly<S>(events: seq<Event<S>>, s: S)
    requires s in Reached(events).subs
    ensures Reached(events).subs[s].h.accepted == Offered(events, s)
  {
    AcceptedIsOffered(events, s);
  }

  /** Any two subscribers see the publishes both accepted in the same order. */
  lemma CommonOrder<S>(events: seq<Event<S>>, s: S, t: S, i: nat, j: nat, i': nat, j': nat)
    requires s in Reached(events).subs && t in Reached(events).subs
    requires var p, q := Reached(events).subs[s].h.accepted, Reached(events).subs[t].h.accepted;
      i < |p| && j < |p| && i' < |q| && j' < |q| && p[i] == q[i'] && p[j] == q[j']
    ensures i < j <==> i' < j'
  {
    ReachedInv(events);
  }

  /** The messages two subscribers saw, at those positions, are the same messages. */
  lemma CommonMessage<S>(events: seq<Event<S>>, s: S, t: S, i: nat, i': nat)
    requires s in Reached(events).subs && t in Reached(events).subs
    requires var p, q := Reached(events).subs[s].h, Reached(events).subs[t].h;
      i < |p.yielded| && i' < |q.yielded| && i < |p.accepted| && i' < |q.accepted| && p.accepted[i] == q.accepted[i']
    ensures Reached(events).subs[s].h.yielded[i] == Reached(events).subs[t].h.yielded[i']
  {
    ReachedInv(events);
  }

  // ------------------------------------------------------------------
  // The channel map and the delivery count
  // ------------------------------------------------------------------

  ghost function ChannelsInUse<S>(b: Bus<S>): set<string> {
    set s | s in b.subs && b.subs[s].h.open :: b.subs[s].channel
  }

  lemma OpenChannels<S>(b: Bus<S>)
    requires MapInv(b)
    ensures b.channels.Keys == ChannelsInUse(b)
  {
    forall c | c in b.channels ensures c in ChannelsInUse(b) {
      assert b.channels[c][0] in b.channels[c];
    }
  }

  /** The keys are the channels with an open subscriber, each of them listed exactly once. */
  lemma ChannelMap<S>(events: seq<Event<S>>)
    ensures var b := Reached(events);
      && b.channels.Keys == ChannelsInUse(b)
      && (forall c :: c in b.channels ==> b.channels[c] != [] && NoDup(b.channels[c]))
      && (forall c, s :: c in b.channels ==>
            (s in b.channels[c] <==> s in b.subs && b.subs[s].h.open && b.subs[s].channel == c))
  {
    ReachedInv(events);
    OpenChannels(Reached(events));
  }

  /** `close_channel` removes that channel, closes its subscribers, and touches nothing else. */
  lemma CloseChannelExactly<S>(events: seq<Event<S>>, channel: string)
    ensures var b := Reached(events);
      var t := Apply(b, CloseChannel(channel));
      && t.channels == b.channels - {channel}
      && t.subs.Keys == b.subs.Keys
      && (forall s :: s in b.subs ==>
            t.subs[s] == (if b.subs[s].h.open && b.subs[s].channel == channel
                          then Close(b.subs[s], |b.log|) else b.subs[s]))
  {
    ChannelMap(events);
    var b := Reached(events);
    var list := Listed(b, channel);
    assert list[..|list|] == list;
  }

  /** What `publish` returned in total is what the subscribers accepted in total. */
  lemma DeliveryAccounting<S>(events: seq<Event<S>>)
    ensures Reached(events).delivered == Sum(Lengths(Reached(events).subs))
  {
    ReachedInv(events);
  }

  // ------------------------------------------------------------------
  // The end of a stream
  // ------------------------------------------------------------------

  /** How many more resumptions a generator needs to end once its sentinel is queued. */
  function Remaining(sub: Sub): int { if sub.finished then 0 else Pending(sub) + 1 }

  predicate Ending(sub: Sub) { !sub.h.open && sub.h.sentinels >= 1 }

  /** No step reopens the subscriber, changes what it accepted, or delays its end. */
  ghost predicate Nearer(sub: Sub, sub': Sub, steps: int) {
    && Ending(sub')
    && sub'.h.accepted == sub.h.accepted
    && Remaining(sub') <= (if Remaining(sub) - steps > 0 then Remaining(sub) - steps else 0)
  }

  lemma CloseNearer(sub: Sub, now: nat)
    requires Ending(sub)
    ensures Nearer(sub, Close(sub, now), 0)
  {}

  lemma ResumeNearer(log: seq<Message>, sub: Sub)
    requires Ending(sub) && QueueInv(log, sub)
    ensures Nearer(sub, Resume(sub), 1)
  {}

  lemma ApplyNearer<S>(b: Bus<S>, e: Event<S>, s: S)
    requires Inv(b) && s in b.subs && Ending(b.subs[s])
    ensures s in Apply(b, e).subs
    ensures Nearer(b.subs[s], Apply(b, e).subs[s], if e == Next(s) then 1 else 0)
  {
    match e
    case Subscribe(x, channel, max) =>
    case Unsubscribe(x) => CloseNearer(b.subs[s], |b.log|);
    case Publish(msg, skip) => assert s !in Listed(b, msg.channel);
    case CloseChannel(channel) => assert s !in Listed(b, channel);
    case Next(x) => ResumeNearer(b.log, b.subs[s]);
  }

  /** The generator is resumed n times. */
  function Resumptions<S>(s: S, n: nat): seq<Event<S>> {
    if n == 0 then [] else Resumptions(s, n - 1) + [Next(s)]
  }

  function Nexts<S(==)>(events: seq<Event<S>>, s: S): nat {
    if events == [] then 0
    else Nexts(events[..|events| - 1], s) + if events[|events| - 1] == Next(s) then 1 else 0
  }

  lemma {:induction false} ExecNearer<S>(b: Bus<S>, events: seq<Event<S>>, s: S)
    requires Inv(b) && s in b.subs && Ending(b.subs[s])
    ensures s in Exec(b, events).subs
    ensures Nearer(b.subs[s], Exec(b, events).subs[s], Nexts(events, s))
  {
    if events != [] {
      var before := events[..|events| - 1];
      ExecNearer(b, before, s);
      ExecInv(b, before);
      ApplyNearer(Exec(b, before), events[|events| - 1], s);
    }
  }

  /** Once a sentinel is queued, the generator ends after finitely many resumptions, whatever
      else happens in between, having yielded exactly what was accepted. */
  lemma StreamEnds<S>(b: Bus<S>, events: seq<Event<S>>, s: S)
    requires Inv(b) && s in b.subs && Ending(b.subs[s]) && Nexts(events, s) >= Remaining(b.subs[s])
    ensures var t := Exec(b, events);
      && s in t.subs && t.subs[s].finished
      && t.subs[s].h.accepted == b.subs[s].h.accepted
      && (forall i :: 0 <= i < |t.subs[s].h.accepted| ==> t.subs[s].h.accepted[i] < |t.log|)
      && t.subs[s].h.yielded == MessagesAt(t.log, t.subs[s].h.accepted)
  {
    ExecNearer(b, events, s);
    ExecInv(b, events);
    StreamOf(Exec(b, events).log, Exec(b, events).subs[s]);
    var t := Exec(b, events);
    assert QueueInv(t.log, t.subs[s]);
    assert Remaining(t.subs[s]) <= 0;
    DatasOf(t.subs[s].queue, []);
  }

  /** A generator ends only if a sentinel was accepted. */
  lemma NoSentinelNoEnd<S>(events: seq<Event<S>>, s: S)
    requires s in Reached(events).subs && Reached(events).subs[s].finished
    ensures Reached(events).subs[s].h.sentinels >= 1
  {
    ReachedInv(events);
  }

  /** A closed subscriber's generator, resumed often enough and not unsubscribed again, ends if
      and only if a sentinel was accepted. */
  lemma EndsIffSentinelAccepted<S>(events: seq<Event<S>>, s: S, n: nat)
    requires s in Reached(events).subs && !Reached(events).subs[s].h.open
    requires n > |Reached(events).subs[s].queue|
    ensures var b := Reached(events);
      var t := Exec(b, Resumptions(s, n));
      s in t.subs && (t.subs[s].finished <==> b.subs[s].h.sentinels >= 1)
  {
    ReachedInv(events);
    var b, more := Reached(events), Resumptions(s, n);
    NextsOf(s, n);
    if b.subs[s].h.sentinels >= 1 {
      StreamEnds(b, more, s);
    } else {
      OnlyNexts(b, s, n);
      ExecInv(b, more);
    }
  }

  lemma {:induction false} NextsOf<S>(s: S, n: nat)
    ensures Nexts(Resumptions(s, n), s) == n
  {
    if n != 0 {
      assert Resumptions(s, n)[..|Resumptions(s, n)| - 1] == Resumptions(s, n - 1);
      NextsOf(s, n - 1);
    }
  }

  lemma {:induction false} OnlyNexts<S>(b: Bus<S>, s: S, n: nat)
    requires s in b.subs
    ensures var t := Exec(b, Resumptions(s, n));
      s in t.subs && t.subs[s].h.sentinels == b.subs[s].h.sentinels
  {
    if n != 0 {
      assert Resumptions(s, n)[..|Resumptions(s, n)| - 1] == Resumptions(s, n - 1);
      OnlyNexts(b, s, n - 1);
    }
  }

  // ------------------------------------------------------------------
  // The lag bound
  // ------------------------------------------------------------------

  function NonNegative(x: int): nat { if x < 0 then 0 else x }

  predicate SkipsLagging<S>(e: Event<S>) { e.Publish? ==> e.skipLagging }

  /** While every publish skips lagging subscribers, an open queue stays at or below the
      threshold, and a subscriber that was closed got its sentinel. */
  ghost predicate LagInv<S>(b: Bus<S>) { forall s :: s in b.subs ==> SubLag(b.subs[s]) }

  predicate SubLag(sub: Sub) {
    if sub.h.open then |sub.queue| <= NonNegative(LagThreshold(sub.max)) else sub.h.sentinels >= 1
  }

  lemma RoomForSentinel(sub: Sub)
    requires |sub.queue| <= NonNegative(LagThreshold(sub.max))
    ensures !Full(sub)
  {}

  lemma SubLagKept(sub: Sub, msg: Message, now: nat)
    requires SubLag(sub)
    ensures SubLag(Close(sub, now)) && SubLag(Resume(sub))
    ensures Takes(sub, true) ==> SubLag(Put(sub, msg, now))
  {
    if sub.h.open { RoomForSentinel(sub); }
  }

  lemma ApplyLag<S>(b: Bus<S>, e: Event<S>)
    requires LagInv(b) && SkipsLagging(e)
    ensures LagInv(Apply(b, e))
  {
    var t := Apply(b, e);
    forall s | s in t.subs ensures SubLag(t.subs[s]) {
      if s in b.subs { SubLagKept(b.subs[s], if e.Publish? then e.msg else Message("", map[], ""), |b.log|); }
    }
  }

  lemma {:induction false} ExecLag<S>(events: seq<Event<S>>)
    requires forall i :: 0 <= i < |events| ==> SkipsLagging(events[i])
    ensures LagInv(Reached(events))
  {
    if events != [] {
      var before := events[..|events| - 1];
      ExecLag(before);
      ApplyLag(Reached(before), events[|events| - 1]);
    }
  }

  /** With the default `skip_lagging=True` throughout, the depth of a subscribed queue never
      exceeds floor(4*max/5), so the first unsubscribe always fits its sentinel. */
  lemma LagBound<S>(events: seq<Event<S>>, s: S)
    requires forall i :: 0 <= i < |events| ==> SkipsLagging(events[i])
    requires s in Reached(events).subs
    ensures var sub := Reached(events).subs[s];
      && (sub.h.open && 1 <= sub.max ==> |sub.queue| <= 4 * sub.max / 5 < sub.max)
      && (sub.h.open ==> !Full(sub))
      && (!sub.h.open ==> Ending(sub))
  {
    ExecLag(events);
    if Reached(events).subs[s].h.open { RoomForSentinel(Reached(events).subs[s]); }
  }

  /** ... so every stream closed on such a bus ends, with its whole backlog yielded. */
  lemma DefaultStreamsEnd<S>(events: seq<Event<S>>, more: seq<Event<S>>, s: S)
    requires forall i :: 0 <= i < |events| ==> SkipsLagging(events[i])
    requires s in Reached(events).subs && !Reached(events).subs[s].h.open
    requires Nexts(more, s) > |Reached(events).subs[s].queue|
    ensures var t := Exec(Reached(events), more);
      && s in t.subs && t.subs[s].finished
      && (forall i :: 0 <= i < |t.subs[s].h.accepted| ==> t.subs[s].h.accepted[i] < |t.log|)
      && t.subs[s].h.yielded == MessagesAt(t.log, t.subs[s].h.accepted)
  {
    LagBound(events, s);
    ReachedInv(events);
    StreamEnds(Reached(events), more, s);
  }

  // ------------------------------------------------------------------
  // Where closing a subscriber does not end its stream
  // ------------------------------------------------------------------

  /** The first unsubscribe delivers the sentinel exactly when the queue is not full. */
  lemma FirstUnsubscribe<S>(events: seq<Event<S>>, s: S)
    requires s in Reached(events).subs && Reached(events).subs[s].h.open
    ensures var sub := Reached(events).subs[s];
      var sub' := Apply(Reached(events), Unsubscribe(s)).subs[s];
      Ending(sub') <==> !(0 < sub.max <= |sub.queue|)
  {
    ReachedInv(events);
  }

  lemma ExecStep<S>(b: Bus<S>, events: seq<Event<S>>, e: Event<S>)
    ensures Exec(b, events + [e]) == Apply(Exec(b, events), e)
  {
    assert (events + [e])[..|events|] == events;
  }

  /** A run that reaches it: a full queue, then unsubscribe; the generator never ends. */
  lemma LostSentinel<S>(s: S, msg: Message, n: nat)
    ensures var events := [Subscribe(s, msg.channel, 1), Publish(msg, false), Unsubscribe(s)];
      var b := Reached(events);
      && s in b.subs && !b.subs[s].h.open && b.channels == map[]
      && (n > 1 ==> s in Exec(b, Resumptions(s, n)).subs && !Exec(b, Resumptions(s, n)).subs[s].finished)
  {
    var e1, e2, e3 := Subscribe(s, msg.channel, 1), Publish(msg, false), Unsubscribe(s);
    var events := [e1, e2, e3];
    var b1 := Apply(Empty(), e1);
    var b2 := Apply(b1, e2);
    var b3 := Apply(b2, e3);
    ExecStep(Empty(), [], e1);
    ExecStep(Empty(), [e1], e2);
    ExecStep(Empty(), [e1, e2], e3);
    assert [] + [e1] == [e1] && [e1] + [e2] == [e1, e2] && [e1, e2] + [e3] == events;
    assert Reached(events) == b3;
    assert b1.channels == map[msg.channel := [s]];
    assert b2.subs[s].queue == [Data(msg)];
    assert b3.channels == map[] && b3.subs[s].h.sentinels == 0;
    if n > 1 { EndsIffSentinelAccepted(events, s, n); }
  }

  /** The documented test, more than 80% full, against the one the program makes: they differ
      exactly on the depths from floor(80%) up to 80%. */
  lemma LaggingVersusDocumented(sub: Sub)
    requires 0 <= sub.max
    ensures IsLagging(sub) != (5 * |sub.queue| > 4 * sub.max)
            <==> 4 * sub.max - 5 < 5 * |sub.queue| <= 4 * sub.max
  {}

  /** A run: a subscriber with a queue of one place lags while it is empty, and a publish skips it. */
  lemma LagsWhileEmpty<S>(s: S, msg: Message) returns (events: seq<Event<S>>)
    ensures events == [Subscribe(s, msg.channel, 1)]
    ensures var b := Reached(events);
      && s in b.subs && IsLagging(b.subs[s]) && b.subs[s].queue == []
      && s in Listed(b, msg.channel) && ListsKnown(b)
      && Apply(b, Publish(msg, true)).subs[s].h.accepted == [] && Apply(b, Publish(msg, true)).delivered == 0
  {
    events := [] + [Subscribe(s, msg.channel, 1)];
    ExecStep(Empty(), [], Subscribe(s, msg.channel, 1));
    assert Exec<S>(Empty(), []) == Empty();
    var b := DoSubscribe(Empty(), s, msg.channel, 1);
    assert Reached(events) == b;
    assert Listed(b, msg.channel) == [s] && [s][..0] == [];
    assert Takers(b.subs, [s], true) == Takers(b.subs, [s][..0], true);
  }
}
