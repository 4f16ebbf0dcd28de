/** The in-memory message bus as a state machine.

    `subscribe`, `unsubscribe`, `publish` and `close_channel` never suspend, so each call is one
    step; a generator made by `messages` takes one step from one suspension to the next.  `S` names
    subscribers.  An event that is not enabled leaves the state as it is. */
module PubSubModel {
  import opened MapSums

  type Payload = map<string, string>

  datatype Message = Message(channel: string, payload: Payload, publisherId: string)

  /** What a subscriber's queue holds; `Sentinel` is the None that ends its generator. */
  datatype Item = Data(msg: Message) | Sentinel

  /** History of a subscriber: `accepted` are positions in the publish log. */
  datatype Past = Past(
    open: bool,             // not unsubscribed yet
    from: nat, till: nat,   // length of the log when it subscribed, and when it first unsubscribed
    accepted: seq<nat>, yielded: seq<Message>, sentinels: nat)

  datatype Sub = Sub(channel: string, max: int, queue: seq<Item>, finished: bool, h: Past)

  datatype Bus<S(==)> = Bus(
    channels: map<string, seq<S>>, subs: map<S, Sub>,
    log: seq<Message>,      // history: every publish
    delivered: nat)         // history: the sum of what `publish` returned

  datatype Event<S> =
    | Subscribe(s: S, channel: string, max: int)
    | Unsubscribe(s: S)
    | Publish(msg: Message, skipLagging: bool)
    | CloseChannel(channel: string)
    | Next(s: S)            // the consumer resumes its generator

  function Empty<S>(): Bus<S> { Bus(map[], map[], [], 0) }

  // ------------------------------------------------------------------
  // One subscriber
  // ------------------------------------------------------------------

  /** `int(max_queue_size * 0.8)`: truncation towards zero. */
  function LagThreshold(max: int): int {
    if max >= 0 then 4 * max / 5 else -(4 * -max / 5)
  }

  predicate IsLagging(sub: Sub) { |sub.queue| >= LagThreshold(sub.max) }

  /** `asyncio.Queue.full`: a non-positive maxsize means unbounded. */
  predicate Full(sub: Sub) { 0 < sub.max <= |sub.queue| }

  predicate Takes(sub: Sub, skipLagging: bool) { !(skipLagging && IsLagging(sub)) && !Full(sub) }

  function NewSub(channel: string, max: int, now: nat): Sub {
    Sub(channel, max, [], false, Past(true, now, now, [], [], 0))
  }

  function Put(sub: Sub, msg: Message, at: nat): Sub {
    sub.(queue := sub.queue + [Data(msg)], h := sub.h.(accepted := sub.h.accepted + [at]))
  }

  function Mark(sub: Sub, now: nat): Sub {
    sub.(h := sub.h.(open := false, till := if sub.h.open then now else sub.h.till))
  }

  function PutSentinel(sub: Sub): Sub {
    sub.(queue := sub.queue + [Sentinel], h := sub.h.(sentinels := sub.h.sentinels + 1))
  }

  /** What `unsubscribe` does to the subscriber: the sentinel is lost if the queue is full. */
  function Close(sub: Sub, now: nat): Sub {
    if Full(sub) then Mark(sub, now) else PutSentinel(Mark(sub, now))
  }

  function Resume(sub: Sub): Sub {
    if sub.finished || sub.queue == [] then sub
    else match sub.queue[0]
      case Sentinel => sub.(queue := sub.queue[1..], finished := true)
      case Data(m) => sub.(queue := sub.queue[1..], h := sub.h.(yielded := sub.h.yielded + [m]))
  }

  // ------------------------------------------------------------------
  // The bus
  // ------------------------------------------------------------------

  function Listed<S>(b: Bus<S>, channel: string): seq<S> {
    if channel in b.channels then b.channels[channel] else []
  }

  /** `list.remove`, with ValueError suppressed. */
  function Remove<S(==)>(list: seq<S>, s: S): seq<S> {
    if list == [] then [] else if list[0] == s then list[1..] else [list[0]] + Remove(list[1..], s)
  }

  function Delist<S(==)>(channels: map<string, seq<S>>, channel: string, s: S): map<string, seq<S>> {
    if channel !in channels then channels
    else
      var rest := Remove(channels[channel], s);
      if rest == [] then channels - {channel} else channels[channel := rest]
  }

  function Deliver<S>(subs: map<S, Sub>, list: seq<S>, msg: Message, at: nat, skip: bool): map<S, Sub> {
    map s | s in subs :: if s in list && Takes(subs[s], skip) then Put(subs[s], msg, at) else subs[s]
  }

  /** The number of listed subscribers that take the message: what `publish` returns. */
  function Takers<S>(subs: map<S, Sub>, list: seq<S>, skip: bool): nat
    requires forall s :: s in list ==> s in subs
  {
    if list == [] then 0
    else Takers(subs, list[..|list| - 1], skip) + if Takes(subs[list[|list| - 1]], skip) then 1 else 0
  }

  function DoSubscribe<S>(b: Bus<S>, s: S, channel: string, max: int): Bus<S> {
    b.(channels := b.channels[channel := Listed(b, channel) + [s]],
       subs := b.subs[s := NewSub(channel, max, |b.log|)])
  }

  function DoUnsubscribe<S>(b: Bus<S>, s: S): Bus<S>
    requires s in b.subs
  {
    b.(channels := Delist(b.channels, b.subs[s].channel, s),
       subs := b.subs[s := Close(b.subs[s], |b.log|)])
  }

  function DoPublish<S>(b: Bus<S>, msg: Message, skip: bool): Bus<S>
    requires forall s :: s in Listed(b, msg.channel) ==> s in b.subs
  {
    var list := Listed(b, msg.channel);
    b.(subs := Deliver(b.subs, list, msg, |b.log|, skip),
       log := b.log + [msg],
       delivered := b.delivered + Takers(b.subs, list, skip))
  }

  /** The first k subscribers of the channel are closed and no longer listed. */
  function CloseFirst<S>(b: Bus<S>, channel: string, k: nat): Bus<S>
    requires k <= |Listed(b, channel)|
  {
    var list := Listed(b, channel);
    b.(channels := if k == |list| then b.channels - {channel} else b.channels[channel := list[k..]],
       subs := map s | s in b.subs :: if s in list[..k] then Close(b.subs[s], |b.log|) else b.subs[s])
  }

  function DoCloseChannel<S>(b: Bus<S>, channel: string): Bus<S> {
    CloseFirst(b, channel, |Listed(b, channel)|)
  }

  function DoNext<S>(b: Bus<S>, s: S): Bus<S>
    requires s in b.subs
  {
    b.(subs := b.subs[s := Resume(b.subs[s])])
  }

  predicate ListsKnown<S>(b: Bus<S>) {
    forall c :: c in b.channels ==> forall s :: s in b.channels[c] ==> s in b.subs
  }

  function Apply<S>(b: Bus<S>, e: Event<S>): Bus<S> {
    match e
    case Subscribe(s, channel, max) => if s in b.subs then b else DoSubscribe(b, s, channel, max)
    case Unsubscribe(s) => if s in b.subs then DoUnsubscribe(b, s) else b
    case Publish(msg, skip) => if ListsKnown(b) then DoPublish(b, msg, skip) else b
    case CloseChannel(channel) => DoCloseChannel(b, channel)
    case Next(s) => if s in b.subs then DoNext(b, s) else b
  }

  function Exec<S>(b: Bus<S>, events: seq<Event<S>>): Bus<S> {
    if events == [] then b else Apply(Exec(b, events[..|events| - 1]), events[|events| - 1])
  }

  // ------------------------------------------------------------------
  // The invariant
  // ------------------------------------------------------------------

  ghost predicate NoDup<S>(list: seq<S>) { forall i, j :: 0 <= i < j < |list| ==> list[i] != list[j] }

  /** No key holds an empty list; a subscriber is listed once, under its own channel, while it is open. */
  ghost predicate MapInv<S>(b: Bus<S>) {
    && (forall c :: c in b.channels ==>
          && b.channels[c] != [] && NoDup(b.channels[c])
          && forall s :: s in b.channels[c] ==> s in b.subs && b.subs[s].h.open && b.subs[s].channel == c)
    && (forall s :: s in b.subs && b.subs[s].h.open ==> s in Listed(b, b.subs[s].channel))
  }

  /** Messages accepted but not yielded. */
  function Pending(sub: Sub): int { |sub.h.accepted| - |sub.h.yielded| }

  ghost predicate QueueInv(log: seq<Message>, sub: Sub) {
    var h := sub.h;
    && 0 <= Pending(sub) <= |sub.queue|
    && (forall i :: 0 <= i < |h.accepted| ==> h.accepted[i] < |log|)
    && (forall i :: 0 <= i < |h.yielded| ==> h.yielded[i] == log[h.accepted[i]])
    && (forall i :: 0 <= i < Pending(sub) ==> sub.queue[i] == Data(log[h.accepted[|h.yielded| + i]]))
    && (forall i :: Pending(sub) <= i < |sub.queue| ==> sub.queue[i] == Sentinel)
    && |sub.queue| - Pending(sub) + (if sub.finished then 1 else 0) == h.sentinels
    && (sub.finished ==> Pending(sub) == 0)
    && (h.open ==> h.sentinels == 0)
    && (0 < sub.max ==> |sub.queue| <= sub.max)
  }

  /** The accepted messages are publishes on the channel made while subscribed, in publish order. */
  ghost predicate WindowInv(log: seq<Message>, sub: Sub) {
    var h := sub.h;
    && (forall i, j :: 0 <= i < j < |h.accepted| ==> h.accepted[i] < h.accepted[j])
    && h.from <= |log| && h.till <= |log|
    && (forall i :: 0 <= i < |h.accepted| ==>
          && h.from <= h.accepted[i] < (if h.open then |log| else h.till)
          && log[h.accepted[i]].channel == sub.channel)
  }

  ghost predicate SubInv(log: seq<Message>, sub: Sub) { QueueInv(log, sub) && WindowInv(log, sub) }

  function Lengths<S>(subs: map<S, Sub>): map<S, nat> { map s | s in subs :: |subs[s].h.accepted| }

  ghost predicate SubsInv<S>(b: Bus<S>) {
    && (forall s :: s in b.subs ==> SubInv(b.log, b.subs[s]))
    && b.delivered == Sum(Lengths(b.subs))
  }

  ghost predicate Inv<S>(b: Bus<S>) { MapInv(b) && SubsInv(b) }

  lemma PutInv(log: seq<Message>, sub: Sub, msg: Message)
    requires SubInv(log, sub) && sub.h.open && !Full(sub) && msg.channel == sub.channel
    ensures SubInv(log + [msg], Put(sub, msg, |log|))
  {}

  lemma LogGrowsInv(log: seq<Message>, sub: Sub, msg: Message)
    requires SubInv(log, sub)
    ensures SubInv(log + [msg], sub)
  {}

  lemma MarkInv(log: seq<Message>, sub: Sub)
    requires SubInv(log, sub)
    ensures SubInv(log, Mark(sub, |log|))
  {}

  lemma PutSentinelInv(log: seq<Message>, sub: Sub)
    requires SubInv(log, sub) && !sub.h.open && !Full(sub)
    ensures SubInv(log, PutSentinel(sub))
  {}

  lemma CloseInv(log: seq<Message>, sub: Sub)
    requires SubInv(log, sub)
    ensures SubInv(log, Close(sub, |log|))
  {
    MarkInv(log, sub);
    if !Full(sub) { PutSentinelInv(log, Mark(sub, |log|)); }
  }

  lemma ResumeInv(log: seq<Message>, sub: Sub)
    requires SubInv(log, sub)
    ensures SubInv(log, Resume(sub))
  {
    if !sub.finished && sub.queue != [] {
      var t := Resume(sub);
      assert forall i :: 0 <= i < |t.queue| ==> t.queue[i] == sub.queue[i + 1];
    }
  }

  lemma {:induction false} RemoveIs<S>(list: seq<S>, s: S, rest: seq<S>)
    requires NoDup(list) && rest == Remove(list, s)
    ensures NoDup(rest)
    ensures forall x :: x in rest ==> x in list && x != s
    ensures forall x :: x in list && x != s ==> x in rest
  {
    if list == [] {
    } else {
      assert forall x :: x in list <==> x == list[0] || x in list[1..];
      assert list[0] !in list[1..];
      if list[0] != s { RemoveIs(list[1..], s, rest[1..]); }
    }
  }

  lemma SubscribeMap<S>(b: Bus<S>, s: S, channel: string, max: int)
    requires MapInv(b) && s !in b.subs
    ensures MapInv(DoSubscribe(b, s, channel, max))
  {
    assert s !in Listed(b, channel);
  }

  lemma LengthsPut<S>(subs: map<S, Sub>, s: S, sub: Sub)
    ensures Sum(Lengths(subs[s := sub]))
            == Sum(Lengths(subs)) + |sub.h.accepted| - if s in subs then |subs[s].h.accepted| else 0
  {
    SumUpdate(Lengths(subs), s, |sub.h.accepted|);
    assert Lengths(subs[s := sub]) == Lengths(subs)[s := |sub.h.accepted|];
  }

  /** Changing or adding one subscriber. */
  lemma OneSub<S>(b: Bus<S>, t: Bus<S>, s: S, sub: Sub)
    requires SubsInv(b) && SubInv(b.log, sub)
    requires t.subs == b.subs[s := sub] && t.log == b.log && t.delivered == b.delivered
    requires if s in b.subs then sub.h.accepted == b.subs[s].h.accepted else sub.h.accepted == []
    ensures SubsInv(t)
  {
    forall x | x in t.subs ensures SubInv(t.log, t.subs[x]) {
      assert x == s || t.subs[x] == b.subs[x];
    }
    LengthsPut(b.subs, s, sub);
  }

  lemma SubscribeInv<S>(b: Bus<S>, s: S, channel: string, max: int)
    requires Inv(b) && s !in b.subs
    ensures Inv(DoSubscribe(b, s, channel, max))
  {
    SubscribeMap(b, s, channel, max);
    OneSub(b, DoSubscribe(b, s, channel, max), s, NewSub(channel, max, |b.log|));
  }

  lemma DelistInv<S>(b: Bus<S>, s: S)
    requires MapInv(b) && s in b.subs
    ensures MapInv(DoUnsubscribe(b, s))
  {
    var c, t := b.subs[s].channel, DoUnsubscribe(b, s);
    if c in b.channels {
      var rest := Remove(b.channels[c], s);
      RemoveIs(b.channels[c], s, rest);
    }
  }

  lemma UnsubscribeInv<S>(b: Bus<S>, s: S)
    requires Inv(b) && s in b.subs
    ensures Inv(DoUnsubscribe(b, s))
  {
    DelistInv(b, s);
    CloseInv(b.log, b.subs[s]);
    OneSub(b, DoUnsubscribe(b, s), s, Close(b.subs[s], |b.log|));
  }

  lemma NextMap<S>(b: Bus<S>, s: S)
    requires MapInv(b) && s in b.subs
    ensures MapInv(DoNext(b, s))
  {
    var t := DoNext(b, s);
    assert forall x :: x in b.subs ==> t.subs[x].h.open == b.subs[x].h.open && t.subs[x].channel == b.subs[x].channel;
  }

  lemma NextInv<S>(b: Bus<S>, s: S)
    requires Inv(b) && s in b.subs
    ensures Inv(DoNext(b, s))
  {
    NextMap(b, s);
    ResumeInv(b.log, b.subs[s]);
    OneSub(b, DoNext(b, s), s, Resume(b.subs[s]));
  }

  /** Each taker adds one accepted message. */
  lemma {:induction false} TakersCounted<S>(subs: map<S, Sub>, list: seq<S>, msg: Message, at: nat, skip: bool)
    requires NoDup(list) && forall s :: s in list ==> s in subs
    ensures Sum(Lengths(Deliver(subs, list, msg, at, skip))) == Sum(Lengths(subs)) + Takers(subs, list, skip)
  {
    var done := Deliver(subs, list, msg, at, skip);
    if list == [] {
      assert done == subs;
    } else {
      var init, last := list[..|list| - 1], list[|list| - 1];
      var before := Deliver(subs, init, msg, at, skip);
      TakersCounted(subs, init, msg, at, skip);
      DeliverOneMore(subs, list, msg, at, skip);
      if Takes(subs[last], skip) { LengthsPut(before, last, Put(subs[last], msg, at)); }
    }
  }

  lemma DeliverOneMore<S>(subs: map<S, Sub>, list: seq<S>, msg: Message, at: nat, skip: bool)
    requires list != [] && NoDup(list) && forall s :: s in list ==> s in subs
    ensures var before := Deliver(subs, list[..|list| - 1], msg, at, skip);
      var last := list[|list| - 1];
      && before[last] == subs[last]
      && Deliver(subs, list, msg, at, skip)
         == if Takes(subs[last], skip) then before[last := Put(subs[last], msg, at)] else before
  {
    assert list == list[..|list| - 1] + [list[|list| - 1]];
  }

  lemma PublishSubs<S>(b: Bus<S>, msg: Message, skip: bool, s: S)
    requires MapInv(b) && s in b.subs && SubInv(b.log, b.subs[s])
    ensures SubInv(b.log + [msg], Deliver(b.subs, Listed(b, msg.channel), msg, |b.log|, skip)[s])
  {
    if s in Listed(b, msg.channel) && Takes(b.subs[s], skip) {
      PutInv(b.log, b.subs[s], msg);
    } else {
      LogGrowsInv(b.log, b.subs[s], msg);
    }
  }

  lemma PublishMap<S>(b: Bus<S>, msg: Message, skip: bool)
    requires MapInv(b)
    ensures ListsKnown(b) && MapInv(DoPublish(b, msg, skip))
  {
    assert ListsKnown(b);
    var t := DoPublish(b, msg, skip);
    assert forall s :: s in b.subs ==> t.subs[s].h.open == b.subs[s].h.open && t.subs[s].channel == b.subs[s].channel;
  }

  lemma PublishInv<S>(b: Bus<S>, msg: Message, skip: bool)
    requires Inv(b)
    ensures ListsKnown(b) && Inv(DoPublish(b, msg, skip))
  {
    PublishMap(b, msg, skip);
    TakersCounted(b.subs, Listed(b, msg.channel), msg, |b.log|, skip);
    var t := DoPublish(b, msg, skip);
    forall s | s in b.subs ensures SubInv(t.log, t.subs[s]) { PublishSubs(b, msg, skip, s); }
  }

  /** The loop of `close_channel`: unsubscribing the next subscriber of the snapshot. */
  lemma CloseOneMore<S>(b: Bus<S>, channel: string, k: nat)
    requires MapInv(b) && k < |Listed(b, channel)|
    ensures var s := Listed(b, channel)[k];
      var t := CloseFirst(b, channel, k);
      s in t.subs && CloseFirst(b, channel, k + 1) == DoUnsubscribe(t, s)
  {
    var list := Listed(b, channel);
    var s, t, u := list[k], CloseFirst(b, channel, k), CloseFirst(b, channel, k + 1);
    assert list[..k + 1] == list[..k] + [s];
    assert u.subs == t.subs[s := Close(t.subs[s], |b.log|)];
    assert Remove(list[k..], s) == list[k + 1..];
    assert u.channels == Delist(t.channels, channel, s);
  }

  lemma CloseNone<S>(b: Bus<S>, channel: string)
    requires MapInv(b)
    ensures CloseFirst(b, channel, 0) == b
  {
    assert b.channels - {channel} == b.channels || channel in b.channels;
    assert channel in b.channels ==> b.channels[channel := Listed(b, channel)[0..]] == b.channels;
  }

  lemma {:induction false} CloseFirstInv<S>(b: Bus<S>, channel: string, k: nat)
    requires Inv(b) && k <= |Listed(b, channel)|
    ensures Inv(CloseFirst(b, channel, k))
  {
    if k == 0 {
      CloseNone(b, channel);
    } else {
      CloseFirstInv(b, channel, k - 1);
      CloseOneMore(b, channel, k - 1);
      UnsubscribeInv(CloseFirst(b, channel, k - 1), Listed(b, channel)[k - 1]);
    }
  }

  lemma ApplyInv<S>(b: Bus<S>, e: Event<S>)
    requires Inv(b)
    ensures Inv(Apply(b, e))
  {
    match e
    case Subscribe(s, channel, max) => if s !in b.subs { SubscribeInv(b, s, channel, max); }
    case Unsubscribe(s) => if s in b.subs { UnsubscribeInv(b, s); }
    case Publish(msg, skip) => PublishInv(b, msg, skip);
    case CloseChannel(channel) => CloseFirstInv(b, channel, |Listed(b, channel)|);
    case Next(s) => if s in b.subs { NextInv(b, s); }
  }

  lemma {:induction false} ExecInv<S>(b: Bus<S>, events: seq<Event<S>>)
    requires Inv(b)
    ensures Inv(Exec(b, events))
  {
    if events != [] {
      ExecInv(b, events[..|events| - 1]);
      ApplyInv(Exec(b, events[..|events| - 1]), events[|events| - 1]);
    }
  }

  /** Every state of a bus. */
  function Reached<S>(events: seq<Event<S>>): Bus<S> { Exec(Empty(), events) }

  lemma ReachedInv<S>(events: seq<Event<S>>)
    ensures Inv(Reached(events))
  {
    assert Lengths<S>(map[]) == map[];
    ExecInv(Empty(), events);
  }
}
