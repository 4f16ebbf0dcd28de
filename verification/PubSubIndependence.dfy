/** Subscribers do not disturb each other: what everybody else sees of a bus is what they would see
    had a subscriber never been there. */
module PubSubIndependence {
  import opened PubSubModel
  import opened PubSubRuns

  /** The bus without a subscriber. */
  function Erase<S>(b: Bus<S>, s: S): Bus<S> {
    Bus(map c | c in b.channels && Remove(b.channels[c], s) != [] :: Remove(b.channels[c], s),
        b.subs - {s}, b.log, 0)
  }

  /** Alike but for the number of deliveries. */
  ghost predicate Alike<S>(a: Bus<S>, b: Bus<S>) { a.channels == b.channels && a.subs == b.subs && a.log == b.log }

  predicate Own<S(==)>(e: Event<S>, s: S) { (e.Subscribe? || e.Unsubscribe? || e.Next?) && e.s == s }

  /** The events that are not the subscriber's own. */
  function Without<S(==)>(events: seq<Event<S>>, s: S): seq<Event<S>> {
    if events == [] then []
    else
      var last := events[|events| - 1];
      Without(events[..|events| - 1], s) + if Own(last, s) then [] else [last]
  }

  lemma {:induction false} RemoveAppend<S>(list: seq<S>, x: S, s: S)
    requires x != s
    ensures Remove(list + [x], s) == Remove(list, s) + [x]
  {
    if list == [] {
    } else {
      assert (list + [x])[1..] == list[1..] + [x];
      RemoveAppend(list[1..], x, s);
    }
  }

  lemma {:induction false} RemoveAbsent<S>(list: seq<S>, s: S)
    requires s !in list
    ensures Remove(list, s) == list
  {
    if list != [] {
      RemoveAbsent(list[1..], s);
    }
  }

  lemma {:induction false} RemoveLast<S>(list: seq<S>, s: S)
    requires s !in list
    ensures Remove(list + [s], s) == list
  {
    if list != [] {
      assert (list + [s])[1..] == list[1..] + [s];
      RemoveLast(list[1..], s);
    }
  }

  lemma {:induction false} RemoveSwap<S>(list: seq<S>, x: S, s: S)
    ensures Remove(Remove(list, x), s) == Remove(Remove(list, s), x)
  {
    if list != [] && list[0] != x && list[0] != s {
      RemoveSwap(list[1..], x, s);
      assert ([list[0]] + Remove(list[1..], x))[1..] == Remove(list[1..], x);
      assert ([list[0]] + Remove(list[1..], s))[1..] == Remove(list[1..], s);
    } else if list != [] && x != s {
      RemoveHead(list, x, s);
    }
  }

  lemma RemoveHead<S>(list: seq<S>, x: S, s: S)
    requires list != [] && x != s && (list[0] == x || list[0] == s)
    ensures Remove(Remove(list, x), s) == Remove(Remove(list, s), x)
  {
    assert ([list[0]] + Remove(list[1..], s))[1..] == Remove(list[1..], s);
    assert ([list[0]] + Remove(list[1..], x))[1..] == Remove(list[1..], x);
  }

  lemma ErasedList<S>(b: Bus<S>, s: S, channel: string)
    ensures Listed(Erase(b, s), channel) == Remove(Listed(b, channel), s)
  {}

  // ------------------------------------------------------------------
  // The subscriber's own events
  // ------------------------------------------------------------------

  lemma OwnSubscribe<S>(b: Bus<S>, s: S, channel: string, max: int)
    requires MapInv(b) && s !in b.subs
    ensures Alike(Erase(DoSubscribe(b, s, channel, max), s), Erase(b, s))
  {
    assert s !in Listed(b, channel);
    RemoveLast(Listed(b, channel), s);
    RemoveAbsent(Listed(b, channel), s);
  }

  lemma OwnUnsubscribe<S>(b: Bus<S>, s: S)
    requires MapInv(b) && s in b.subs
    ensures Alike(Erase(DoUnsubscribe(b, s), s), Erase(b, s))
  {
    var list := Listed(b, b.subs[s].channel);
    RemoveIs(list, s, Remove(list, s));
    RemoveAbsent(Remove(list, s), s);
  }

  // ------------------------------------------------------------------
  // Everybody else's
  // ------------------------------------------------------------------

  lemma OtherSubscribe<S>(b: Bus<S>, s: S, x: S, channel: string, max: int)
    requires x != s && x !in b.subs
    ensures Alike(Erase(DoSubscribe(b, x, channel, max), s), DoSubscribe(Erase(b, s), x, channel, max))
  {
    RemoveAppend(Listed(b, channel), x, s);
    ErasedList(b, s, channel);
  }

  lemma OtherUnsubscribe<S>(b: Bus<S>, s: S, x: S)
    requires x != s && x in b.subs
    ensures Alike(Erase(DoUnsubscribe(b, x), s), DoUnsubscribe(Erase(b, s), x))
  {
    RemoveSwap(Listed(b, b.subs[x].channel), x, s);
    ErasedList(b, s, b.subs[x].channel);
  }

  lemma ErasedMembers<S>(b: Bus<S>, s: S, channel: string, list: seq<S>)
    requires MapInv(b) && list == Listed(Erase(b, s), channel)
    ensures forall x :: x in list ==> x in Listed(b, channel) && x != s && x in b.subs
    ensures forall x :: x in Listed(b, channel) && x != s ==> x in list
  {
    ErasedList(b, s, channel);
    RemoveIs(Listed(b, channel), s, list);
  }

  lemma ErasedKnown<S>(b: Bus<S>, s: S)
    requires MapInv(b)
    ensures ListsKnown(Erase(b, s))
  {
    forall c, x | c in Erase(b, s).channels && x in Erase(b, s).channels[c] ensures x in Erase(b, s).subs {
      ErasedMembers(b, s, c, Erase(b, s).channels[c]);
    }
  }

  lemma OtherPublish<S>(b: Bus<S>, s: S, msg: Message, skip: bool)
    requires MapInv(b)
    ensures ListsKnown(b) && ListsKnown(Erase(b, s))
    ensures Alike(Erase(DoPublish(b, msg, skip), s), DoPublish(Erase(b, s), msg, skip))
  {
    ErasedKnown(b, s);
    assert ListsKnown(b);
    ErasedMembers(b, s, msg.channel, Listed(Erase(b, s), msg.channel));
  }

  lemma ErasedChannels<S>(b: Bus<S>, t: Bus<S>, s: S, channel: string)
    requires t.channels == b.channels - {channel}
    ensures Erase(t, s).channels == Erase(b, s).channels - {channel}
  {}

  lemma OtherClose<S>(b: Bus<S>, s: S, channel: string)
    requires MapInv(b)
    ensures Alike(Erase(DoCloseChannel(b, channel), s), DoCloseChannel(Erase(b, s), channel))
  {
    var list, rest := Listed(b, channel), Listed(Erase(b, s), channel);
    ErasedMembers(b, s, channel, rest);
    assert list[..|list|] == list && rest[..|rest|] == rest;
    ErasedChannels(b, DoCloseChannel(b, channel), s, channel);
  }

  lemma OtherNext<S>(b: Bus<S>, s: S, x: S)
    requires x != s && x in b.subs
    ensures Alike(Erase(DoNext(b, x), s), DoNext(Erase(b, s), x))
  {}

  lemma ApplyErased<S>(b: Bus<S>, e: Event<S>, s: S)
    requires MapInv(b)
    ensures Alike(Erase(Apply(b, e), s), if Own(e, s) then Erase(b, s) else Apply(Erase(b, s), e))
  {
    match e
    case Subscribe(x, channel, max) =>
      if x !in b.subs {
        if x == s { OwnSubscribe(b, s, channel, max); } else { OtherSubscribe(b, s, x, channel, max); }
      }
    case Unsubscribe(x) =>
      if x in b.subs {
        if x == s { OwnUnsubscribe(b, s); } else { OtherUnsubscribe(b, s, x); }
      }
    case Publish(msg, skip) => OtherPublish(b, s, msg, skip);
    case CloseChannel(channel) => OtherClose(b, s, channel);
    case Next(x) => if x in b.subs && x != s { OtherNext(b, s, x); }
  }

  lemma ApplyAlike<S>(a: Bus<S>, b: Bus<S>, e: Event<S>)
    requires Alike(a, b)
    ensures Alike(Apply(a, e), Apply(b, e))
  {}

  lemma {:induction false} ExecAlike<S>(a: Bus<S>, b: Bus<S>, events: seq<Event<S>>)
    requires Alike(a, b)
    ensures Alike(Exec(a, events), Exec(b, events))
  {
    if events != [] {
      var before := events[..|events| - 1];
      ExecAlike(a, b, before);
      ApplyAlike(Exec(a, before), Exec(b, before), events[|events| - 1]);
    }
  }

  lemma ErasedStep<S>(b: Bus<S>, e: Event<S>, s: S, w: Bus<S>)
    requires MapInv(b) && Alike(Erase(b, s), w)
    ensures Alike(Erase(Apply(b, e), s), if Own(e, s) then w else Apply(w, e))
  {
    ApplyErased(b, e, s);
    ApplyAlike(Erase(b, s), w, e);
  }

  lemma WithoutStep<S>(b: Bus<S>, before: seq<Event<S>>, e: Event<S>, events: seq<Event<S>>, s: S)
    requires events == before + [e]
    ensures Exec(b, Without(events, s))
            == if Own(e, s) then Exec(b, Without(before, s)) else Apply(Exec(b, Without(before, s)), e)
  {
    assert events[..|before|] == before;
    if Own(e, s) {
      assert Without(before, s) + [] == Without(before, s);
    } else {
      ExecStep(b, Without(before, s), e);
    }
  }

  /** Erasing a subscriber from the outcome is the same as leaving its events out. */
  lemma {:induction false} ExecErased<S>(b: Bus<S>, events: seq<Event<S>>, s: S)
    requires Inv(b)
    ensures Alike(Erase(Exec(b, events), s), Exec(Erase(b, s), Without(events, s)))
  {
    if events != [] {
      var before, last := events[..|events| - 1], events[|events| - 1];
      assert events == before + [last];
      ExecErased(b, before, s);
      ExecInv(b, before);
      ErasedStep(Exec(b, before), last, s, Exec(Erase(b, s), Without(before, s)));
      WithoutStep(Erase(b, s), before, last, events, s);
    }
  }

  /** What others see of a bus does not depend on this subscriber at all. */
  lemma Independence<S>(events: seq<Event<S>>, s: S)
    ensures Alike(Erase(Reached(events), s), Reached(Without(events, s)))
  {
    ReachedInv<S>([]);
    assert Reached<S>([]) == Empty();
    ExecErased(Empty(), events, s);
    ExecAlike(Erase(Empty(), s), Empty(), Without(events, s));
  }

  lemma NeverThere<S>(b: Bus<S>, s: S)
    requires MapInv(b) && s !in b.subs
    ensures Alike(Erase(b, s), b)
  {
    forall c | c in b.channels ensures Remove(b.channels[c], s) == b.channels[c] {
      assert s !in b.channels[c];
      RemoveAbsent(b.channels[c], s);
    }
  }

  /** A subscriber that comes and goes leaves no trace: the rest of the bus is as if only the
      others' events had happened. */
  lemma LeavesNoTrace<S>(b: Bus<S>, events: seq<Event<S>>, s: S)
    requires Inv(b) && s !in b.subs
    ensures Alike(Erase(Exec(b, events), s), Exec(b, Without(events, s)))
  {
    ExecErased(b, events, s);
    NeverThere(b, s);
    ExecAlike(Erase(b, s), b, Without(events, s));
  }

  /** Once it has unsubscribed it is not listed: the channel map is the others'. */
  lemma ClosedIsUnlisted<S>(b: Bus<S>, s: S)
    requires MapInv(b) && s in b.subs && !b.subs[s].h.open
    ensures Erase(b, s).channels == b.channels
  {
    forall c | c in b.channels ensures Remove(b.channels[c], s) == b.channels[c] {
      assert s !in b.channels[c];
      RemoveAbsent(b.channels[c], s);
    }
  }
}
