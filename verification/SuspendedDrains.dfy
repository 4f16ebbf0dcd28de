/** `drain` with everything that may happen while it is suspended in its sends. */
module SuspendedDrains {
  import opened SendQueueModel
  import opened DeliveryOrder
  import opened Drains

  /** One send of a drain: what senders and other drains do while it is suspended, and how it ends. */
  datatype Suspension<T> = Suspension(others: seq<Event<T>>, outcome: Outcome)

  /** The event would end the send of `m` that is ours. */
  predicate EndsOurs<T>(s: State<T>, m: T, e: Event<T>) { e.Finish? && e.msg == m && s.q.sending[m] <= 1 }

  function OneOther<T>(s: State<T>, m: T, e: Event<T>): State<T> { if EndsOurs(s, m, e) then s else Apply(s, e) }

  function Others<T>(s: State<T>, m: T, events: seq<Event<T>>): State<T> {
    if events == [] then s else OneOther(Others(s, m, events[..|events| - 1]), m, events[|events| - 1])
  }

  function AfterSend<T>(s: State<T>, m: T, d: Suspension<T>): State<T> {
    Apply(Others(Apply(s, Pop), m, d.others), Finish(m, d.outcome))
  }

  /** The state after a drain that has completed `k` sends goes on, and how many it completes in all. */
  function GoesOn<T>(s: State<T>, batch: nat, during: nat -> Suspension<T>, k: nat): (State<T>, nat)
    decreases batch - k
  {
    if k >= batch || s.q.items == [] then (s, k)
    else
      var t := AfterSend(s, s.q.items[0], during(k));
      if during(k).outcome == Delivered then GoesOn(t, batch, during, k + 1) else (t, k)
  }

  lemma {:induction false} OthersKeepOurs<T>(s: State<T>, m: T, events: seq<Event<T>>)
    requires m in s.q.sending
    ensures m in Others(s, m, events).q.sending
  {
    if events != [] {
      OthersKeepOurs(s, m, events[..|events| - 1]);
      OneOtherKeepsOurs(Others(s, m, events[..|events| - 1]), m, events[|events| - 1]);
    }
  }

  lemma OneOtherKeepsOurs<T>(s: State<T>, m: T, e: Event<T>)
    requires m in s.q.sending
    ensures m in OneOther(s, m, e).q.sending
  {}

  // ------------------------------------------------------------------
  // A drain is a run of the machine
  // ------------------------------------------------------------------

  /** Nobody else drains meanwhile. */
  ghost predicate NoOtherDrain<T>(during: nat -> Suspension<T>) {
    forall k: nat, i :: 0 <= i < |during(k).others| ==> !during(k).others[i].Pop?
  }

  /** A run between two states in which at most one message is in flight at any time. */
  ghost predicate Single<T>(s: State<T>, events: seq<Event<T>>, t: State<T>) {
    t == Exec(s, events) && OneDrain(s, events)
  }

  lemma OneMore<T>(s: State<T>, events: seq<Event<T>>, t: State<T>, e: Event<T>) returns (u: State<T>)
    requires t == Exec(s, events)
    ensures u == Apply(t, e) && Exec(s, events + [e]) == u
    ensures Single(s, events, t) && |u.q.sending| <= 1 ==> Single(s, events + [e], u)
  {
    u := Apply(t, e);
    var more := Then(s, events, e);
    SingleMore(s, events, t, more, u);
  }

  lemma SingleMore<T>(s: State<T>, events: seq<Event<T>>, t: State<T>, more: seq<Event<T>>, u: State<T>)
    requires t == Exec(s, events) && u == Exec(s, more) && |more| == |events| + 1 && events <= more
    ensures Single(s, events, t) && |u.q.sending| <= 1 ==> Single(s, more, u)
  {
    if Single(s, events, t) && |u.q.sending| <= 1 {
      forall i | 0 <= i <= |more| ensures |Exec(s, more[..i]).q.sending| <= 1 {
        if i <= |events| { assert more[..i] == events[..i]; } else { assert more[..i] == more; }
      }
    }
  }

  lemma Joined<T>(s: State<T>, a: seq<Event<T>>, t: State<T>, b: seq<Event<T>>, u: State<T>)
    requires t == Exec(s, a) && u == Exec(t, b)
    ensures Exec(s, a + b) == u
    ensures Single(s, a, t) && Single(t, b, u) ==> Single(s, a + b, u)
  {
    ExecAppend(s, a, b);
    if Single(s, a, t) && Single(t, b, u) {
      forall i | 0 <= i <= |a + b| ensures |Exec(s, (a + b)[..i]).q.sending| <= 1 {
        if i <= |a| {
          assert (a + b)[..i] == a[..i];
        } else {
          assert (a + b)[..i] == a + b[..i - |a|];
          ExecAppend(s, a, b[..i - |a|]);
        }
      }
    }
  }

  lemma {:induction false} OthersAreARun<T>(s: State<T>, m: T, others: seq<Event<T>>) returns (events: seq<Event<T>>)
    ensures Exec(s, events) == Others(s, m, others)
    ensures |s.q.sending| <= 1 && (forall i :: 0 <= i < |others| ==> !others[i].Pop?) ==>
      Single(s, events, Others(s, m, others)) && |Others(s, m, others).q.sending| <= 1
  {
    if others == [] {
      events := [];
    } else {
      var before, e := others[..|others| - 1], others[|others| - 1];
      events := OthersAreARun(s, m, before);
      var t := Others(s, m, before);
      if !EndsOurs(t, m, e) {
        var u := OneMore(s, events, t, e);
        if !e.Pop? { NoPopNoSend(t, e); }
        events := events + [e];
      }
    }
  }

  lemma PopSends<T>(s: State<T>)
    requires s.q.items != []
    ensures |Apply(s, Pop).q.sending| == |s.q.sending| + 1 && s.q.items[0] in Apply(s, Pop).q.sending
  {}

  lemma FinishFrees<T>(s: State<T>, m: T, outcome: Outcome)
    requires m in s.q.sending && |s.q.sending| <= 1
    ensures Apply(s, Finish(m, outcome)).q.sending == multiset{}
  {
    assert |s.q.sending - multiset{m}| == |s.q.sending| - 1;
  }

  lemma AfterSendIsARun<T>(s: State<T>, d: Suspension<T>) returns (events: seq<Event<T>>)
    requires s.q.items != []
    ensures Exec(s, events) == AfterSend(s, s.q.items[0], d)
    ensures s.q.sending == multiset{} && (forall i :: 0 <= i < |d.others| ==> !d.others[i].Pop?) ==>
      Single(s, events, AfterSend(s, s.q.items[0], d)) && AfterSend(s, s.q.items[0], d).q.sending == multiset{}
  {
    var m := s.q.items[0];
    PopSends(s);
    var t := OneMore(s, [], s, Pop);
    var more := OthersAreARun(t, m, d.others);
    OthersKeepOurs(t, m, d.others);
    var u := Others(t, m, d.others);
    Joined(s, [] + [Pop], t, more, u);
    events := [] + [Pop] + more;
    var v := OneMore(s, events, u, Finish(m, d.outcome));
    if |u.q.sending| <= 1 { FinishFrees(u, m, d.outcome); }
    events := events + [Finish(m, d.outcome)];
  }

  /** Whatever happens during its sends, a drain and all that is a run of the machine; it is a
      run with one drain at a time if nobody else drains meanwhile. */
  lemma {:induction false} DrainIsARun<T>(s: State<T>, batch: nat, during: nat -> Suspension<T>, k: nat)
    returns (events: seq<Event<T>>)
    ensures Exec(s, events) == GoesOn(s, batch, during, k).0
    ensures s.q.sending == multiset{} && NoOtherDrain(during) ==>
      OneDrain(s, events) && Exec(s, events).q.sending == multiset{}
    decreases batch - k
  {
    if k >= batch || s.q.items == [] {
      events := [];
    } else {
      events := AfterSendIsARun(s, during(k));
      var t := AfterSend(s, s.q.items[0], during(k));
      if during(k).outcome == Delivered {
        var more := DrainIsARun(t, batch, during, k + 1);
        Joined(s, events, t, more, GoesOn(t, batch, during, k + 1).0);
        events := events + more;
      }
    }
  }

  // ------------------------------------------------------------------
  // A drain, send by send
  // ------------------------------------------------------------------

  /** What others do while a drain sends `m`, one event after the other; the one send of `m` in
      flight is not theirs to end. */
  ghost predicate InTurn<T>(states: seq<State<T>>, m: T, others: seq<Event<T>>) {
    && |states| == |others| + 1
    && forall i :: 0 <= i < |others| ==>
      states[i + 1] == if others[i].Finish? && others[i].msg == m && states[i].q.sending[m] <= 1 then states[i]
                       else Apply(states[i], others[i])
  }

  /** From s to t the drain takes the head of the queue, others do what they do, and its send ends. */
  ghost predicate OneSend<T(!new)>(s: State<T>, t: State<T>, d: Suspension<T>) {
    && s.q.items != []
    && exists mid ::
      && InTurn(mid, s.q.items[0], d.others)
      && mid[0] == Exec(s, [Pop])
      && t == Apply(mid[|d.others|], Finish(s.q.items[0], d.outcome))
  }

  /** The i-th step between these states is the i-th send of the drain. */
  ghost predicate Sends<T(!new)>(states: seq<State<T>>, during: nat -> Suspension<T>, i: nat) {
    i + 1 < |states| && OneSend(states[i], states[i + 1], during(i))
  }

  /** The sends up to the last of these states, n of them, all complete. */
  ghost predicate AllComplete<T(!new)>(states: seq<State<T>>, during: nat -> Suspension<T>, n: nat) {
    n < |states| && forall i: nat :: i < n ==> Sends(states, during, i) && during(i).outcome == Delivered
  }

  /** A whole drain, send by send: it returns the number of sends that completed, and it stops only
      when that is the batch size, the queue is empty, or a send did not complete. */
  ghost predicate SendBySend<T(!new)>(states: seq<State<T>>, batch: nat, during: nat -> Suspension<T>, sent: nat) {
    && sent <= batch && AllComplete(states, during, sent)
    && if |states| == sent + 1 then sent == batch || states[sent].q.items == []
       else |states| == sent + 2 && sent < batch && Sends(states, during, sent) && during(sent).outcome != Delivered
  }

  lemma ExecOne<T>(s: State<T>, e: Event<T>)
    ensures Exec(s, [e]) == Apply(s, e)
  {
    assert [e][..0] == [];
    assert Exec(s, []) == s;
  }

  lemma {:induction false} OthersInTurn<T>(s: State<T>, m: T, others: seq<Event<T>>) returns (mid: seq<State<T>>)
    ensures InTurn(mid, m, others) && mid[0] == s && mid[|others|] == Others(s, m, others)
  {
    if others == [] {
      mid := [s];
    } else {
      var before := others[..|others| - 1];
      mid := OthersInTurn(s, m, before);
      mid := mid + [Others(s, m, others)];
    }
  }

  lemma AfterSendIsOneSend<T(!new)>(s: State<T>, d: Suspension<T>)
    requires s.q.items != []
    ensures OneSend(s, AfterSend(s, s.q.items[0], d), d)
  {
    var mid := OthersInTurn(Apply(s, Pop), s.q.items[0], d.others);
    ExecOne<T>(s, Pop);
  }

  lemma OneMoreSend<T(!new)>(states: seq<State<T>>, during: nat -> Suspension<T>, n: nat, t: State<T>)
    requires |states| == n + 1 && AllComplete(states, during, n) && OneSend(states[n], t, during(n))
    ensures AllComplete(states + [t], during, n) && Sends(states + [t], during, n)
    ensures during(n).outcome == Delivered ==> AllComplete(states + [t], during, n + 1)
  {
    forall i: nat | i < n ensures Sends(states + [t], during, i) && during(i).outcome == Delivered {
      assert Sends(states, during, i);
    }
  }

  /** Whatever happens during its sends, that is what a drain does. */
  lemma DrainSendBySend<T(!new)>(s: State<T>, batch: nat, during: nat -> Suspension<T>)
    returns (states: seq<State<T>>)
    ensures SendBySend(states, batch, during, GoesOn(s, batch, during, 0).1)
    ensures states[0] == s && states[|states| - 1] == GoesOn(s, batch, during, 0).0
  {
    states := [s];
    var n, t := 0, s;
    while n < batch && t.q.items != [] && during(n).outcome == Delivered
      invariant n <= batch && |states| == n + 1 && states[0] == s && t == states[n]
      invariant AllComplete(states, during, n)
      invariant GoesOn(t, batch, during, n) == GoesOn(s, batch, during, 0)
      decreases batch - n
    {
      AfterSendIsOneSend(t, during(n));
      t := AfterSend(t, t.q.items[0], during(n));
      OneMoreSend(states, during, n, t);
      states, n := states + [t], n + 1;
    }
    if n < batch && t.q.items != [] {
      AfterSendIsOneSend(t, during(n));
      var u := AfterSend(t, t.q.items[0], during(n));
      OneMoreSend(states, during, n, u);
      states := states + [u];
    }
  }

  lemma {:induction false} InTurnIsExec<T>(mid: seq<State<T>>, m: T, others: seq<Event<T>>, n: nat)
    requires InTurn(mid, m, others) && n <= |others|
    requires forall i :: 0 <= i < |others| ==> !(others[i].Finish? && others[i].msg == m)
    ensures mid[n] == Exec(mid[0], others[..n])
  {
    if n != 0 {
      InTurnIsExec(mid, m, others, n - 1);
      assert others[..n][..n - 1] == others[..n - 1];
    }
  }

  /** If others end no send of an equal message, the order of events is: the pop, theirs, the end. */
  lemma OneSendIsARun<T(!new)>(s: State<T>, t: State<T>, d: Suspension<T>)
    requires OneSend(s, t, d)
    requires forall i :: 0 <= i < |d.others| ==> !(d.others[i].Finish? && d.others[i].msg == s.q.items[0])
    ensures t == Exec(s, [Pop] + d.others + [Finish(s.q.items[0], d.outcome)])
  {
    var m := s.q.items[0];
    var mid :| InTurn(mid, m, d.others) && mid[0] == Exec(s, [Pop])
               && t == Apply(mid[|d.others|], Finish(m, d.outcome));
    InTurnIsExec(mid, m, d.others, |d.others|);
    assert d.others[..|d.others|] == d.others;
    ExecAppend(s, [Pop], d.others);
    ExecAppend(s, [Pop] + d.others, [Finish(m, d.outcome)]);
    ExecOne(Exec(s, [Pop] + d.others), Finish(m, d.outcome));
  }

  // ------------------------------------------------------------------
  // A drain that nobody interrupts
  // ------------------------------------------------------------------

  /** Nothing happens during its sends, and none is cancelled. */
  ghost predicate Alone<T>(during: nat -> Suspension<T>) {
    forall k: nat :: during(k).others == [] && during(k).outcome != Cancelled
  }

  function Completes<T>(during: nat -> Suspension<T>): nat -> bool { (k: nat) => during(k).outcome == Delivered }

  lemma AloneSends<T>(s: State<T>, t: State<T>, d: Suspension<T>)
    requires s.q.items != [] && t == AfterSend(s, s.q.items[0], d) && d.others == []
    ensures d.outcome == Delivered ==> Sent(s, t, 1)
    ensures d.outcome == Failed ==> Lost(s, t)
  {
    SendOne(s);
  }

  lemma {:induction false} AloneGoesOn<T(!new)>(s: State<T>, t: State<T>, batch: nat, during: nat -> Suspension<T>,
    k: nat)
    requires Alone(during) && Sent(s, t, k) && k <= batch && forall j: nat :: j < k ==> Completes(during)(j)
    ensures DrainCall(s, GoesOn(t, batch, during, k).0, batch, Completes(during))
    ensures GoesOn(t, batch, during, k).1 == SucceedingPrefix(Completes(during), Min(batch, |s.q.items|))
    decreases batch - k
  {
    if k == batch || t.q.items == [] {
      StopsEmpty(s, t, batch, Completes(during), k);
    } else {
      var u := AfterSend(t, t.q.items[0], during(k));
      AloneSends(t, u, during(k));
      if during(k).outcome == Delivered {
        SentTwice(s, t, u, k, 1);
        AloneGoesOn(s, u, batch, during, k + 1);
      } else {
        StopsLost(s, t, u, batch, Completes(during), k);
      }
    }
  }

  /** Then it is a whole drain call, and returns the length of the succeeding prefix. */
  lemma AloneIsDrainCall<T(!new)>(s: State<T>, batch: nat, during: nat -> Suspension<T>)
    requires Alone(during)
    ensures DrainCall(s, GoesOn(s, batch, during, 0).0, batch, Completes(during))
    ensures GoesOn(s, batch, during, 0).1 == SucceedingPrefix(Completes(during), Min(batch, |s.q.items|))
  {
    AloneGoesOn(s, s, batch, during, 0);
  }
}
