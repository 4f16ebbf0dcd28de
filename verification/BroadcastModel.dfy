/** Broadcast rounds over the send queues of many clients.

    In a round every client's queue takes the payload and is then drained.  The drains run
    concurrently and suspend in every send, so their steps may interleave in any order; each
    queue is touched by its own drain only. */
module BroadcastModel {
  import opened SendQueueModel

  const BATCH_SIZE: nat := 10

  datatype Tagged<T> = On(id: string, event: Event<T>)

  type Queues<T(==)> = map<string, State<T>>

  function Take<T>(m: Queues<T>, e: Tagged<T>): Queues<T> {
    if e.id in m then m[e.id := Apply(m[e.id], e.event)] else m
  }

  function Run<T>(m: Queues<T>, events: seq<Tagged<T>>): Queues<T> {
    if events == [] then m else Take(Run(m, events[..|events| - 1]), events[|events| - 1])
  }

  /** The events of one queue. */
  function Project<T>(events: seq<Tagged<T>>, id: string): seq<Event<T>> {
    if events == [] then []
    else
      var last := events[|events| - 1];
      Project(events[..|events| - 1], id) + if last.id == id then [last.event] else []
  }

  lemma {:induction false} QueuesAreIndependent<T>(m: Queues<T>, events: seq<Tagged<T>>, id: string)
    ensures Run(m, events).Keys == m.Keys
    ensures id in m ==> Run(m, events)[id] == Exec(m[id], Project(events, id))
  {
    if events != [] {
      var before, last := events[..|events| - 1], events[|events| - 1];
      QueuesAreIndependent(m, before, id);
      if id == last.id {
        var past := Project(before, id);
        assert (past + [last.event])[..|past|] == past;
      } else {
        assert Project(events, id) == Project(before, id);
      }
    }
  }

  // ------------------------------------------------------------------
  // One round
  // ------------------------------------------------------------------

  /** A queue after its head was sent. */
  function SendHead<T>(s: State<T>): State<T>
    requires s.q.items != []
  {
    var m := s.q.items[0];
    State(s.q.(items := s.q.items[1..], stats := s.q.stats.(sent := s.q.stats.sent + 1)),
          s.h.(removed := s.h.removed + [Removed(m, false)], delivered := s.h.delivered + [m]))
  }

  lemma PopThenFinish<T>(s: State<T>)
    requires s.q.items != []
    ensures Apply(Apply(s, Pop), Finish(s.q.items[0], Delivered)) == SendHead(s)
  {
    assert s.q.sending + multiset{s.q.items[0]} - multiset{s.q.items[0]} == s.q.sending;
  }

  /** A queue after that many iterations of a drain whose sends all complete, and its steps. */
  function Drained<T>(s: State<T>, batch: nat): State<T> {
    if batch == 0 then s
    else
      var t := Drained(s, batch - 1);
      if t.q.items == [] then t else SendHead(t)
  }

  function DrainSteps<T>(s: State<T>, batch: nat): seq<Event<T>> {
    if batch == 0 then []
    else
      var t := Drained(s, batch - 1);
      DrainSteps(s, batch - 1) + if t.q.items == [] then [] else [Pop, Finish(t.q.items[0], Delivered)]
  }

  lemma OneMoreSent<T>(s: State<T>, before: seq<Event<T>>, t: State<T>, steps: seq<Event<T>>, u: State<T>)
    requires Exec(s, before) == t && t.q.items != [] && u == SendHead(t)
    requires steps == before + [Pop, Finish(t.q.items[0], Delivered)]
    ensures Exec(s, steps) == u
  {
    var e, f := Pop, Finish(t.q.items[0], Delivered);
    assert steps[..|before| + 1] == before + [e];
    assert (before + [e])[..|before|] == before;
    PopThenFinish(t);
  }

  ghost predicate StepsDrain<T>(s: State<T>, batch: nat) { Exec(s, DrainSteps(s, batch)) == Drained(s, batch) }

  lemma NoSteps<T>(s: State<T>)
    ensures StepsDrain(s, 0)
  {
    assert Exec(s, []) == s;
  }

  lemma OneMoreStep<T>(s: State<T>, batch: nat)
    requires 1 <= batch && StepsDrain(s, batch - 1)
    ensures StepsDrain(s, batch)
  {
    var t, steps := Drained(s, batch - 1), DrainSteps(s, batch - 1);
    if t.q.items == [] {
      assert steps + [] == steps;
    } else {
      OneMoreSent(s, steps, t, DrainSteps(s, batch), Drained(s, batch));
    }
  }

  lemma DrainStepsDrain<T>(s: State<T>, batch: nat)
    ensures StepsDrain(s, batch)
  {
    NoSteps(s);
    for k := 0 to batch
      invariant StepsDrain(s, k)
    {
      OneMoreStep(s, k + 1);
    }
  }

  function RoundSteps<T>(s: State<T>, payload: T): seq<Event<T>> {
    [Enqueue(payload)] + DrainSteps(DoEnqueue(s, payload), BATCH_SIZE)
  }

  function AfterRound<T>(s: State<T>, payload: T): State<T> { Drained(DoEnqueue(s, payload), BATCH_SIZE) }

  lemma RoundStepsRound<T>(s: State<T>, payload: T)
    ensures Exec(s, RoundSteps(s, payload)) == AfterRound(s, payload)
  {
    var e, d := Enqueue(payload), DrainSteps(DoEnqueue(s, payload), BATCH_SIZE);
    ExecAppend(s, [e], d);
    assert [e][..0] == [];
    assert Exec(s, [e]) == Apply(s, e);
    DrainStepsDrain(DoEnqueue(s, payload), BATCH_SIZE);
  }

  /** No addressed queue makes its sender wait, so the round gets to its drains. */
  predicate Unblocked<T>(m: Queues<T>, ids: set<string>) {
    forall id :: id in m && id in ids ==> AnswerOf(m[id].q) != Suspended
  }

  /** Every addressed queue goes through its round; nothing else happens to any queue. */
  ghost predicate IsRound<T>(m: Queues<T>, events: seq<Tagged<T>>, ids: set<string>, payload: T) {
    Unblocked(m, ids) && Interleaves(m, events, ids, payload)
  }

  ghost predicate Interleaves<T>(m: Queues<T>, events: seq<Tagged<T>>, ids: set<string>, payload: T) {
    forall id :: id in m ==> Project(events, id) == if id in ids then RoundSteps(m[id], payload) else []
  }

  function AllRounded<T>(m: Queues<T>, ids: set<string>, payload: T): Queues<T> {
    map id | id in m :: if id in ids then AfterRound(m[id], payload) else m[id]
  }

  /** The first n messages of a queue were sent, or all of them if there are fewer. */
  ghost predicate FirstSent<T>(s: State<T>, t: State<T>, n: nat) {
    var k := if n < |s.q.items| then n else |s.q.items|;
    && t.q.items == s.q.items[k..] && t.h.delivered == s.h.delivered + s.q.items[..k]
    && t.q == s.q.(items := t.q.items, stats := s.q.stats.(sent := s.q.stats.sent + k))
    && t.h == s.h.(delivered := t.h.delivered, removed := t.h.removed)
  }

  lemma OneMoreFirst<T>(s: State<T>, t: State<T>, n: nat)
    requires FirstSent(s, t, n)
    ensures FirstSent(s, if t.q.items == [] then t else SendHead(t), n + 1)
  {
    if t.q.items != [] {
      assert s.q.items[n] == t.q.items[0] && s.q.items[..n + 1] == s.q.items[..n] + [s.q.items[n]];
      assert s.q.items[n..][1..] == s.q.items[n + 1..];
    }
  }

  lemma {:induction false} DrainedIsFirst<T>(s: State<T>, n: nat)
    ensures FirstSent(s, Drained(s, n), n)
  {
    if n == 0 {
      assert s.q.items[0..] == s.q.items && s.q.items[..0] == [];
    } else {
      DrainedIsFirst(s, n - 1);
      OneMoreFirst(s, Drained(s, n - 1), n - 1);
    }
  }

  /** A round on queues with any backlog and any strategy: each addressed queue takes the payload as
      `enqueue` does and then sends its ten oldest messages, in order; no other queue is touched. */
  lemma RoundSendsTen<T>(m: Queues<T>, ids: set<string>, payload: T, id: string)
    requires id in m
    ensures var after := AllRounded(m, ids, payload);
      && after.Keys == m.Keys
      && (id !in ids ==> after[id] == m[id])
      && (id in ids ==> FirstSent(Apply(m[id], Enqueue(payload)), after[id], 10))
  {
    DrainedIsFirst(DoEnqueue(m[id], payload), 10);
  }

  /** However the drains interleave, a round has one outcome. */
  lemma AnyInterleaving<T>(m: Queues<T>, events: seq<Tagged<T>>, ids: set<string>, payload: T)
    requires IsRound(m, events, ids, payload)
    ensures Run(m, events) == AllRounded(m, ids, payload)
  {
    QueuesAreIndependent(m, events, "");
    forall id | id in m ensures Run(m, events)[id] == AllRounded(m, ids, payload)[id] {
      QueuesAreIndependent(m, events, id);
      if id in ids { RoundStepsRound(m[id], payload); }
    }
  }

  function Tag<T>(id: string, events: seq<Event<T>>): seq<Tagged<T>> {
    if events == [] then [] else Tag(id, events[..|events| - 1]) + [On(id, events[|events| - 1])]
  }

  lemma {:induction false} ProjectTag<T>(id: string, events: seq<Event<T>>, other: string)
    ensures Project(Tag(id, events), other) == if other == id then events else []
  {
    if events != [] {
      var before := events[..|events| - 1];
      ProjectTag(id, before, other);
      assert Tag(id, events)[..|Tag(id, before)|] == Tag(id, before);
    }
  }

  lemma {:induction false} ProjectAppend<T>(a: seq<Tagged<T>>, b: seq<Tagged<T>>, id: string)
    ensures Project(a + b, id) == Project(a, id) + Project(b, id)
  {
    if b == [] {
      assert a + b == a;
    } else {
      ProjectAppend(a, b[..|b| - 1], id);
      assert (a + b)[..|a + b| - 1] == a + b[..|b| - 1];
    }
  }

  lemma AddressOne<T>(m: Queues<T>, events: seq<Tagged<T>>, ids: set<string>, payload: T, id: string)
    returns (more: seq<Tagged<T>>)
    requires Interleaves(m, events, ids, payload) && id !in ids
    ensures Interleaves(m, more, ids + {id}, payload)
  {
    more := events;
    if id in m {
      var steps := RoundSteps(m[id], payload);
      more := events + Tag(id, steps);
      forall other | other in m
        ensures Project(more, other) == Project(events, other) + if other == id then steps else []
      {
        ProjectAppend(events, Tag(id, steps), other);
        ProjectTag(id, steps, other);
      }
    }
  }

  /** A round is possible, one client after the other, for example, if and only if no queue
      makes its sender wait. */
  lemma RoundExistsIff<T>(m: Queues<T>, ids: set<string>, payload: T) returns (events: seq<Tagged<T>>)
    ensures IsRound(m, events, ids, payload) <==> Unblocked(m, ids)
  {
    events := [];
    var todo := ids;
    assert ids - todo == {};
    while todo != {}
      invariant todo <= ids && Interleaves(m, events, ids - todo, payload)
      decreases |todo|
    {
      var id :| id in todo;
      events := AddressOne(m, events, ids - todo, payload, id);
      assert ids - (todo - {id}) == ids - todo + {id};
      todo := todo - {id};
    }
    assert ids - todo == ids;
  }

  lemma OnlyBlockSenderBlocks<T>(m: Queues<T>, ids: set<string>)
    requires forall id :: id in m && id in ids ==> m[id].q.strategy != BlockSender
    ensures Unblocked(m, ids)
  {}

  /** What r rounds with these payloads leave of a queue that was empty at the start. */
  ghost predicate GotAll<T>(s: State<T>, t: State<T>, payloads: seq<T>) {
    && t.q.items == []
    && t.h.delivered == s.h.delivered + payloads
    && t.q.stats == s.q.stats.(sent := s.q.stats.sent + |payloads|,
                               queued := s.q.stats.queued + if s.q.max == 1 then 0 else |payloads|,
                               dropped := s.q.stats.dropped + if s.q.max == 1 then |payloads| else 0)
    && t.q == s.q.(items := [], stats := t.q.stats)
    && Evicted(t) == Evicted(s) && t.h.failed == s.h.failed
  }

  /** An empty queue after an enqueue call. */
  ghost predicate Took<T>(s: State<T>, e: State<T>, payload: T) {
    && e.q == s.q.(items := [payload], stats := e.q.stats)
    && e.h.delivered == s.h.delivered && e.h.failed == s.h.failed && e.h.removed == s.h.removed
    && e.q.stats == s.q.stats.(queued := s.q.stats.queued + if s.q.max == 1 then 0 else 1,
                               dropped := s.q.stats.dropped + if s.q.max == 1 then 1 else 0)
  }

  lemma EmptyTakesOne<T>(s: State<T>, payload: T) returns (e: State<T>)
    requires s.q.strategy == DropOldest && 1 <= s.q.max && s.q.items == []
    ensures e == DoEnqueue(s, payload) && Took(s, e, payload)
  {
    e := DoEnqueue(s, payload);
  }

  lemma HeadSent<T>(e: State<T>, payload: T) returns (t: State<T>)
    requires e.q.items == [payload]
    ensures t == SendHead(e)
    ensures t.q == e.q.(items := [], stats := e.q.stats.(sent := e.q.stats.sent + 1))
    ensures t.h.delivered == e.h.delivered + [payload] && t.h.failed == e.h.failed
    ensures t.h.removed == e.h.removed + [Removed(payload, false)]
  {
    t := SendHead(e);
  }

  lemma OneSent<T>(s: State<T>, e: State<T>, t: State<T>, payload: T)
    requires s.q.items == [] && Took(s, e, payload)
    requires t.q == e.q.(items := [], stats := e.q.stats.(sent := e.q.stats.sent + 1))
    requires t.h.delivered == e.h.delivered + [payload] && t.h.failed == e.h.failed
    requires t.h.removed == e.h.removed + [Removed(payload, false)]
    ensures GotAll(s, t, [payload])
  {
    ReadLog(e.h.removed, Removed(payload, false));
  }

  lemma {:induction false} DrainedOnce<T>(e: State<T>, t: State<T>, batch: nat)
    requires e.q.items != [] && t == SendHead(e) && t.q.items == [] && 1 <= batch
    ensures Drained(e, batch) == t
  {
    if batch != 1 { DrainedOnce(e, t, batch - 1); }
  }

  lemma OneRound<T>(s: State<T>, payload: T)
    requires s.q.strategy == DropOldest && 1 <= s.q.max && s.q.items == []
    ensures GotAll(s, AfterRound(s, payload), [payload])
  {
    var e := EmptyTakesOne(s, payload);
    var t := HeadSent(e, payload);
    OneSent(s, e, t, payload);
    DrainedOnce(e, t, BATCH_SIZE);
  }

  // ------------------------------------------------------------------
  // Many rounds
  // ------------------------------------------------------------------

  function Rounds<T>(m: Queues<T>, ids: set<string>, payloads: seq<T>): Queues<T> {
    if payloads == [] then m
    else AllRounded(Rounds(m, ids, payloads[..|payloads| - 1]), ids, payloads[|payloads| - 1])
  }

  /** Broadcasts one after the other, with all the states in between. */
  ghost predicate Broadcasts<T>(states: seq<Queues<T>>, rounds: seq<seq<Tagged<T>>>, ids: set<string>,
    payloads: seq<T>)
  {
    && |states| == |payloads| + 1 && |rounds| == |payloads|
    && forall i :: 0 <= i < |payloads| ==>
      IsRound(states[i], rounds[i], ids, payloads[i]) && states[i + 1] == Run(states[i], rounds[i])
  }

  lemma {:induction false} BroadcastsAreRounds<T>(
    states: seq<Queues<T>>, rounds: seq<seq<Tagged<T>>>, ids: set<string>, payloads: seq<T>)
    requires Broadcasts(states, rounds, ids, payloads)
    ensures states[|payloads|] == Rounds(states[0], ids, payloads)
  {
    if payloads != [] {
      var n := |payloads| - 1;
      assert Broadcasts(states[..n + 1], rounds[..n], ids, payloads[..n]);
      BroadcastsAreRounds(states[..n + 1], rounds[..n], ids, payloads[..n]);
      AnyInterleaving(states[n], rounds[n], ids, payloads[n]);
    }
  }

  lemma BroadcastAgain<T>(s: State<T>, t: State<T>, u: State<T>, payloads: seq<T>, payload: T)
    requires GotAll(s, t, payloads) && GotAll(t, u, [payload])
    ensures GotAll(s, u, payloads + [payload])
  {}

  lemma RoundDelivers<T>(m: Queues<T>, t: Queues<T>, ids: set<string>, payload: T, id: string)
    requires t == AllRounded(m, ids, payload) && id in m && id in ids
    requires m[id].q.strategy == DropOldest && 1 <= m[id].q.max && m[id].q.items == []
    ensures id in t && GotAll(m[id], t[id], [payload])
  {
    OneRound(m[id], payload);
  }

  ghost predicate HasDelivered<T>(m: Queues<T>, ids: set<string>, payloads: seq<T>, id: string) {
    id in m && id in Rounds(m, ids, payloads) && GotAll(m[id], Rounds(m, ids, payloads)[id], payloads)
  }

  lemma OneMoreRound<T>(m: Queues<T>, ids: set<string>, payloads: seq<T>, n: nat, id: string)
    requires id in m && id in ids && n < |payloads| && HasDelivered(m, ids, payloads[..n], id)
    requires m[id].q.strategy == DropOldest && 1 <= m[id].q.max
    ensures HasDelivered(m, ids, payloads[..n + 1], id)
  {
    assert payloads[..n + 1] == payloads[..n] + [payloads[n]];
    var t, u := Rounds(m, ids, payloads[..n]), Rounds(m, ids, payloads[..n + 1]);
    assert u == AllRounded(t, ids, payloads[n]);
    RoundDelivers(t, u, ids, payloads[n], id);
    BroadcastAgain(m[id], t[id], u[id], payloads[..n], payloads[n]);
  }

  lemma RoundsDeliver<T>(m: Queues<T>, ids: set<string>, payloads: seq<T>, id: string)
    requires id in m && id in ids
    requires m[id].q.strategy == DropOldest && 1 <= m[id].q.max && m[id].q.items == []
    ensures HasDelivered(m, ids, payloads, id)
  {
    for n := 0 to |payloads|
      invariant HasDelivered(m, ids, payloads[..n], id)
    {
      OneMoreRound(m, ids, payloads, n, id);
    }
    assert payloads[..|payloads|] == payloads;
  }

  /** The queues as `add_connection` makes them. */
  function NewQueues<T>(ids: set<string>, max: int): Queues<T> { map id | id in ids :: Init(DropOldest, max) }

  /** After every round all queues are empty and each client has received exactly the payloads
      so far, in order, whatever the interleaving; nothing was evicted, nothing failed. */
  lemma EveryClientReceivesAll<T>(max: int, ids: set<string>,
    states: seq<Queues<T>>, rounds: seq<seq<Tagged<T>>>, payloads: seq<T>, id: string)
    requires 1 <= max && id in ids
    requires Broadcasts(states, rounds, ids, payloads) && states[0] == NewQueues(ids, max)
    ensures id in states[|payloads|]
    ensures var s := states[|payloads|][id];
      && s.q.items == [] && s.h.delivered == payloads && s.q.stats.sent == |payloads|
      && s.h.failed == [] && Evicted(s) == []
      && s.q.stats.dropped == (if max == 1 then |payloads| else 0)
  {
    BroadcastsAreRounds(states, rounds, ids, payloads);
    RoundsDeliver(states[0], ids, payloads, id);
  }

  lemma {:induction false} NothingToDrain<T>(s: State<T>, batch: nat)
    requires s.q.items == []
    ensures Drained(s, batch) == s
  {
    if batch != 0 { NothingToDrain(s, batch - 1); }
  }

  lemma ZeroKeepsNothing<T>(s: State<T>, payload: T)
    requires s.q.strategy == DropOldest && s.q.max == 0 && s.q.items == []
    ensures var t := AfterRound(s, payload);
      && t.q.items == [] && t.h.delivered == s.h.delivered && t.q.max == 0 && t.q.strategy == DropOldest
      && t.q.stats.dropped == s.q.stats.dropped + 1
  {
    NothingToDrain(DoEnqueue(s, payload), BATCH_SIZE);
  }

  lemma {:induction false} ZeroDropsAll<T>(m: Queues<T>, ids: set<string>, payloads: seq<T>, id: string)
    requires id in m && id in ids
    requires m[id].q.strategy == DropOldest && m[id].q.max == 0 && m[id].q.items == []
    ensures id in Rounds(m, ids, payloads)
    ensures var t := Rounds(m, ids, payloads)[id];
      && t.q.items == [] && t.h.delivered == m[id].h.delivered && t.q.max == 0 && t.q.strategy == DropOldest
      && t.q.stats.dropped == m[id].q.stats.dropped + |payloads|
  {
    if payloads != [] {
      var n := |payloads| - 1;
      ZeroDropsAll(m, ids, payloads[..n], id);
      ZeroKeepsNothing(Rounds(m, ids, payloads[..n])[id], payloads[n]);
    }
  }

  /** A client is served as it should be exactly if its queue has room for a message, and the
      counters report no drop exactly if there is room for two. */
  lemma ServedIffRoom<T>(max: nat, ids: set<string>,
    states: seq<Queues<T>>, rounds: seq<seq<Tagged<T>>>, payloads: seq<T>, id: string)
    requires id in ids && payloads != []
    requires Broadcasts(states, rounds, ids, payloads) && states[0] == NewQueues(ids, max)
    ensures id in states[|payloads|]
    ensures var s := states[|payloads|][id];
      && (s.h.delivered == payloads <==> 1 <= max)
      && (s.q.stats.dropped == 0 <==> 2 <= max)
  {
    BroadcastsAreRounds(states, rounds, ids, payloads);
    if max == 0 {
      ZeroDropsAll(states[0], ids, payloads, id);
    } else {
      EveryClientReceivesAll(max, ids, states, rounds, payloads, id);
    }
  }
}
