/** `broadcast_with_bp`, `ClientBuffer` and the round loop of the benchmark as the program keeps them. */
module Broadcast {
  import opened SendQueueModel
  import opened BroadcastModel
  import opened Backpressure
  import opened Options

  class ClientBuffer<T> {
    const clientId: string
    var received: seq<T>

    constructor (clientId: string)
      ensures this.clientId == clientId && received == []
    {
      this.clientId, received := clientId, [];
    }

    method Send(data: T)
      modifies this
      ensures received == old(received) + [data]
    {
      received := received + [data];
    }
  }

  lemma {:induction false} NoFurther<T>(s: State<T>, k: nat, n: nat)
    requires k <= n && Drained(s, k).q.items == []
    ensures Drained(s, n) == Drained(s, k)
    decreases n
  {
    if k < n { NoFurther(s, k, n - 1); }
  }

  // ------------------------------------------------------------------
  // queue.drain(client.send, batch_size=10)
  // ------------------------------------------------------------------

  /** Where such a drain stands between two resumptions: the sends completed, the message it is
      suspended with in `send`, and whether it has returned. */
  datatype Progress<T> = Progress(sent: nat, held: Option<T>, ended: bool)

  /** A drain that began with the queue in state `start` stands there, the queue in state `s`. */
  ghost predicate Draining<T>(start: State<T>, s: State<T>, p: Progress<T>) {
    var t := Drained(start, p.sent);
    && p.sent <= BATCH_SIZE
    && match p.held
       case None => s == t && (p.ended ==> p.sent == BATCH_SIZE || t.q.items == [])
       case Some(m) => !p.ended && p.sent < BATCH_SIZE && t.q.items != [] && m == t.q.items[0] && s == Apply(t, Pop)
  }

  function Remaining<T>(p: Progress<T>): nat
    requires p.sent <= BATCH_SIZE
  {
    if p.ended then 0 else 2 * (BATCH_SIZE - p.sent) + if p.held.Some? then 1 else 2
  }

  lemma HeadEnds<T>(start: State<T>, s: State<T>, p: Progress<T>)
    requires Draining(start, s, p) && p.held.Some?
    ensures Apply(s, Finish(p.held.value, Delivered)) == Drained(start, p.sent + 1)
  {
    PopThenFinish(Drained(start, p.sent));
  }

  lemma EndedIsDrained<T>(start: State<T>, s: State<T>, p: Progress<T>)
    requires Draining(start, s, p) && p.ended
    ensures s == Drained(start, BATCH_SIZE)
  {
    if p.sent < BATCH_SIZE { NoFurther(start, p.sent, BATCH_SIZE); }
  }

  /** The send the drain is suspended in completes. */
  method EndSend<T(==, !new)>(queue: SendQueue<T>, client: ClientBuffer<T>, p: Progress<T>, ghost start: State<T>)
    returns (p': Progress<T>)
    requires queue.Valid() && Draining(start, queue.view, p) && p.held.Some?
    requires client.received == queue.view.h.delivered
    modifies queue, client
    ensures queue.Valid() && Draining(start, queue.view, p') && client.received == queue.view.h.delivered
    ensures p' == Progress(p.sent + 1, None, false)
  {
    HeadEnds(start, queue.view, p);
    client.Send(p.held.value);
    queue.SendEnds(p.held.value, Delivered);
    p' := Progress(p.sent + 1, None, false);
  }

  /** The drain goes on until its next send suspends, or returns. */
  method NextSend<T(==, !new)>(queue: SendQueue<T>, client: ClientBuffer<T>, p: Progress<T>, ghost start: State<T>)
    returns (p': Progress<T>)
    requires queue.Valid() && Draining(start, queue.view, p) && p.held.None? && !p.ended
    requires client.received == queue.view.h.delivered
    modifies queue
    ensures queue.Valid() && Draining(start, queue.view, p') && client.received == queue.view.h.delivered
    ensures p'.sent == p.sent && (p'.ended || p'.held.Some?)
  {
    if p.sent < BATCH_SIZE && queue.Depth() != 0 {
      var msg := queue.TakeNext();
      p' := Progress(p.sent, msg, false);
    } else {
      p' := p.(ended := true);
    }
  }

  /** One resumption of the drain. */
  method Stretch<T(==, !new)>(queue: SendQueue<T>, client: ClientBuffer<T>, p: Progress<T>, ghost start: State<T>)
    returns (p': Progress<T>)
    requires queue.Valid() && Draining(start, queue.view, p) && !p.ended
    requires client.received == queue.view.h.delivered
    modifies queue, client
    ensures queue.Valid() && Draining(start, queue.view, p') && client.received == queue.view.h.delivered
    ensures Remaining(p') < Remaining(p)
  {
    p' := p;
    if p.held.Some? { p' := EndSend(queue, client, p, start); }
    p' := NextSend(queue, client, p', start);
  }

  // ------------------------------------------------------------------
  // broadcast_with_bp
  // ------------------------------------------------------------------

  ghost function Views<T(!new)>(controller: BackpressureController<T>): Queues<T>
    reads controller, controller.queues.Values
  {
    map id | id in controller.queues :: controller.queues[id].view
  }

  function Ids<T>(clients: seq<ClientBuffer<T>>): set<string> { set c | c in clients :: c.clientId }

  ghost predicate Distinct<T>(clients: seq<ClientBuffer<T>>) {
    forall i, j :: 0 <= i < j < |clients| ==> clients[i].clientId != clients[j].clientId
  }

  /** Every client has received what its queue delivered. */
  ghost predicate InStep<T(!new)>(controller: BackpressureController<T>, clients: seq<ClientBuffer<T>>)
    reads controller, controller.queues.Values, clients
  {
    forall c :: c in clients && c.clientId in controller.queues ==>
      c.received == controller.queues[c.clientId].view.h.delivered
  }

  /** The queues of `ids` have taken the payload. */
  ghost function Offered<T>(m: Queues<T>, ids: set<string>, payload: T): Queues<T> {
    map id | id in m :: if id in ids then DoEnqueue(m[id], payload) else m[id]
  }

  /** Every queue of `ids` has taken the payload as `enqueue` does, and no other queue has changed. */
  lemma OfferedToAll<T>(m: Queues<T>, ids: set<string>, payload: T, id: string)
    requires id in m
    ensures Offered(m, ids, payload).Keys == m.Keys
    ensures Offered(m, ids, payload)[id] == if id in ids then Apply(m[id], Enqueue(payload)) else m[id]
  {}

  lemma OneMoreId<T>(clients: seq<ClientBuffer<T>>, k: nat)
    requires k < |clients| && Distinct(clients)
    ensures Ids(clients[..k + 1]) == Ids(clients[..k]) + {clients[k].clientId}
    ensures clients[k].clientId !in Ids(clients[..k]) && clients[k].clientId in Ids(clients)
  {
    assert clients[..k + 1] == clients[..k] + [clients[k]];
  }

  lemma OfferedOneMore<T>(m: Queues<T>, v: Queues<T>, ids: set<string>, id: string, payload: T)
    requires id !in ids && v == Offered(m, ids, payload)
    ensures Offered(m, ids + {id}, payload) == if id in v then v[id := DoEnqueue(v[id], payload)] else v
  {}

  lemma EnqueueDeliversNothing<T>(s: State<T>, payload: T)
    ensures DoEnqueue(s, payload).h.delivered == s.h.delivered
  {}

  lemma ViewChanged<T(!new)>(controller: BackpressureController<T>, m: Queues<T>, id: string, s: State<T>)
    requires controller.queues.Keys == m.Keys && id in m && controller.queues[id].view == s
    requires forall i :: i in m && i != id ==> controller.queues[i].view == m[i]
    ensures Views(controller) == m[id := s]
  {}

  /** No other queue of the controller changes. */
  method EnqueueOne<T(==, !new)>(controller: BackpressureController<T>, id: string, queue: SendQueue<T>, payload: T)
    returns (answer: Answer)
    requires controller.Valid() && id in controller.queues && queue == controller.queues[id]
    modifies queue
    ensures controller.Valid() && queue.view == DoEnqueue(old(queue.view), payload)
    ensures answer == AnswerOf(old(queue.view).q)
    ensures queue.view.h.delivered == old(queue.view.h.delivered)
    ensures forall i :: i in controller.queues && i != id ==>
      controller.queues[i].view == old(controller.queues[i].view)
  {
    EnqueueDeliversNothing(queue.view, payload);
    answer := queue.Enqueue(payload);
  }

  method EnqueueOn<T(==, !new)>(controller: BackpressureController<T>, id: string, payload: T,
    ghost clients: seq<ClientBuffer<T>>) returns (waits: bool)
    requires controller.Valid() && InStep(controller, clients)
    modifies controller.queues.Values
    ensures controller.Valid() && InStep(controller, clients)
    ensures id in controller.queues ==>
      Views(controller) == old(Views(controller))[id := DoEnqueue(old(controller.queues[id].view), payload)]
    ensures id !in controller.queues ==> Views(controller) == old(Views(controller))
    ensures waits == !Unblocked(old(Views(controller)), {id})
  {
    waits := false;
    var q := controller.GetQueue(id);
    if q.Some? {
      ghost var m := Views(controller);
      var answer := EnqueueOne(controller, id, q.value, payload);
      waits := answer == Suspended;
      ViewChanged(controller, m, id, q.value.view);
    }
  }

  lemma UnblockedOneMore<T>(m: Queues<T>, v: Queues<T>, ids: set<string>, id: string, payload: T)
    requires id !in ids && v == Offered(m, ids, payload)
    ensures Unblocked(m, ids + {id}) <==> Unblocked(m, ids) && Unblocked(v, {id})
  {}

  /** One iteration of the first loop of `broadcast_with_bp`; `waits` says that the sender is
      suspended. */
  method OfferTo<T(==, !new)>(controller: BackpressureController<T>, client: ClientBuffer<T>, payload: T,
    ghost clients: seq<ClientBuffer<T>>, ghost m: Queues<T>, ghost ids: set<string>) returns (waits: bool)
    requires controller.Valid() && InStep(controller, clients) && client.clientId !in ids
    requires Views(controller) == Offered(m, ids, payload)
    modifies controller.queues.Values
    ensures controller.Valid() && InStep(controller, clients)
    ensures Views(controller) == Offered(m, ids + {client.clientId}, payload)
    ensures Unblocked(m, ids + {client.clientId}) <==> Unblocked(m, ids) && !waits
  {
    OfferedOneMore(m, Views(controller), ids, client.clientId, payload);
    UnblockedOneMore(m, Views(controller), ids, client.clientId, payload);
    waits := EnqueueOn(controller, client.clientId, payload, clients);
  }

  /** The first loop and its `gather`: whether every enqueue call returned. */
  method OfferAll<T(==, !new)>(controller: BackpressureController<T>, clients: seq<ClientBuffer<T>>, payload: T,
    ghost m: Queues<T>) returns (allReturned: bool)
    requires controller.Valid() && InStep(controller, clients) && Distinct(clients) && Views(controller) == m
    modifies controller.queues.Values
    ensures controller.Valid() && InStep(controller, clients)
    ensures Views(controller) == Offered(m, Ids(clients), payload)
    ensures allReturned == Unblocked(m, Ids(clients))
  {
    allReturned := true;
    for k := 0 to |clients|
      invariant controller.Valid() && InStep(controller, clients)
      invariant Views(controller) == Offered(m, Ids(clients[..k]), payload)
      invariant allReturned == Unblocked(m, Ids(clients[..k]))
    {
      OneMoreId(clients, k);
      var waits := OfferTo(controller, clients[k], payload, clients, m, Ids(clients[..k]));
      allReturned := allReturned && !waits;
    }
    assert clients[..|clients|] == clients;
  }

  /** Every client's drain stands where its progress says, the queues being in the states `v`; the
      drains began in the states `m`. */
  ghost predicate AllDraining<T>(v: Queues<T>, clients: seq<ClientBuffer<T>>, m: Queues<T>,
    progress: seq<Progress<T>>)
  {
    && v.Keys == m.Keys && |progress| == |clients|
    && (forall k :: 0 <= k < |clients| ==>
          if clients[k].clientId in m
          then Draining(m[clients[k].clientId], v[clients[k].clientId], progress[k])
          else progress[k].ended)
    && (forall id :: id in m && id !in Ids(clients) ==> v[id] == m[id])
  }

  lemma OnlyOneClient<T>(clients: seq<ClientBuffer<T>>, k: nat)
    requires Distinct(clients) && k < |clients|
    ensures forall i :: 0 <= i < |clients| && i != k ==> clients[i].clientId != clients[k].clientId
    ensures forall c :: c in clients && c.clientId == clients[k].clientId ==> c == clients[k]
    ensures clients[k].clientId in Ids(clients) && clients[k] in clients
  {}

  lemma OneStands<T>(v: Queues<T>, clients: seq<ClientBuffer<T>>, m: Queues<T>, progress: seq<Progress<T>>,
    k: nat, s: State<T>, p: Progress<T>)
    requires Distinct(clients) && AllDraining(v, clients, m, progress) && k < |clients| && clients[k].clientId in m
    requires Draining(m[clients[k].clientId], s, p)
    ensures AllDraining(v[clients[k].clientId := s], clients, m, progress[k := p])
  {
    OnlyOneClient(clients, k);
  }

  /** A drain is resumed; no other queue of the controller changes. */
  method StretchOne<T(==, !new)>(controller: BackpressureController<T>, client: ClientBuffer<T>, queue: SendQueue<T>,
    p: Progress<T>, ghost start: State<T>) returns (p': Progress<T>)
    requires controller.Valid() && client.clientId in controller.queues && queue == controller.queues[client.clientId]
    requires Draining(start, queue.view, p) && !p.ended && client.received == queue.view.h.delivered
    modifies queue, client
    ensures controller.Valid() && Draining(start, queue.view, p')
    ensures client.received == queue.view.h.delivered && Remaining(p') < Remaining(p)
    ensures forall i :: i in controller.queues && i != client.clientId ==>
      controller.queues[i].view == old(controller.queues[i].view)
  {
    p' := Stretch(queue, client, p, start);
  }

  method StretchOn<T(==, !new)>(controller: BackpressureController<T>, client: ClientBuffer<T>, p: Progress<T>,
    ghost clients: seq<ClientBuffer<T>>, ghost start: State<T>) returns (p': Progress<T>, ghost s: State<T>)
    requires controller.Valid() && InStep(controller, clients) && client in clients
    requires forall c :: c in clients && c.clientId == client.clientId ==> c == client
    requires client.clientId in controller.queues && !p.ended
    requires Draining(start, controller.queues[client.clientId].view, p)
    modifies controller.queues.Values, client
    ensures controller.Valid() && InStep(controller, clients)
    ensures Views(controller) == old(Views(controller))[client.clientId := s]
    ensures Draining(start, s, p') && Remaining(p') < Remaining(p)
  {
    ghost var m := Views(controller);
    var queue := controller.queues[client.clientId];
    p' := StretchOne(controller, client, queue, p, start);
    s := queue.view;
    ViewChanged(controller, m, client.clientId, s);
  }

  /** The event loop resumes the drain of the k-th client. */
  method ResumeDrain<T(==, !new)>(controller: BackpressureController<T>, clients: seq<ClientBuffer<T>>,
    progress: seq<Progress<T>>, k: nat, ghost m: Queues<T>) returns (next: seq<Progress<T>>)
    requires controller.Valid() && InStep(controller, clients) && Distinct(clients)
    requires AllDraining(Views(controller), clients, m, progress) && k < |clients| && !progress[k].ended
    modifies controller.queues.Values, clients
    ensures controller.Valid() && InStep(controller, clients)
    ensures AllDraining(Views(controller), clients, m, next)
    ensures progress[k].sent <= BATCH_SIZE && next[k].sent <= BATCH_SIZE && Remaining(next[k]) < Remaining(progress[k])
    ensures forall i :: 0 <= i < |clients| && i != k ==> next[i] == progress[i]
  {
    OnlyOneClient(clients, k);
    ghost var v := Views(controller);
    ghost var s;
    assert v[clients[k].clientId] == controller.queues[clients[k].clientId].view;
    var p;
    p, s := StretchOn(controller, clients[k], progress[k], clients, m[clients[k].clientId]);
    OneStands(v, clients, m, progress, k, s, p);
    next := progress[k := p];
  }

  method FinishDrain<T(==, !new)>(controller: BackpressureController<T>, clients: seq<ClientBuffer<T>>,
    progress: seq<Progress<T>>, k: nat, ghost m: Queues<T>) returns (next: seq<Progress<T>>)
    requires controller.Valid() && InStep(controller, clients) && Distinct(clients)
    requires AllDraining(Views(controller), clients, m, progress) && k < |clients|
    modifies controller.queues.Values, clients
    ensures controller.Valid() && InStep(controller, clients)
    ensures AllDraining(Views(controller), clients, m, next) && next[k].ended
    ensures forall i :: 0 <= i < |clients| && i != k ==> next[i] == progress[i]
  {
    next := progress;
    while !next[k].ended
      invariant controller.Valid() && InStep(controller, clients)
      invariant AllDraining(Views(controller), clients, m, next)
      invariant forall i :: 0 <= i < |clients| && i != k ==> next[i] == progress[i]
      decreases if next[k].sent <= BATCH_SIZE then Remaining(next[k]) else 0
    {
      next := ResumeDrain(controller, clients, next, k, m);
    }
  }

  /** `asyncio.gather` of the drains: they are resumed as the schedule says, and then in turn. */
  method Gather<T(==, !new)>(controller: BackpressureController<T>, clients: seq<ClientBuffer<T>>,
    started: seq<Progress<T>>, schedule: seq<nat>, ghost m: Queues<T>) returns (progress: seq<Progress<T>>)
    requires controller.Valid() && InStep(controller, clients) && Distinct(clients)
    requires AllDraining(Views(controller), clients, m, started)
    modifies controller.queues.Values, clients
    ensures controller.Valid() && InStep(controller, clients)
    ensures AllDraining(Views(controller), clients, m, progress)
    ensures forall k :: 0 <= k < |progress| ==> progress[k].ended
  {
    progress := started;
    for i := 0 to |schedule|
      invariant controller.Valid() && InStep(controller, clients)
      invariant AllDraining(Views(controller), clients, m, progress)
    {
      if schedule[i] < |clients| && !progress[schedule[i]].ended {
        progress := ResumeDrain(controller, clients, progress, schedule[i], m);
      }
    }
    progress := FinishAll(controller, clients, progress, m);
  }

  method FinishAll<T(==, !new)>(controller: BackpressureController<T>, clients: seq<ClientBuffer<T>>,
    started: seq<Progress<T>>, ghost m: Queues<T>) returns (progress: seq<Progress<T>>)
    requires controller.Valid() && InStep(controller, clients) && Distinct(clients)
    requires AllDraining(Views(controller), clients, m, started)
    modifies controller.queues.Values, clients
    ensures controller.Valid() && InStep(controller, clients)
    ensures AllDraining(Views(controller), clients, m, progress)
    ensures forall k :: 0 <= k < |progress| ==> progress[k].ended
  {
    progress := started;
    for k := 0 to |clients|
      invariant controller.Valid() && InStep(controller, clients)
      invariant AllDraining(Views(controller), clients, m, progress)
      invariant forall i :: 0 <= i < k ==> progress[i].ended
    {
      progress := FinishDrain(controller, clients, progress, k, m);
    }
  }

  method StartDrains<T(==, !new)>(controller: BackpressureController<T>, clients: seq<ClientBuffer<T>>,
    ghost m: Queues<T>) returns (progress: seq<Progress<T>>)
    requires controller.Valid() && Views(controller) == m
    ensures AllDraining(m, clients, m, progress)
  {
    progress := [];
    for k := 0 to |clients|
      invariant |progress| == k
      invariant forall i :: 0 <= i < k ==> progress[i] == Progress(0, None, clients[i].clientId !in controller.queues)
    {
      progress := progress + [Progress(0, None, controller.GetQueue(clients[k].clientId).None?)];
    }
    assert forall id :: id in m ==> Drained(m[id], 0) == m[id];
  }

  lemma AllEnded<T>(v: Queues<T>, clients: seq<ClientBuffer<T>>, m: Queues<T>, offered: Queues<T>,
    progress: seq<Progress<T>>, payload: T)
    requires offered == Offered(m, Ids(clients), payload) && AllDraining(v, clients, offered, progress)
    requires forall k :: 0 <= k < |progress| ==> progress[k].ended
    ensures v == AllRounded(m, Ids(clients), payload)
  {
    forall id | id in m ensures v[id] == AllRounded(m, Ids(clients), payload)[id] {
      if id in Ids(clients) {
        var k :| 0 <= k < |clients| && clients[k].clientId == id;
        EndedIsDrained(offered[id], v[id], progress[k]);
      }
    }
  }

  /** `broadcast_with_bp`, its drains interleaved as the schedule says.  If some queue makes its
      sender wait the call stays suspended in the first `gather`: all queues have taken the
      payload or block its sender, and nothing is drained. */
  method BroadcastWithBp<T(==, !new)>(controller: BackpressureController<T>, clients: seq<ClientBuffer<T>>, payload: T,
    schedule: seq<nat>) returns (completed: bool)
    requires controller.Valid() && InStep(controller, clients) && Distinct(clients)
    modifies controller.queues.Values, clients
    ensures controller.Valid() && InStep(controller, clients)
    ensures completed == Unblocked(old(Views(controller)), Ids(clients))
    ensures completed ==> Views(controller) == AllRounded(old(Views(controller)), Ids(clients), payload)
    ensures !completed ==> Views(controller) == Offered(old(Views(controller)), Ids(clients), payload)
  {
    ghost var m := Views(controller);
    completed := OfferAll(controller, clients, payload, m);
    if !completed { return; }
    ghost var offered := Views(controller);
    var started := StartDrains(controller, clients, offered);
    var progress := Gather(controller, clients, started, schedule, offered);
    AllEnded(Views(controller), clients, m, offered, progress, payload);
  }

  // ------------------------------------------------------------------
  // The round loop of run_benchmark
  // ------------------------------------------------------------------

  /** These rounds went through. */
  ghost predicate WentThrough<T>(m: Queues<T>, v: Queues<T>, ids: set<string>, payloads: seq<T>) {
    && v == Rounds(m, ids, payloads)
    && forall k :: 0 <= k < |payloads| ==> Unblocked(Rounds(m, ids, payloads[..k]), ids)
  }

  /** That many rounds went through; the next one, if there is one, stays suspended. */
  ghost predicate RoundsMade<T>(m: Queues<T>, v: Queues<T>, ids: set<string>, payloads: seq<T>, done: nat) {
    && done <= |payloads|
    && var t := Rounds(m, ids, payloads[..done]);
      && WentThrough(m, t, ids, payloads[..done])
      && if done == |payloads| then v == t else !Unblocked(t, ids) && v == Offered(t, ids, payloads[done])
  }

  lemma NextRound<T>(m: Queues<T>, v: Queues<T>, ids: set<string>, payloads: seq<T>, n: nat)
    requires n < |payloads| && WentThrough(m, v, ids, payloads[..n])
    ensures Unblocked(v, ids) ==> WentThrough(m, AllRounded(v, ids, payloads[n]), ids, payloads[..n + 1])
    ensures !Unblocked(v, ids) ==> RoundsMade(m, Offered(v, ids, payloads[n]), ids, payloads, n)
  {
    var more := payloads[..n + 1];
    assert more[..n] == payloads[..n];
    forall k | 0 <= k < |more| && Unblocked(v, ids) ensures Unblocked(Rounds(m, ids, more[..k]), ids) {
      assert more[..k] == payloads[..k];
      if k < n { assert payloads[..n][..k] == payloads[..k]; }
    }
  }

  method BroadcastRounds<T(==, !new)>(controller: BackpressureController<T>, clients: seq<ClientBuffer<T>>,
    payloads: seq<T>, schedule: nat -> seq<nat>) returns (done: nat)
    requires controller.Valid() && InStep(controller, clients) && Distinct(clients)
    modifies controller.queues.Values, clients
    ensures controller.Valid() && InStep(controller, clients)
    ensures RoundsMade(old(Views(controller)), Views(controller), Ids(clients), payloads, done)
  {
    done := 0;
    ghost var m, ids := Views(controller), Ids(clients);
    while done < |payloads|
      invariant controller.Valid() && InStep(controller, clients) && done <= |payloads|
      invariant WentThrough(m, Views(controller), ids, payloads[..done])
    {
      NextRound(m, Views(controller), ids, payloads, done);
      var completed := BroadcastWithBp(controller, clients, payloads[done], schedule(done));
      if !completed { return; }
      done := done + 1;
    }
    assert payloads[..|payloads|] == payloads;
  }

  /** Rounds that DROP_OLDEST queues with room for a message went through. */
  lemma GotThrough<T>(m: Queues<T>, t: Queues<T>, ids: set<string>, payloads: seq<T>)
    requires t == Rounds(m, ids, payloads)
    requires forall id :: id in m && id in ids ==>
      m[id].q.strategy == DropOldest && 1 <= m[id].q.max && m[id].q.items == []
    ensures t.Keys == m.Keys && forall id :: id in m && id in ids ==> GotAll(m[id], t[id], payloads)
    ensures Unblocked(t, ids)
  {
    RoundsKeepIds(m, ids, payloads);
    forall id | id in m && id in ids ensures GotAll(m[id], t[id], payloads) { RoundsDeliver(m, ids, payloads, id); }
    OnlyBlockSenderBlocks(t, ids);
  }

  /** In the benchmark no round stays suspended. */
  lemma AllRoundsMade<T>(v: Queues<T>, ids: set<string>, max: int, payloads: seq<T>, done: nat)
    requires 1 <= max && RoundsMade(NewQueues(ids, max), v, ids, payloads, done)
    ensures done == |payloads| && v.Keys == ids
    ensures forall id :: id in ids ==> GotAll(Init<T>(DropOldest, max), v[id], payloads)
  {
    var m := NewQueues<T>(ids, max);
    GotThrough(m, Rounds(m, ids, payloads[..done]), ids, payloads[..done]);
    assert payloads[..|payloads|] == payloads;
  }

  lemma {:induction false} RoundsKeepIds<T>(m: Queues<T>, ids: set<string>, payloads: seq<T>)
    ensures Rounds(m, ids, payloads).Keys == m.Keys
  {
    if payloads != [] { RoundsKeepIds(m, ids, payloads[..|payloads| - 1]); }
  }

  function Names(ids: seq<string>): set<string> { set i | i in ids }

  method NewClients<T>(ids: seq<string>) returns (clients: seq<ClientBuffer<T>>)
    requires forall i, j :: 0 <= i < j < |ids| ==> ids[i] != ids[j]
    ensures |clients| == |ids| && Distinct(clients) && Ids(clients) == Names(ids)
    ensures forall i :: 0 <= i < |ids| ==>
      fresh(clients[i]) && clients[i].clientId == ids[i] && clients[i].received == []
  {
    clients := [];
    for k := 0 to |ids|
      invariant |clients| == k
      invariant forall i :: 0 <= i < k ==>
        fresh(clients[i]) && clients[i].clientId == ids[i] && clients[i].received == []
    {
      var c := new ClientBuffer<T>(ids[k]);
      clients := clients + [c];
    }
    assert forall i :: i in ids ==> exists k :: 0 <= k < |ids| && clients[k].clientId == i;
  }

  method AddOne<T(==, !new)>(controller: BackpressureController<T>, id: string)
    requires controller.Valid()
    modifies controller
    ensures controller.Valid() && controller.queues.Keys == old(controller.queues).Keys + {id}
    ensures forall i :: i in controller.queues ==>
      var q := controller.queues[i];
      if i == id then fresh(q) && q.view == Init(controller.cfg.strategy, controller.cfg.maxQueueSize)
      else q == old(controller.queues)[i] && q.view == old(controller.queues[i].view)
  {
    var _ := controller.AddConnection(id);
  }

  method AddAll<T(==, !new)>(controller: BackpressureController<T>, ids: seq<string>)
    requires controller.Valid() && controller.queues == map[] && controller.cfg.strategy == DropOldest
    modifies controller
    ensures controller.Valid() && controller.queues.Keys == Names(ids)
    ensures forall i :: i in controller.queues ==>
      fresh(controller.queues[i]) && controller.queues[i].view == Init(DropOldest, controller.cfg.maxQueueSize)
  {
    for k := 0 to |ids|
      invariant controller.Valid() && controller.queues.Keys == Names(ids[..k])
      invariant forall i :: i in controller.queues ==>
        fresh(controller.queues[i]) && controller.queues[i].view == Init(DropOldest, controller.cfg.maxQueueSize)
    {
      assert ids[..k + 1] == ids[..k] + [ids[k]];
      AddOne(controller, ids[k]);
    }
    assert ids[..|ids|] == ids;
  }

  method Prepare<T(==, !new)>(ids: seq<string>, max: int)
    returns (controller: BackpressureController<T>, clients: seq<ClientBuffer<T>>)
    requires 0 <= max && forall i, j :: 0 <= i < j < |ids| ==> ids[i] != ids[j]
    ensures fresh(controller) && controller.cfg.maxQueueSize == max
    ensures fresh(controller.queues.Values) && fresh(clients)
    ensures controller.Valid() && InStep(controller, clients) && Distinct(clients)
    ensures |clients| == |ids| && Ids(clients) == Names(ids)
    ensures forall i :: 0 <= i < |ids| ==> clients[i].clientId == ids[i]
    ensures Views(controller) == NewQueues(Names(ids), max)
  {
    clients := NewClients(ids);
    controller := new BackpressureController(BackpressureConfig(max, DropOldest));
    AddAll(controller, ids);
    assert forall c :: c in clients ==> c.received == [];
  }

  method RunRounds<T(==, !new)>(controller: BackpressureController<T>, clients: seq<ClientBuffer<T>>,
    payloads: seq<T>, schedule: nat -> seq<nat>)
    requires controller.Valid() && InStep(controller, clients) && Distinct(clients)
    requires 1 <= controller.cfg.maxQueueSize
    requires Views(controller) == NewQueues(Ids(clients), controller.cfg.maxQueueSize)
    modifies controller.queues.Values, clients
    ensures controller.Valid()
    ensures forall c :: c in clients ==>
      && c.received == payloads
      && c.clientId in controller.queues && controller.queues[c.clientId].Depth() == 0
      && controller.queues[c.clientId].stats.dropped == (if controller.cfg.maxQueueSize == 1 then |payloads| else 0)
  {
    ghost var ids, max := Ids(clients), controller.cfg.maxQueueSize;
    var done := BroadcastRounds(controller, clients, payloads, schedule);
    AllRoundsMade(Views(controller), ids, max, payloads, done);
    forall c | c in clients
      ensures c.clientId in controller.queues
      ensures GotAll(Init<T>(DropOldest, max), controller.queues[c.clientId].view, payloads)
    {
      assert c.clientId in Views(controller);
    }
  }

  /** A whole benchmark run with backpressure: each client ends up with exactly the
      payloads, however the drains of each round are interleaved. */
  method RunBenchmark<T(==, !new)>(ids: seq<string>, max: int, payloads: seq<T>, schedule: nat -> seq<nat>)
    returns (controller: BackpressureController<T>, clients: seq<ClientBuffer<T>>)
    requires 1 <= max && forall i, j :: 0 <= i < j < |ids| ==> ids[i] != ids[j]
    ensures |clients| == |ids|
    ensures forall i :: 0 <= i < |ids| ==>
      && clients[i].clientId == ids[i] && clients[i].received == payloads
      && ids[i] in controller.queues && controller.queues[ids[i]].Depth() == 0
      && controller.queues[ids[i]].stats.dropped == (if max == 1 then |payloads| else 0)
  {
    controller, clients := Prepare(ids, max);
    RunRounds(controller, clients, payloads, schedule);
  }
}
