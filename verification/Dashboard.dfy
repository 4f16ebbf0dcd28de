/** `ConnectionManager` and `client_handler` as the program keeps them. */
module Dashboard {
  import opened PubSubModel
  import opened PubSub
  import opened PubSubIndependence
  import opened DashboardModel
  import DashboardRuns
  import PubSubRuns
  import opened Shutdown
  import opened Backpressure

  class DashboardSocket {
    var received: seq<Payload>
    var closed: bool

    constructor ()
      ensures received == [] && !closed
    {
      received, closed := [], false;
    }

    /** The result says whether RuntimeError was raised instead. */
    method SendJson(data: Payload) returns (raised: bool)
      modifies this
      ensures raised == closed == old(closed)
      ensures received == if raised then old(received) else old(received) + [data]
    {
      raised := closed;
      if !closed { received := received + [data]; }
    }

    method Disconnect()
      modifies this
      ensures closed && received == old(received)
    {
      closed := true;
    }
  }

  class ConnectionManager {
    const registry: ConnectionRegistry
    const bp: BackpressureController<Payload>

    /** The two stores are in step. */
    ghost predicate Valid()
      reads this, registry, registry.world, registry.Sockets(), bp, bp.queues.Values
    {
      registry.Valid() && bp.Valid() && registry.connections.Keys == bp.queues.Keys
    }

    constructor (registry: ConnectionRegistry, config: BackpressureConfig)
      requires registry.Valid() && registry.connections == map[]
      requires SendQueueModel.Constructible(config.strategy, config.maxQueueSize)
      ensures Valid() && this.registry == registry && fresh(bp) && bp.cfg == config
    {
      this.registry := registry;
      bp := new BackpressureController(config);
    }

    method Connect(conn: string, task: AsyncTask)
      requires Valid() && task in registry.view.tasks
      modifies registry, bp
      ensures Valid() && registry.view.tasks == old(registry.view).tasks
      ensures registry.connections == old(registry.connections)[conn := task]
      ensures conn in bp.queues && fresh(bp.queues[conn])
      ensures bp.queues == old(bp.queues)[conn := bp.queues[conn]]
    {
      RegisterOnly(conn, task);
      AddQueueOnly(conn);
    }

    /** `connect` as far as the registry goes. */
    method RegisterOnly(conn: string, task: AsyncTask)
      requires registry.Valid() && bp.Valid() && task in registry.view.tasks
      modifies registry
      ensures registry.Valid() && bp.Valid() && registry.view.tasks == old(registry.view).tasks
      ensures registry.connections == old(registry.connections)[conn := task]
    {
      registry.Register(conn, task);
    }

    method AddQueueOnly(conn: string)
      requires registry.Valid() && bp.Valid()
      modifies bp
      ensures registry.Valid() && bp.Valid()
      ensures conn in bp.queues && fresh(bp.queues[conn])
      ensures bp.queues == old(bp.queues)[conn := bp.queues[conn]]
    {
      var _ := bp.AddConnection(conn);
    }

    method Disconnect(conn: string)
      requires Valid()
      modifies registry, bp
      ensures Valid() && registry.view.tasks == old(registry.view).tasks
      ensures registry.connections == old(registry.connections) - {conn}
      ensures bp.queues == old(bp.queues) - {conn}
    {
      registry.Deregister(conn);
      bp.RemoveConnection(conn);
    }
  }

  // ------------------------------------------------------------------
  // What other code does while a handler waits
  // ------------------------------------------------------------------

  /** On the bus: publishers, and the handlers of other clients.  The subscribers of the others are
      numbered in the order in which they came; a number that nobody has yet does nothing. */
  datatype Other =
    | PublishTo(channel: string, payload: Payload, publisherId: string, skipLagging: bool)
    | CloseTo(channel: string)
    | Join(channel: string, id: string, max: int)
    | Quit(peer: nat)
    | Resume(peer: nat)

  /** What happens until a waiting handler could be resumed: what others do, whether it is
      cancelled instead, and whether its deadline has passed once it has sent the message. */
  datatype Moment = Moment(others: seq<Other>, cancelled: bool, expired: bool)

  /** The subscribers of the others, all of them known to the bus. */
  ghost predicate Peers(peers: seq<Subscriber>, b: Bus<Subscriber>) { forall s :: s in peers ==> s in b.subs }

  ghost predicate Among(sub: Subscriber, peers: seq<Subscriber>, b: Bus<Subscriber>) {
    sub in b.subs && sub !in peers && Peers(peers, b)
  }

  function Joins(others: seq<Other>): nat {
    if others == [] then 0 else Joins(others[..|others| - 1]) + if others[|others| - 1].Join? then 1 else 0
  }

  /** The call on the bus that this is, with n of all the others' subscribers there. */
  function OneCall(o: Other, all: seq<Subscriber>, n: nat): seq<Event<Subscriber>> {
    match o
    case PublishTo(channel, payload, publisherId, skip) => [Publish(Message(channel, payload, publisherId), skip)]
    case CloseTo(channel) => [CloseChannel(channel)]
    case Join(channel, _, max) => if n < |all| then [Subscribe(all[n], channel, max)] else []
    case Quit(peer) => if peer < n <= |all| then [Unsubscribe(all[peer])] else []
    case Resume(peer) => if peer < n <= |all| then [Next(all[peer])] else []
  }

  /** The calls on the bus that these are, in order. */
  function Calls(others: seq<Other>, all: seq<Subscriber>, n: nat): seq<Event<Subscriber>> {
    if others == [] then []
    else
      var before := others[..|others| - 1];
      Calls(before, all, n) + OneCall(others[|others| - 1], all, n + Joins(before))
  }

  lemma {:induction false} CallsStay(others: seq<Other>, all: seq<Subscriber>, more: seq<Subscriber>, n: nat)
    requires n + Joins(others) <= |all| && all <= more
    ensures Calls(others, more, n) == Calls(others, all, n)
  {
    if others != [] { CallsStay(others[..|others| - 1], all, more, n); }
  }

  /** From these peers to those, others made these calls. */
  ghost predicate Called(others: seq<Other>, did: seq<Event<Subscriber>>, peers: seq<Subscriber>,
    now: seq<Subscriber>)
  {
    && peers <= now && |now| == |peers| + Joins(others)
    && did == Calls(others, now, |peers|)
  }

  lemma CalledOneMore(others: seq<Other>, i: nat, did: seq<Event<Subscriber>>, more: seq<Event<Subscriber>>,
    peers: seq<Subscriber>, now: seq<Subscriber>, next: seq<Subscriber>)
    requires i < |others| && Called(others[..i], did, peers, now)
    requires now <= next && |next| == |now| + (if others[i].Join? then 1 else 0)
    requires more == OneCall(others[i], next, |now|)
    ensures Called(others[..i + 1], did + more, peers, next)
  {
    assert others[..i + 1][..i] == others[..i];
    CallsStay(others[..i], now, next, |peers|);
  }

  /** From bus b to bus t: these events, in which a subscriber yielded `got`. */
  ghost predicate Ran(b: Bus<Subscriber>, t: Bus<Subscriber>, did: seq<Event<Subscriber>>, sub: Subscriber,
    got: seq<Message>)
  {
    && t == Exec(b, did) && sub in b.subs && b.subs.Keys <= t.subs.Keys
    && t.subs[sub].h.yielded == b.subs[sub].h.yielded + got
  }

  lemma NothingRan(b: Bus<Subscriber>, sub: Subscriber)
    requires sub in b.subs
    ensures Ran(b, b, [], sub, [])
  {}

  lemma {:induction false} ExecAppend<S>(b: Bus<S>, first: seq<Event<S>>, second: seq<Event<S>>)
    ensures Exec(b, first + second) == Exec(Exec(b, first), second)
  {
    if second == [] {
      assert first + second == first;
    } else {
      ExecAppend(b, first, second[..|second| - 1]);
      assert (first + second)[..|first + second| - 1] == first + second[..|second| - 1];
    }
  }

  lemma YieldedOn(a: seq<Message>, b: seq<Message>, c: seq<Message>, got: seq<Message>, next: seq<Message>)
    requires b == a + got && c == b + next
    ensures c == a + (got + next)
  {}

  lemma RanOn(b: Bus<Subscriber>, t: Bus<Subscriber>, u: Bus<Subscriber>,
    did: seq<Event<Subscriber>>, more: seq<Event<Subscriber>>, sub: Subscriber, got: seq<Message>, next: seq<Message>)
    requires Ran(b, t, did, sub, got) && Ran(t, u, more, sub, next)
    ensures Ran(b, u, did + more, sub, got + next)
  {
    ExecAppend(b, did, more);
    YieldedOn(b.subs[sub].h.yielded, t.subs[sub].h.yielded, u.subs[sub].h.yielded, got, next);
  }

  /** Somebody else's event leaves what the subscriber yielded as it is. */
  lemma OtherKeeps(b: Bus<Subscriber>, e: Event<Subscriber>, sub: Subscriber)
    requires sub in b.subs && !Own(e, sub)
    ensures var t := Apply(b, e);
      && b.subs.Keys <= t.subs.Keys && t.subs[sub].h.yielded == b.subs[sub].h.yielded
      && t.subs[sub].finished == b.subs[sub].finished
  {}

  lemma OtherRan(b: Bus<Subscriber>, t: Bus<Subscriber>, e: Event<Subscriber>, sub: Subscriber)
    requires sub in b.subs && !Own(e, sub) && t == Apply(b, e)
    ensures Ran(b, t, [e], sub, []) && t.subs[sub].finished == b.subs[sub].finished
  {
    OtherKeeps(b, e, sub);
    PubSubRuns.ExecStep(b, [], e);
    assert [] + [e] == [e];
  }

  method OneOther(bus: InMemoryMessageBus, o: Other, peers: seq<Subscriber>, ghost sub: Subscriber)
    returns (now: seq<Subscriber>, ghost did: seq<Event<Subscriber>>)
    requires bus.Valid() && Among(sub, peers, bus.view)
    modifies bus, bus.view.subs.Keys
    ensures bus.Valid() && (old(bus.Sound()) ==> bus.Sound())
    ensures (did == [] && bus.view == old(bus.view))
         || (|did| == 1 && !Own(did[0], sub) && bus.view == Apply(old(bus.view), did[0]))
    ensures Among(sub, now, bus.view) && peers <= now && |now| == |peers| + (if o.Join? then 1 else 0)
    ensures did == OneCall(o, now, |peers|)
    ensures old(bus.view).subs.Keys <= bus.view.subs.Keys && fresh(bus.view.subs.Keys - old(bus.view).subs.Keys)
  {
    now, did := peers, [];
    match o {
      case PublishTo(channel, payload, publisherId, skip) =>
        var _ := bus.Publish(channel, payload, publisherId, skip);
        did := [Publish(Message(channel, payload, publisherId), skip)];
      case CloseTo(channel) =>
        bus.CloseChannel(channel);
        did := [CloseChannel(channel)];
      case Join(channel, id, max) =>
        var s := bus.Subscribe(channel, id, max);
        now, did := peers + [s], [Subscribe(s, channel, max)];
      case Quit(peer) =>
        if peer < |peers| {
          bus.Unsubscribe(peers[peer]);
          did := [Unsubscribe(peers[peer])];
        }
      case Resume(peer) =>
        if peer < |peers| {
          var _ := bus.Next(peers[peer]);
          did := [Next(peers[peer])];
        }
    }
  }

  /** What others did was their own. */
  lemma OthersRan(b: Bus<Subscriber>, t: Bus<Subscriber>, did: seq<Event<Subscriber>>, sub: Subscriber)
    requires sub in b.subs
    requires (did == [] && t == b) || (|did| == 1 && !Own(did[0], sub) && t == Apply(b, did[0]))
    ensures Ran(b, t, did, sub, []) && t.subs[sub].finished == b.subs[sub].finished
  {
    if did == [] {
      NothingRan(b, sub);
    } else {
      OtherRan(b, t, did[0], sub);
      assert did == [did[0]];
    }
  }

  method Suspend(bus: InMemoryMessageBus, others: seq<Other>, peers: seq<Subscriber>, ghost sub: Subscriber)
    returns (now: seq<Subscriber>, ghost did: seq<Event<Subscriber>>)
    requires bus.Valid() && Among(sub, peers, bus.view)
    modifies bus, bus.view.subs.Keys
    ensures bus.Valid() && (old(bus.Sound()) ==> bus.Sound())
    ensures Ran(old(bus.view), bus.view, did, sub, []) && sub.finished == old(sub.finished)
    ensures Among(sub, now, bus.view) && fresh(bus.view.subs.Keys - old(bus.view).subs.Keys)
    ensures Called(others, did, peers, now)
  {
    now, did := peers, [];
    NothingRan(bus.view, sub);
    for i := 0 to |others|
      invariant bus.Valid() && (old(bus.Sound()) ==> bus.Sound())
      invariant Ran(old(bus.view), bus.view, did, sub, []) && sub.finished == old(sub.finished)
      invariant Among(sub, now, bus.view) && fresh(bus.view.subs.Keys - old(bus.view).subs.Keys)
      invariant Called(others[..i], did, peers, now)
    {
      ghost var before, was := bus.view, now;
      ghost var more;
      now, more := OneOther(bus, others[i], now, sub);
      CalledOneMore(others, i, did, more, peers, was, now);
      OthersRan(before, bus.view, more, sub);
      RanOn(old(bus.view), before, bus.view, did, more, sub, [], []);
      did := did + more;
    }
    assert others[..|others|] == others;
  }

  // ------------------------------------------------------------------
  // client_handler
  // ------------------------------------------------------------------

  /** A moment as the handler lived it: what others called on the bus, the bus it found then and the one
      it left behind, and the others' subscribers. */
  datatype Lived = Lived(
    did: seq<Event<Subscriber>>, found: Bus<Subscriber>, behind: Bus<Subscriber>, peers: seq<Subscriber>)

  /** What waits for the subscriber. */
  function Waiting(b: Bus<Subscriber>, sub: Subscriber): seq<Item> { if sub in b.subs then b.subs[sub].queue else [] }

  /** A moment ends the loop if the handler is cancelled, meets the sentinel, or finds a message when its
      deadline has passed (or its socket is closed). */
  predicate EndsLoop(m: Moment, queue: seq<Item>, wasClosed: bool) {
    m.cancelled || (queue != [] && (queue[0].Sentinel? || m.expired || wasClosed))
  }

  /** The message it takes then. */
  function TakenAt(m: Moment, queue: seq<Item>): seq<Message> {
    if !m.cancelled && queue != [] && queue[0].Data? then [queue[0].msg] else []
  }

  /** The bus, and the others' subscribers, after that many moments. */
  function BusAfter(start: Bus<Subscriber>, lived: seq<Lived>, k: nat): Bus<Subscriber>
    requires k <= |lived|
  {
    if k == 0 then start else lived[k - 1].behind
  }

  function PeersAfter(peers: seq<Subscriber>, lived: seq<Lived>, k: nat): seq<Subscriber>
    requires k <= |lived|
  {
    if k == 0 then peers else lived[k - 1].peers
  }

  /** Others do what the script says, and that leads to the bus the handler finds; unless it is
      cancelled it takes the head of its queue. */
  ghost predicate LivesThrough(m: Moment, b: Bus<Subscriber>, life: Lived, peers: seq<Subscriber>, sub: Subscriber) {
    && Called(m.others, life.did, peers, life.peers)
    && life.found == Exec(b, life.did)
    && life.behind == if !m.cancelled && Waiting(life.found, sub) != [] then Apply(life.found, Next(sub))
                      else life.found
  }

  /** The messages taken in that many moments. */
  function TakenIn(script: seq<Moment>, lived: seq<Lived>, sub: Subscriber, k: nat): seq<Message>
    requires k <= |lived| <= |script|
  {
    if k == 0 then []
    else TakenIn(script, lived, sub, k - 1) + TakenAt(script[k - 1], Waiting(lived[k - 1].found, sub))
  }

  ghost predicate LivesAt(start: Bus<Subscriber>, script: seq<Moment>, lived: seq<Lived>, sub: Subscriber,
    peers: seq<Subscriber>, k: nat)
    requires |lived| <= |script|
  {
    k < |lived| && LivesThrough(script[k], BusAfter(start, lived, k), lived[k], PeersAfter(peers, lived, k), sub)
  }

  predicate EndsAt(script: seq<Moment>, lived: seq<Lived>, sub: Subscriber, wasClosed: bool, k: nat)
    requires k < |lived| <= |script|
  {
    EndsLoop(script[k], Waiting(lived[k].found, sub), wasClosed)
  }

  /** The loop of the handler over its script: it is left at the first moment that ends it. */
  ghost predicate Loop(start: Bus<Subscriber>, script: seq<Moment>, lived: seq<Lived>, sub: Subscriber,
    peers: seq<Subscriber>, wasClosed: bool, left: bool)
  {
    && |lived| <= |script|
    && (forall k: nat :: k < |lived| ==> LivesAt(start, script, lived, sub, peers, k))
    && (forall k: nat :: k < |lived| ==> (EndsAt(script, lived, sub, wasClosed, k) <==> left && k == |lived| - 1))
    && (left ==> lived != [])
  }

  lemma {:induction false} TakenStays(script: seq<Moment>, lived: seq<Lived>, life: Lived, sub: Subscriber, k: nat)
    requires k <= |lived| < |script|
    ensures TakenIn(script, lived + [life], sub, k) == TakenIn(script, lived, sub, k)
  {
    if k != 0 { TakenStays(script, lived, life, sub, k - 1); }
  }

  lemma TakenOneMore(script: seq<Moment>, lived: seq<Lived>, life: Lived, sub: Subscriber)
    requires |lived| < |script|
    ensures TakenIn(script, lived + [life], sub, |lived| + 1)
            == TakenIn(script, lived, sub, |lived|) + TakenAt(script[|lived|], Waiting(life.found, sub))
  {
    TakenStays(script, lived, life, sub, |lived|);
  }

  lemma LivesStay(start: Bus<Subscriber>, script: seq<Moment>, lived: seq<Lived>, life: Lived, sub: Subscriber,
    peers: seq<Subscriber>, k: nat)
    requires |lived| < |script| && LivesAt(start, script, lived, sub, peers, k)
    ensures LivesAt(start, script, lived + [life], sub, peers, k)
  {
    var more := lived + [life];
    assert BusAfter(start, more, k) == BusAfter(start, lived, k) && more[k] == lived[k];
    assert PeersAfter(peers, more, k) == PeersAfter(peers, lived, k);
  }

  lemma LivesOnce(start: Bus<Subscriber>, script: seq<Moment>, lived: seq<Lived>, life: Lived, sub: Subscriber,
    peers: seq<Subscriber>)
    requires |lived| < |script|
    requires LivesThrough(script[|lived|], BusAfter(start, lived, |lived|), life,
                          PeersAfter(peers, lived, |lived|), sub)
    ensures LivesAt(start, script, lived + [life], sub, peers, |lived|)
  {
    var n, more := |lived|, lived + [life];
    assert BusAfter(start, more, n) == BusAfter(start, lived, n) && more[n] == life;
    assert PeersAfter(peers, more, n) == PeersAfter(peers, lived, n);
  }

  lemma EndsAsBefore(script: seq<Moment>, lived: seq<Lived>, life: Lived, sub: Subscriber, wasClosed: bool)
    requires |lived| < |script|
    ensures forall k: nat :: k < |lived| ==>
      (EndsAt(script, lived + [life], sub, wasClosed, k) <==> EndsAt(script, lived, sub, wasClosed, k))
    ensures EndsAt(script, lived + [life], sub, wasClosed, |lived|)
            <==> EndsLoop(script[|lived|], Waiting(life.found, sub), wasClosed)
  {}

  /** One more moment. */
  lemma LoopGoesOn(start: Bus<Subscriber>, script: seq<Moment>, lived: seq<Lived>, life: Lived, sub: Subscriber,
    peers: seq<Subscriber>, wasClosed: bool)
    requires |lived| < |script| && Loop(start, script, lived, sub, peers, wasClosed, false)
    requires LivesThrough(script[|lived|], BusAfter(start, lived, |lived|), life,
                          PeersAfter(peers, lived, |lived|), sub)
    ensures Loop(start, script, lived + [life], sub, peers, wasClosed,
                 EndsLoop(script[|lived|], Waiting(life.found, sub), wasClosed))
  {
    var n, more := |lived|, lived + [life];
    LivesOnce(start, script, lived, life, sub, peers);
    forall k: nat | k < n ensures LivesAt(start, script, more, sub, peers, k) {
      LivesStay(start, script, lived, life, sub, peers, k);
    }
    EndsAsBefore(script, lived, life, sub, wasClosed);
  }

  lemma OneMoreMoment(start: Bus<Subscriber>, script: seq<Moment>, lived: seq<Lived>, life: Lived, sub: Subscriber,
    peers: seq<Subscriber>, wasClosed: bool, got: seq<Message>, got': seq<Message>) returns (more: seq<Lived>)
    requires |lived| < |script| && Loop(start, script, lived, sub, peers, wasClosed, false)
    requires LivesThrough(script[|lived|], BusAfter(start, lived, |lived|), life,
                          PeersAfter(peers, lived, |lived|), sub)
    requires got == TakenIn(script, lived, sub, |lived|)
    requires got' == got + TakenAt(script[|lived|], Waiting(life.found, sub))
    ensures |more| == |lived| + 1
    ensures Loop(start, script, more, sub, peers, wasClosed,
                 EndsLoop(script[|lived|], Waiting(life.found, sub), wasClosed))
    ensures life.behind == BusAfter(start, more, |more|) && life.peers == PeersAfter(peers, more, |more|)
    ensures got' == TakenIn(script, more, sub, |more|)
  {
    more := lived + [life];
    LoopGoesOn(start, script, lived, life, sub, peers, wasClosed);
    TakenOneMore(script, lived, life, sub);
  }

  /** What was received: the payloads of what was yielded, unless the socket was closed from the start. */
  function Sent(wasClosed: bool, got: seq<Message>): seq<Payload> { if wasClosed then [] else Payloads(got) }

  lemma NextRan(b: Bus<Subscriber>, t: Bus<Subscriber>, sub: Subscriber, got: seq<Message>)
    requires sub in b.subs && t == Apply(b, Next(sub)) && sub in t.subs
    requires t.subs[sub].h.yielded == b.subs[sub].h.yielded + got
    ensures Ran(b, t, [Next(sub)], sub, got)
  {
    PubSubRuns.ExecStep(b, [], Next(sub));
    assert [] + [Next(sub)] == [Next(sub)];
  }

  /** One resumption with a message or the sentinel; `leaves` ends the loop. */
  method TakeOne(ws: DashboardSocket, bus: InMemoryMessageBus, sub: Subscriber, expired: bool)
    returns (leaves: bool, raised: bool, ghost got: seq<Message>)
    requires bus.Valid() && sub in bus.view.subs && sub.queue != [] && !sub.finished
    modifies ws, bus, sub
    ensures bus.Valid() && bus.view.subs.Keys == old(bus.view).subs.Keys && (old(bus.Sound()) ==> bus.Sound())
    ensures Ran(old(bus.view), bus.view, [Next(sub)], sub, got)
    ensures bus.view == Apply(old(bus.view), Next(sub))
    ensures ws.closed == old(ws.closed) && (raised <==> ws.closed && got != [])
    ensures leaves == (old(sub.queue)[0].Sentinel? || expired || ws.closed) && (sub.finished ==> leaves)
    ensures got == if old(sub.queue)[0].Data? then [old(sub.queue)[0].msg] else []
    ensures ws.received == old(ws.received) + Sent(ws.closed, got)
  {
    var msg := bus.Next(sub);
    raised, leaves, got := false, true, [];
    if msg.Some? {
      raised := ws.SendJson(msg.value.payload);
      leaves, got := raised || expired, [msg.value];
      assert Payloads([msg.value]) == [msg.value.payload];
    }
    NextRan(old(bus.view), bus.view, sub, got);
  }

  /** What the handler does about what it finds, after its wait. */
  method TakeIfAny(ws: DashboardSocket, bus: InMemoryMessageBus, sub: Subscriber, m: Moment)
    returns (leaves: bool, raised: bool, ghost did: seq<Event<Subscriber>>, ghost got: seq<Message>)
    requires bus.Valid() && sub in bus.view.subs && !sub.finished
    modifies ws, bus, sub
    ensures bus.Valid() && bus.view.subs.Keys == old(bus.view).subs.Keys && (old(bus.Sound()) ==> bus.Sound())
    ensures Ran(old(bus.view), bus.view, did, sub, got)
    ensures ws.closed == old(ws.closed) && (raised <==> ws.closed && got != []) && (!leaves ==> !sub.finished)
    ensures ws.received == old(ws.received) + Sent(ws.closed, got)
    ensures leaves == EndsLoop(m, Waiting(old(bus.view), sub), ws.closed)
    ensures got == TakenAt(m, Waiting(old(bus.view), sub))
    ensures bus.view == if !m.cancelled && Waiting(old(bus.view), sub) != [] then Apply(old(bus.view), Next(sub))
                        else old(bus.view)
  {
    leaves, raised, got, did := m.cancelled, false, [], [];
    NothingRan(bus.view, sub);
    if !m.cancelled && sub.queue != [] {
      leaves, raised, got := TakeOne(ws, bus, sub, m.expired);
      did := [Next(sub)];
    }
  }

  /** One wait of the handler, and what follows. */
  method OneMoment(ws: DashboardSocket, bus: InMemoryMessageBus, sub: Subscriber, m: Moment, peers: seq<Subscriber>)
    returns (now: seq<Subscriber>, leaves: bool, raised: bool,
      ghost did: seq<Event<Subscriber>>, ghost got: seq<Message>, ghost life: Lived)
    requires bus.Valid() && Among(sub, peers, bus.view) && !sub.finished
    modifies ws, bus, bus.view.subs.Keys
    ensures bus.Valid() && (old(bus.Sound()) ==> bus.Sound())
    ensures Ran(old(bus.view), bus.view, did, sub, got) && Among(sub, now, bus.view)
    ensures fresh(bus.view.subs.Keys - old(bus.view).subs.Keys)
    ensures ws.closed == old(ws.closed) && (raised <==> ws.closed && got != []) && (!leaves ==> !sub.finished)
    ensures ws.received == old(ws.received) + Sent(ws.closed, got)
    ensures LivesThrough(m, old(bus.view), life, peers, sub) && life.peers == now && life.behind == bus.view
    ensures leaves == EndsLoop(m, Waiting(life.found, sub), ws.closed)
    ensures got == TakenAt(m, Waiting(life.found, sub))
  {
    now, did := Suspend(bus, m.others, peers, sub);
    ghost var before, calls, more := bus.view, did, [];
    leaves, raised, more, got := TakeIfAny(ws, bus, sub, m);
    RanOn(old(bus.view), before, bus.view, did, more, sub, [], got);
    assert [] + got == got;
    life := Lived(calls, before, bus.view, now);
    did := did + more;
  }

  lemma SentMore(wasClosed: bool, got: seq<Message>, next: seq<Message>,
    first: seq<Payload>, r: seq<Payload>, r': seq<Payload>)
    requires r == first + Sent(wasClosed, got) && r' == r + Sent(wasClosed, next)
    ensures r' == first + Sent(wasClosed, got + next)
  {
    DashboardRuns.PayloadsAdd(got, next);
    Associate(first, Sent(wasClosed, got), Sent(wasClosed, next));
  }

  lemma Associate<T>(a: seq<T>, b: seq<T>, c: seq<T>)
    ensures a + b + c == a + (b + c)
  {}

  /** One iteration of the loop, after those that did `did` on bus `b` and yielded `got`. */
  method ServeMoment(ws: DashboardSocket, bus: InMemoryMessageBus, sub: Subscriber, m: Moment, peers: seq<Subscriber>,
    ghost b: Bus<Subscriber>, ghost did: seq<Event<Subscriber>>, ghost got: seq<Message>, ghost first: seq<Payload>)
    returns (now: seq<Subscriber>, leaves: bool, raised: bool,
      ghost did': seq<Event<Subscriber>>, ghost got': seq<Message>, ghost life: Lived)
    requires bus.Valid() && Among(sub, peers, bus.view) && !sub.finished
    requires Ran(b, bus.view, did, sub, got) && ws.received == first + Sent(ws.closed, got)
    modifies ws, bus, bus.view.subs.Keys
    ensures bus.Valid() && (old(bus.Sound()) ==> bus.Sound())
    ensures old(bus.view).subs.Keys <= bus.view.subs.Keys && fresh(bus.view.subs.Keys - old(bus.view).subs.Keys)
    ensures ws.closed == old(ws.closed) && (!leaves ==> !sub.finished)
    ensures Ran(b, bus.view, did', sub, got') && ws.received == first + Sent(ws.closed, got')
    ensures Among(sub, now, bus.view)
    ensures LivesThrough(m, old(bus.view), life, peers, sub) && life.peers == now && life.behind == bus.view
    ensures leaves == EndsLoop(m, Waiting(life.found, sub), ws.closed)
    ensures got' == got + TakenAt(m, Waiting(life.found, sub))
    ensures raised <==> ws.closed && TakenAt(m, Waiting(life.found, sub)) != []
  {
    ghost var more, next;
    now, leaves, raised, more, next, life := OneMoment(ws, bus, sub, m, peers);
    RanOn(b, old(bus.view), bus.view, did, more, sub, got, next);
    SentMore(ws.closed, got, next, first, old(ws.received), ws.received);
    did', got' := did + more, got + next;
  }

  /** The same, as one more moment of the script. */
  method ServeNext(ws: DashboardSocket, bus: InMemoryMessageBus, sub: Subscriber, m: Moment,
    now: seq<Subscriber>, ghost script: seq<Moment>, ghost peers: seq<Subscriber>, ghost lived: seq<Lived>,
    ghost b: Bus<Subscriber>, ghost did: seq<Event<Subscriber>>, ghost got: seq<Message>, ghost first: seq<Payload>)
    returns (now': seq<Subscriber>, leaves: bool, raised: bool,
      ghost did': seq<Event<Subscriber>>, ghost got': seq<Message>, ghost lived': seq<Lived>)
    requires bus.Valid() && Among(sub, now, bus.view) && !sub.finished
    requires Ran(b, bus.view, did, sub, got) && ws.received == first + Sent(ws.closed, got)
    requires Loop(b, script, lived, sub, peers, ws.closed, false) && |lived| < |script| && m == script[|lived|]
    requires bus.view == BusAfter(b, lived, |lived|) && now == PeersAfter(peers, lived, |lived|)
    requires got == TakenIn(script, lived, sub, |lived|) && (ws.closed ==> got == [])
    modifies ws, bus, bus.view.subs.Keys
    ensures bus.Valid() && (old(bus.Sound()) ==> bus.Sound())
    ensures old(bus.view).subs.Keys <= bus.view.subs.Keys && fresh(bus.view.subs.Keys - old(bus.view).subs.Keys)
    ensures ws.closed == old(ws.closed) && (!leaves ==> !sub.finished)
    ensures Ran(b, bus.view, did', sub, got') && ws.received == first + Sent(ws.closed, got')
    ensures Among(sub, now', bus.view) && |lived'| == |lived| + 1
    ensures Loop(b, script, lived', sub, peers, ws.closed, leaves)
    ensures bus.view == BusAfter(b, lived', |lived'|) && now' == PeersAfter(peers, lived', |lived'|)
    ensures got' == TakenIn(script, lived', sub, |lived'|)
    ensures (raised <==> ws.closed && got' != []) && (ws.closed && !leaves ==> got' == [])
  {
    ghost var life;
    now', leaves, raised, did', got', life := ServeMoment(ws, bus, sub, m, now, b, did, got, first);
    lived' := OneMoreMoment(b, script, lived, life, sub, peers, ws.closed, got, got');
  }

  /** The loop of `client_handler`.  After the last moment of the script the handler is cancelled. */
  method ServeFeed(ws: DashboardSocket, bus: InMemoryMessageBus, sub: Subscriber, script: seq<Moment>,
    peers: seq<Subscriber>)
    returns (raised: bool, ghost did: seq<Event<Subscriber>>, ghost got: seq<Message>,
      ghost lived: seq<Lived>, ghost left: bool)
    requires bus.Valid() && Among(sub, peers, bus.view) && !sub.finished
    modifies ws, bus, bus.view.subs.Keys
    ensures bus.Valid() && (old(bus.Sound()) ==> bus.Sound())
    ensures Ran(old(bus.view), bus.view, did, sub, got)
    ensures fresh(bus.view.subs.Keys - old(bus.view).subs.Keys)
    ensures ws.closed == old(ws.closed) && (raised <==> ws.closed && got != [])
    ensures ws.received == old(ws.received) + Sent(ws.closed, got)
    ensures Loop(old(bus.view), script, lived, sub, peers, ws.closed, left)
    ensures bus.view == BusAfter(old(bus.view), lived, |lived|) && got == TakenIn(script, lived, sub, |lived|)
    ensures !left ==> |lived| == |script|
  {
    raised, did, got, lived := false, [], [], [];
    NothingRan(bus.view, sub);
    var leaves, now, k := false, peers, 0;
    while !leaves && k < |script|
      invariant bus.Valid() && (old(bus.Sound()) ==> bus.Sound())
      invariant Ran(old(bus.view), bus.view, did, sub, got) && ws.received == old(ws.received) + Sent(ws.closed, got)
      invariant fresh(bus.view.subs.Keys - old(bus.view).subs.Keys) && Among(sub, now, bus.view)
      invariant ws.closed == old(ws.closed) && (raised <==> ws.closed && got != []) && (!leaves ==> !sub.finished)
      invariant k == |lived| <= |script| && now == PeersAfter(peers, lived, k)
      invariant Loop(old(bus.view), script, lived, sub, peers, ws.closed, leaves)
      invariant bus.view == BusAfter(old(bus.view), lived, k) && got == TakenIn(script, lived, sub, k)
      invariant ws.closed && !leaves ==> got == []
      decreases |script| - k
    {
      now, leaves, raised, did, got, lived :=
        ServeNext(ws, bus, sub, script[k], now, script, peers, lived, old(bus.view), did, got, old(ws.received));
      k := k + 1;
    }
    left := leaves;
  }

  /** From bus b to bus t a new subscriber came, was served, and went, while others did what they
      did; its socket received what was yielded, unless it was closed from the start. */
  ghost predicate Served(b: Bus<Subscriber>, t: Bus<Subscriber>, did: seq<Event<Subscriber>>, sub: Subscriber,
    wasClosed: bool, raised: bool, before: seq<Payload>, after: seq<Payload>)
  {
    && t == Exec(b, did) && sub !in b.subs && sub in t.subs && !t.subs[sub].h.open
    && after == before + Sent(wasClosed, t.subs[sub].h.yielded)
    && (raised <==> wasClosed && t.subs[sub].h.yielded != [])
  }

  /** What it yielded is what the loop over the script took: everything up to the first moment that ends
      the loop, or to the end of the script. */
  ghost predicate ServedAsScripted(b: Bus<Subscriber>, t: Bus<Subscriber>, sub: Subscriber, wasClosed: bool,
    script: seq<Moment>, peers: seq<Subscriber>, lived: seq<Lived>, left: bool)
  {
    && sub in t.subs && (!left ==> |lived| == |script|)
    && Loop(Apply(b, Subscribe(sub, FEED_CHANNEL, MAX_QUEUE_SIZE)), script, lived, sub, peers, wasClosed, left)
    && t.subs[sub].h.yielded == TakenIn(script, lived, sub, |lived|)
    && t == Apply(BusAfter(Apply(b, Subscribe(sub, FEED_CHANNEL, MAX_QUEUE_SIZE)), lived, |lived|), Unsubscribe(sub))
  }

  lemma WholeRun(b: Bus<Subscriber>, t: Bus<Subscriber>, u: Bus<Subscriber>, v: Bus<Subscriber>,
    served: seq<Event<Subscriber>>, sub: Subscriber, got: seq<Message>) returns (did: seq<Event<Subscriber>>)
    requires sub !in b.subs && t == Apply(b, Subscribe(sub, FEED_CHANNEL, MAX_QUEUE_SIZE))
    requires Ran(t, u, served, sub, got) && v == Apply(u, Unsubscribe(sub))
    ensures v == Exec(b, did) && sub in v.subs && !v.subs[sub].h.open && v.subs[sub].h.yielded == got
  {
    var first := Subscribe(sub, FEED_CHANNEL, MAX_QUEUE_SIZE);
    PubSubRuns.ExecStep(b, [], first);
    ExecAppend(b, [] + [first], served);
    PubSubRuns.ExecStep(b, [] + [first] + served, Unsubscribe(sub));
    did := [] + [first] + served + [Unsubscribe(sub)];
  }

  /** The loop, and `finally` up to the disconnect. */
  method ServeAndLeave(ws: DashboardSocket, bus: InMemoryMessageBus, sub: Subscriber, script: seq<Moment>,
    peers: seq<Subscriber>, ghost b: Bus<Subscriber>)
    returns (raised: bool, ghost did: seq<Event<Subscriber>>, ghost lived: seq<Lived>, ghost left: bool)
    requires bus.Valid() && sub !in b.subs && Peers(peers, b)
    requires bus.view == Apply(b, Subscribe(sub, FEED_CHANNEL, MAX_QUEUE_SIZE))
    modifies ws, bus, bus.view.subs.Keys
    ensures bus.Valid() && ws.closed && (old(bus.Sound()) ==> bus.Sound())
    ensures Served(b, bus.view, did, sub, old(ws.closed), raised, old(ws.received), ws.received)
    ensures ServedAsScripted(b, bus.view, sub, old(ws.closed), script, peers, lived, left)
  {
    ghost var served, got;
    raised, served, got, lived, left := ServeFeed(ws, bus, sub, script, peers);
    ghost var before := bus.view;
    bus.Unsubscribe(sub);
    did := WholeRun(b, old(bus.view), before, bus.view, served, sub, got);
    ws.Disconnect();
  }

  /** The part of `client_handler` between connect and disconnect. */
  method FeedClient(ws: DashboardSocket, bus: InMemoryMessageBus, conn: string, script: seq<Moment>,
    peers: seq<Subscriber>)
    returns (sub: Subscriber, raised: bool, ghost did: seq<Event<Subscriber>>, ghost lived: seq<Lived>,
      ghost left: bool)
    requires bus.Valid() && Peers(peers, bus.view)
    modifies ws, bus, bus.view.subs.Keys
    ensures bus.Valid() && ws.closed && (old(bus.Sound()) ==> bus.Sound())
    ensures Served(old(bus.view), bus.view, did, sub, old(ws.closed), raised, old(ws.received), ws.received)
    ensures ServedAsScripted(old(bus.view), bus.view, sub, old(ws.closed), script, peers, lived, left)
  {
    sub := bus.Subscribe(FEED_CHANNEL, conn, MAX_QUEUE_SIZE);
    raised, did, lived, left := ServeAndLeave(ws, bus, sub, script, peers, old(bus.view));
  }

  /** The handler leaves no trace on the bus: the channel map and the other subscribers are as if
      only the others had been there. */
  lemma ServedLeavesNoTrace(b: Bus<Subscriber>, t: Bus<Subscriber>, did: seq<Event<Subscriber>>, sub: Subscriber,
    wasClosed: bool, raised: bool, before: seq<Payload>, after: seq<Payload>)
    requires PubSubModel.Inv(b) && Served(b, t, did, sub, wasClosed, raised, before, after)
    ensures t.channels == Exec(b, Without(did, sub)).channels
    ensures t.subs - {sub} == Exec(b, Without(did, sub)).subs
  {
    LeavesNoTrace(b, did, sub);
    ExecInv(b, did);
    ClosedIsUnlisted(t, sub);
  }

  // ------------------------------------------------------------------
  // The stores of the manager
  // ------------------------------------------------------------------

  /** What other handlers do to the manager's stores. */
  datatype StoreOp = Connects(conn: string, task: AsyncTask) | Disconnects(conn: string)

  function AfterOp(connections: map<string, AsyncTask>, op: StoreOp): map<string, AsyncTask> {
    match op
    case Connects(conn, task) => connections[conn := task]
    case Disconnects(conn) => connections - {conn}
  }

  function AfterOps(connections: map<string, AsyncTask>, ops: seq<StoreOp>): map<string, AsyncTask> {
    if ops == [] then connections else AfterOp(AfterOps(connections, ops[..|ops| - 1]), ops[|ops| - 1])
  }

  ghost predicate Elsewhere(ops: seq<StoreOp>, conn: string) { forall op :: op in ops ==> op.conn != conn }

  /** Connecting before and disconnecting after is not seen by the others. */
  lemma {:induction false} OpsElsewhere(connections: map<string, AsyncTask>, conn: string, task: AsyncTask,
    ops: seq<StoreOp>)
    requires conn !in connections && Elsewhere(ops, conn)
    ensures AfterOps(connections[conn := task], ops) - {conn} == AfterOps(connections, ops)
    ensures conn !in AfterOps(connections, ops)
  {
    if ops != [] {
      var before, last := ops[..|ops| - 1], ops[|ops| - 1];
      assert last in ops && forall op :: op in before ==> op in ops;
      OpsElsewhere(connections, conn, task, before);
    }
  }

  /** The queues of connections that no operation names. */
  ghost predicate OthersQueues(before: map<string, SendQueue<Payload>>, after: map<string, SendQueue<Payload>>,
    ops: seq<StoreOp>)
  {
    forall id :: id in before && Elsewhere(ops, id) ==> id in after && after[id] == before[id]
  }

  method RunOps(manager: ConnectionManager, ops: seq<StoreOp>)
    requires manager.Valid()
    requires forall op :: op in ops && op.Connects? ==> op.task in manager.registry.view.tasks
    modifies manager.registry, manager.bp
    ensures manager.Valid() && manager.registry.view.tasks == old(manager.registry.view).tasks
    ensures manager.registry.connections == AfterOps(old(manager.registry.connections), ops)
    ensures OthersQueues(old(manager.bp.queues), manager.bp.queues, ops)
  {
    for i := 0 to |ops|
      invariant manager.Valid() && manager.registry.view.tasks == old(manager.registry.view).tasks
      invariant manager.registry.connections == AfterOps(old(manager.registry.connections), ops[..i])
      invariant OthersQueues(old(manager.bp.queues), manager.bp.queues, ops[..i])
    {
      assert ops[..i + 1] == ops[..i] + [ops[i]] && ops[i] in ops;
      RunOp(manager, ops[i], old(manager.registry.connections), old(manager.bp.queues), ops[..i]);
    }
    assert ops[..|ops|] == ops;
  }

  lemma AfterOneMore(connections: map<string, AsyncTask>, ops: seq<StoreOp>, op: StoreOp)
    ensures AfterOps(connections, ops + [op]) == AfterOp(AfterOps(connections, ops), op)
  {
    assert (ops + [op])[..|ops|] == ops;
  }

  /** All queues but that of one connection. */
  ghost predicate Others(before: map<string, SendQueue<Payload>>, after: map<string, SendQueue<Payload>>,
    conn: string)
  {
    forall id :: id in before && id != conn ==> id in after && after[id] == before[id]
  }

  method Perform(manager: ConnectionManager, op: StoreOp)
    requires manager.Valid() && (op.Connects? ==> op.task in manager.registry.view.tasks)
    modifies manager.registry, manager.bp
    ensures manager.Valid() && manager.registry.view.tasks == old(manager.registry.view).tasks
    ensures manager.registry.connections == AfterOp(old(manager.registry.connections), op)
    ensures Others(old(manager.bp.queues), manager.bp.queues, op.conn)
  {
    match op {
      case Connects(conn, task) => manager.Connect(conn, task);
      case Disconnects(conn) => manager.Disconnect(conn);
    }
  }

  lemma QueuesOneMore(before: map<string, SendQueue<Payload>>, now: map<string, SendQueue<Payload>>,
    after: map<string, SendQueue<Payload>>, ops: seq<StoreOp>, op: StoreOp)
    requires OthersQueues(before, now, ops) && Others(now, after, op.conn)
    ensures OthersQueues(before, after, ops + [op])
  {
    assert op in ops + [op] && forall o :: o in ops ==> o in ops + [op];
  }

  method RunOp(manager: ConnectionManager, op: StoreOp, ghost connections: map<string, AsyncTask>,
    ghost queues: map<string, SendQueue<Payload>>, ghost ops: seq<StoreOp>)
    requires manager.Valid() && (op.Connects? ==> op.task in manager.registry.view.tasks)
    requires manager.registry.connections == AfterOps(connections, ops)
    requires OthersQueues(queues, manager.bp.queues, ops)
    modifies manager.registry, manager.bp
    ensures manager.Valid() && manager.registry.view.tasks == old(manager.registry.view).tasks
    ensures manager.registry.connections == AfterOps(connections, ops + [op])
    ensures OthersQueues(queues, manager.bp.queues, ops + [op])
  {
    ghost var now := manager.bp.queues;
    Perform(manager, op);
    AfterOneMore(connections, ops, op);
    QueuesOneMore(queues, now, manager.bp.queues, ops, op);
  }

  // ------------------------------------------------------------------
  // A whole handler
  // ------------------------------------------------------------------

  /** `client_handler` once it is connected; the bus and the manager share nothing. */
  method FeedAndDisconnect(ws: DashboardSocket, manager: ConnectionManager, bus: InMemoryMessageBus,
    conn: string, script: seq<Moment>,
    peers: seq<Subscriber>)
    returns (sub: Subscriber, raised: bool, ghost did: seq<Event<Subscriber>>, ghost lived: seq<Lived>,
      ghost left: bool)
    requires manager.Valid() && bus.Valid() && Peers(peers, bus.view)
    modifies ws, manager.registry, manager.bp, bus, bus.view.subs.Keys
    ensures manager.Valid()
    ensures manager.registry.connections == old(manager.registry.connections) - {conn}
    ensures manager.bp.queues == old(manager.bp.queues) - {conn}
    ensures bus.Valid() && ws.closed && (old(bus.Sound()) ==> bus.Sound())
    ensures Served(old(bus.view), bus.view, did, sub, old(ws.closed), raised, old(ws.received), ws.received)
    ensures ServedAsScripted(old(bus.view), bus.view, sub, old(ws.closed), script, peers, lived, left)
  {
    sub, raised, did, lived, left := FeedClientOf(manager, ws, bus, conn, script, peers);
    DisconnectOf(manager, bus, conn);
  }

  method FeedBeside(registry: ConnectionRegistry, ws: DashboardSocket, bus: InMemoryMessageBus,
    conn: string, script: seq<Moment>,
    peers: seq<Subscriber>)
    returns (sub: Subscriber, raised: bool, ghost did: seq<Event<Subscriber>>, ghost lived: seq<Lived>,
      ghost left: bool)
    requires registry.Valid() && bus.Valid() && Peers(peers, bus.view)
    modifies ws, bus, bus.view.subs.Keys
    ensures registry.Valid() && registry.connections == old(registry.connections)
    ensures bus.Valid() && ws.closed && (old(bus.Sound()) ==> bus.Sound())
    ensures Served(old(bus.view), bus.view, did, sub, old(ws.closed), raised, old(ws.received), ws.received)
    ensures ServedAsScripted(old(bus.view), bus.view, sub, old(ws.closed), script, peers, lived, left)
  {
    sub, raised, did, lived, left := FeedClient(ws, bus, conn, script, peers);
  }

  method FeedClientOf(manager: ConnectionManager, ws: DashboardSocket, bus: InMemoryMessageBus,
    conn: string, script: seq<Moment>,
    peers: seq<Subscriber>)
    returns (sub: Subscriber, raised: bool, ghost did: seq<Event<Subscriber>>, ghost lived: seq<Lived>,
      ghost left: bool)
    requires manager.Valid() && bus.Valid() && Peers(peers, bus.view)
    modifies ws, bus, bus.view.subs.Keys
    ensures manager.Valid()
    ensures bus.Valid() && ws.closed && (old(bus.Sound()) ==> bus.Sound())
    ensures Served(old(bus.view), bus.view, did, sub, old(ws.closed), raised, old(ws.received), ws.received)
    ensures ServedAsScripted(old(bus.view), bus.view, sub, old(ws.closed), script, peers, lived, left)
  {
    sub, raised, did, lived, left := FeedBeside(manager.registry, ws, bus, conn, script, peers);
  }

  method DisconnectOf(manager: ConnectionManager, bus: InMemoryMessageBus, conn: string)
    requires manager.Valid() && bus.Valid()
    modifies manager.registry, manager.bp
    ensures manager.Valid() && bus.Valid()
    ensures manager.registry.connections == old(manager.registry.connections) - {conn}
    ensures manager.bp.queues == old(manager.bp.queues) - {conn}
  {
    manager.Disconnect(conn);
  }

  lemma QueuesAmong(before: map<string, SendQueue<Payload>>, connected: map<string, SendQueue<Payload>>,
    after: map<string, SendQueue<Payload>>, conn: string, ops: seq<StoreOp>)
    requires conn !in before && Others(before, connected, conn) && OthersQueues(connected, after, ops)
    ensures OthersQueues(before, after - {conn}, ops)
  {}

  /** `connect`, and what other handlers do to the stores while this one is served; it does not
      look at them before it disconnects. */
  method ConnectAmong(manager: ConnectionManager, conn: string, task: AsyncTask, ops: seq<StoreOp>)
    requires manager.Valid() && task in manager.registry.view.tasks && conn !in manager.bp.queues
    requires forall op :: op in ops && op.Connects? ==> op.task in manager.registry.view.tasks
    modifies manager.registry, manager.bp
    ensures manager.Valid()
    ensures manager.registry.connections == AfterOps(old(manager.registry.connections)[conn := task], ops)
    ensures OthersQueues(old(manager.bp.queues), manager.bp.queues - {conn}, ops)
  {
    Perform(manager, Connects(conn, task));
    ghost var connected := manager.bp.queues;
    RunOps(manager, ops);
    QueuesAmong(old(manager.bp.queues), connected, manager.bp.queues, conn, ops);
  }

  method ConnectAmongOf(manager: ConnectionManager, bus: InMemoryMessageBus, conn: string, task: AsyncTask,
    ops: seq<StoreOp>)
    requires manager.Valid() && bus.Valid() && task in manager.registry.view.tasks
    requires conn !in manager.registry.connections
    requires Elsewhere(ops, conn) && forall op :: op in ops && op.Connects? ==> op.task in manager.registry.view.tasks
    modifies manager.registry, manager.bp
    ensures manager.Valid() && bus.Valid()
    ensures manager.registry.connections - {conn} == AfterOps(old(manager.registry.connections), ops)
    ensures OthersQueues(old(manager.bp.queues), manager.bp.queues - {conn}, ops)
  {
    OpsElsewhere(manager.registry.connections, conn, task, ops);
    ConnectAmong(manager, conn, task, ops);
  }

  /** `client_handler`: however it ends, the manager's stores are as the other handlers left them,
      the handler is subscribed no more, and its socket is closed, having received all that was
      yielded. */
  method ClientHandler(ws: DashboardSocket, manager: ConnectionManager, bus: InMemoryMessageBus,
    conn: string, task: AsyncTask, script: seq<Moment>, peers: seq<Subscriber>, ops: seq<StoreOp>)
    returns (sub: Subscriber, raised: bool, ghost did: seq<Event<Subscriber>>, ghost lived: seq<Lived>,
      ghost left: bool)
    requires manager.Valid() && task in manager.registry.view.tasks && conn !in manager.registry.connections
    requires Elsewhere(ops, conn) && forall op :: op in ops && op.Connects? ==> op.task in manager.registry.view.tasks
    requires bus.Valid() && Peers(peers, bus.view)
    modifies ws, manager.registry, manager.bp, bus, bus.view.subs.Keys
    ensures manager.Valid()
    ensures manager.registry.connections == AfterOps(old(manager.registry.connections), ops)
    ensures OthersQueues(old(manager.bp.queues), manager.bp.queues, ops)
    ensures bus.Valid() && ws.closed && (old(bus.Sound()) ==> bus.Sound())
    ensures Served(old(bus.view), bus.view, did, sub, old(ws.closed), raised, old(ws.received), ws.received)
    ensures ServedAsScripted(old(bus.view), bus.view, sub, old(ws.closed), script, peers, lived, left)
  {
    ConnectAmongOf(manager, bus, conn, task, ops);
    sub, raised, did, lived, left := FeedAndDisconnect(ws, manager, bus, conn, script, peers);
  }
}
