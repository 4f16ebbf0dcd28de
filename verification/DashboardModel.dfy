/** The dashboard: every client handler keeps an entry in the connection registry, a send queue and
    a subscription in step, under any interleaving of the handlers.

    A handler connects and subscribes in one stretch, takes one message of its feed at a time, and
    leaves in the `finally` block; cancellation can only strike while it waits for a message, as
    nothing else it awaits suspends.  Cleaning up is a step of its own, so that other handlers
    may run between the unsubscribe and the disconnect.  `H` names handlers.  Connection ids
    are fresh and `close_all` is not called.  An event that is not enabled leaves the state as it is. */
module DashboardModel {
  import opened PubSubModel

  const FEED_CHANNEL: string := "metrics:dashboard"
  const MAX_QUEUE_SIZE: int := 256

  datatype Phase = Serving | Leaving | Gone

  /** A handler and its socket. */
  datatype Client = Client(conn: string, phase: Phase, received: seq<Payload>, closed: bool, raised: bool)

  datatype State<H(==)> = State(
    clients: map<H, Client>,
    registry: map<string, H>, queues: set<string>, bus: Bus<H>,
    feedClosed: bool)  // history: close_channel was called on the feed

  datatype Step<H> =
    | Connect(h: H, conn: string)
    | Receive(h: H, expired: bool)  // the handler is resumed with a message; then its deadline has passed or not
    | Interrupt(h: H)               // the handler is cancelled while it waits
    | CleanUp(h: H)
    | Post(msg: Message, skipLagging: bool)
    | CloseFeed(channel: string)

  function Start<H>(): State<H> { State(map[], map[], {}, Empty(), false) }

  ghost predicate FreshConn<H>(s: State<H>, conn: string) {
    forall h :: h in s.clients ==> s.clients[h].conn != conn
  }

  function DoConnect<H>(s: State<H>, h: H, conn: string): State<H> {
    State(s.clients[h := Client(conn, Serving, [], false, false)],
          s.registry[conn := h], s.queues + {conn},
          Apply(s.bus, Subscribe(h, FEED_CHANNEL, MAX_QUEUE_SIZE)), s.feedClosed)
  }

  /** `finally`, up to the disconnect. */
  function Leave<H>(s: State<H>, h: H): State<H>
    requires h in s.clients
  {
    s.(clients := s.clients[h := s.clients[h].(phase := Leaving)], bus := Apply(s.bus, Unsubscribe(h)))
  }

  /** `send_json`: raises on a closed socket. */
  function Send(c: Client, payload: Payload): Client {
    if c.closed then c.(raised := true) else c.(received := c.received + [payload])
  }

  function DoReceive<H>(s: State<H>, h: H, expired: bool): State<H>
    requires h in s.clients && h in s.bus.subs
  {
    var queue := s.bus.subs[h].queue;
    if queue == [] then s
    else
      var t := s.(bus := Apply(s.bus, Next(h)));
      match queue[0]
      case Sentinel => Leave(t, h)
      case Data(m) =>
        var c := Send(s.clients[h], m.payload);
        var u := t.(clients := s.clients[h := c]);
        if c.raised || expired then Leave(u, h) else u
  }

  function DoCleanUp<H>(s: State<H>, h: H): State<H>
    requires h in s.clients
  {
    var c := s.clients[h];
    s.(clients := s.clients[h := c.(phase := Gone, closed := true)],
       registry := s.registry - {c.conn}, queues := s.queues - {c.conn})
  }

  predicate Is<H>(s: State<H>, h: H, phase: Phase) { h in s.clients && s.clients[h].phase == phase }

  ghost function Take<H>(s: State<H>, e: Step<H>): State<H> {
    match e
    case Connect(h, conn) => if h in s.clients || !FreshConn(s, conn) then s else DoConnect(s, h, conn)
    case Receive(h, expired) => if Is(s, h, Serving) && h in s.bus.subs then DoReceive(s, h, expired) else s
    case Interrupt(h) => if Is(s, h, Serving) then Leave(s, h) else s
    case CleanUp(h) => if Is(s, h, Leaving) then DoCleanUp(s, h) else s
    case Post(msg, skip) => s.(bus := Apply(s.bus, Publish(msg, skip)))
    case CloseFeed(channel) =>
      s.(bus := Apply(s.bus, CloseChannel(channel)), feedClosed := s.feedClosed || channel == FEED_CHANNEL)
  }

  ghost function Run<H>(steps: seq<Step<H>>): State<H> {
    if steps == [] then Start() else Take(Run(steps[..|steps| - 1]), steps[|steps| - 1])
  }

  // ------------------------------------------------------------------
  // The invariant
  // ------------------------------------------------------------------

  /** The registry and the send queues hold the connected handlers, each under its own id. */
  ghost predicate StoresInv<H>(s: State<H>) {
    && s.queues == s.registry.Keys
    && (forall c :: c in s.registry ==> s.registry[c] in s.clients && s.clients[s.registry[c]].conn == c
                                        && s.clients[s.registry[c]].phase != Gone)
    && (forall h :: h in s.clients && s.clients[h].phase != Gone ==>
          s.clients[h].conn in s.registry && s.registry[s.clients[h].conn] == h)
    && (forall h, k :: h in s.clients && k in s.clients && s.clients[h].conn == s.clients[k].conn ==> h == k)
  }

  function Payloads(ms: seq<Message>): seq<Payload> {
    if ms == [] then [] else Payloads(ms[..|ms| - 1]) + [ms[|ms| - 1].payload]
  }

  /** A handler against its subscription. */
  ghost predicate FeedOf(c: Client, sub: Sub, feedClosed: bool) {
    && sub.channel == FEED_CHANNEL && sub.max == MAX_QUEUE_SIZE
    && (sub.h.open ==> c.phase == Serving)
    && (c.phase == Serving && !feedClosed ==> sub.h.open)
    && (c.phase == Serving ==> !sub.finished)
    && c.received == Payloads(sub.h.yielded)
    && !c.raised && (c.closed <==> c.phase == Gone)
  }

  ghost predicate FeedInv<H>(s: State<H>) {
    s.bus.subs.Keys == s.clients.Keys
    && forall h :: h in s.clients ==> FeedOf(s.clients[h], s.bus.subs[h], s.feedClosed)
  }

  ghost predicate Inv<H>(s: State<H>) { StoresInv(s) && FeedInv(s) && PubSubModel.Inv(s.bus) }

  lemma ConnectStores<H>(s: State<H>, h: H, conn: string)
    requires StoresInv(s) && h !in s.clients && FreshConn(s, conn)
    ensures StoresInv(DoConnect(s, h, conn))
  {}

  lemma ConnectFeed<H>(s: State<H>, h: H, conn: string)
    requires FeedInv(s) && h !in s.clients
    ensures FeedInv(DoConnect(s, h, conn))
  {}

  lemma LeaveStores<H>(s: State<H>, h: H)
    requires StoresInv(s) && Is(s, h, Serving)
    ensures StoresInv(Leave(s, h))
  {}

  lemma LeaveFeed<H>(s: State<H>, h: H)
    requires FeedInv(s) && Is(s, h, Serving)
    ensures FeedInv(Leave(s, h))
  {}

  lemma CleanUpInv<H>(s: State<H>, h: H)
    requires StoresInv(s) && FeedInv(s) && Is(s, h, Leaving)
    ensures StoresInv(DoCleanUp(s, h)) && FeedInv(DoCleanUp(s, h))
  {}

  lemma MorePayloads(ms: seq<Message>, m: Message)
    ensures Payloads(ms + [m]) == Payloads(ms) + [m.payload]
  {
    assert (ms + [m])[..|ms|] == ms;
  }

  /** The handler after one message, before it looks at its deadline. */
  lemma SendFeed<H>(s: State<H>, h: H, m: Message)
    requires FeedInv(s) && Is(s, h, Serving) && s.bus.subs[h].queue != [] && s.bus.subs[h].queue[0] == Data(m)
    ensures var u := s.(bus := Apply(s.bus, Next(h)), clients := s.clients[h := Send(s.clients[h], m.payload)]);
      FeedInv(u) && !u.clients[h].raised
  {
    MorePayloads(s.bus.subs[h].h.yielded, m);
  }

  lemma SendStores<H>(s: State<H>, t: State<H>, h: H, payload: Payload)
    requires StoresInv(s) && Is(s, h, Serving)
    requires t == s.(bus := t.bus, clients := s.clients[h := Send(s.clients[h], payload)])
    ensures StoresInv(t) && Is(t, h, Serving)
  {}

  /** The sentinel ends the generator, and with it the handler's loop. */
  lemma EndFeed<H>(s: State<H>, h: H)
    requires FeedInv(s) && Is(s, h, Serving) && s.bus.subs[h].queue != [] && s.bus.subs[h].queue[0] == Sentinel
    ensures FeedInv(Leave(s.(bus := Apply(s.bus, Next(h))), h))
  {}

  lemma ReceiveInv<H>(s: State<H>, h: H, expired: bool)
    requires StoresInv(s) && FeedInv(s) && Is(s, h, Serving)
    ensures StoresInv(DoReceive(s, h, expired)) && FeedInv(DoReceive(s, h, expired))
  {
    if s.bus.subs[h].queue != [] {
      var t := s.(bus := Apply(s.bus, Next(h)));
      match s.bus.subs[h].queue[0]
      case Sentinel =>
        LeaveStores(t, h);
        EndFeed(s, h);
      case Data(m) =>
        var u := t.(clients := s.clients[h := Send(s.clients[h], m.payload)]);
        SendFeed(s, h, m);
        SendStores(s, u, h, m.payload);
        LeaveStores(u, h);
        LeaveFeed(u, h);
    }
  }

  /** What other code does to the bus. */
  lemma BusFeed<H>(s: State<H>, t: State<H>, e: Event<H>)
    requires FeedInv(s) && (e.Publish? || e.CloseChannel?)
    requires t == s.(bus := Apply(s.bus, e), feedClosed := t.feedClosed)
    requires t.feedClosed == (s.feedClosed || (e.CloseChannel? && e.channel == FEED_CHANNEL))
    requires MapInv(s.bus)
    ensures FeedInv(t)
  {
    if e.CloseChannel? && e.channel != FEED_CHANNEL {
      assert forall h :: h in s.clients ==> h !in Listed(s.bus, e.channel);
    }
  }

  lemma TakeInv<H>(s: State<H>, e: Step<H>)
    requires StoresInv(s) && FeedInv(s) && MapInv(s.bus)
    ensures StoresInv(Take(s, e)) && FeedInv(Take(s, e))
  {
    match e
    case Connect(h, conn) =>
      if h !in s.clients && FreshConn(s, conn) {
        ConnectStores(s, h, conn);
        ConnectFeed(s, h, conn);
      }
    case Receive(h, expired) => if Is(s, h, Serving) { ReceiveInv(s, h, expired); }
    case Interrupt(h) =>
      if Is(s, h, Serving) {
        LeaveStores(s, h);
        LeaveFeed(s, h);
      }
    case CleanUp(h) => if Is(s, h, Leaving) { CleanUpInv(s, h); }
    case Post(msg, skip) => BusFeed(s, Take(s, e), Publish(msg, skip));
    case CloseFeed(channel) => BusFeed(s, Take(s, e), CloseChannel(channel));
  }

  /** The bus events of one step. */
  ghost function BusEvents<H>(s: State<H>, e: Step<H>): seq<Event<H>> {
    match e
    case Connect(h, conn) =>
      if h in s.clients || !FreshConn(s, conn) then [] else [Subscribe(h, FEED_CHANNEL, MAX_QUEUE_SIZE)]
    case Receive(h, expired) =>
      if !(Is(s, h, Serving) && h in s.bus.subs) || s.bus.subs[h].queue == [] then []
      else if Is(DoReceive(s, h, expired), h, Serving) then [Next(h)] else [Next(h), Unsubscribe(h)]
    case Interrupt(h) => if Is(s, h, Serving) then [Unsubscribe(h)] else []
    case CleanUp(h) => []
    case Post(msg, skip) => [Publish(msg, skip)]
    case CloseFeed(channel) => [CloseChannel(channel)]
  }

  ghost function BusRun<H>(steps: seq<Step<H>>): seq<Event<H>> {
    if steps == [] then []
    else
      var before := steps[..|steps| - 1];
      BusRun(before) + BusEvents(Run(before), steps[|steps| - 1])
  }
}
