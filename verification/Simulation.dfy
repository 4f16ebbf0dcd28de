/** The objects of `run_simulation` under every interleaving of its handlers: the manager, the bus, and
    the handlers with their sockets.  Every method is one stretch of one coroutine. */
module Simulation {
  import opened PubSubModel
  import opened PubSub
  import opened DashboardModel
  import DashboardRuns
  import PubSubRuns
  import opened Dashboard
  import opened Shutdown
  import opened Options

  /** A call of `client_handler` with its local variables. */
  class ClientTask {
    const ws: DashboardSocket
    const task: AsyncTask
    const conn: string
    var phase: Phase
    var raised: bool

    constructor (ws: DashboardSocket, task: AsyncTask, conn: string)
      ensures this.ws == ws && this.task == task && this.conn == conn && phase == Serving && !raised
    {
      this.ws, this.task, this.conn := ws, task, conn;
      phase, raised := Serving, false;
    }

    ghost function Value(): Client
      reads this, ws
    {
      Client(conn, phase, ws.received, ws.closed, raised)
    }

    /** `send_json`; whether the handler goes on. */
    method Take(payload: Payload, expired: bool) returns (leaves: bool)
      modifies this, ws
      ensures Value() == Send(old(Value()), payload) && leaves == (raised || expired)
    {
      var failed := ws.SendJson(payload);
      if failed { raised := true; }
      leaves := raised || expired;
    }

    method Close()
      modifies this, ws
      ensures Value() == old(Value()).(phase := Gone, closed := true)
    {
      ws.Disconnect();
      phase := Gone;
    }
  }

  /** The handlers by the subscription each of them makes. */
  type Handlers = map<Subscriber, ClientTask>

  /** The registry names the tasks of the handlers, each under its own connection. */
  ghost predicate Named(connections: map<string, AsyncTask>, handlers: Handlers,
    registry: map<string, Subscriber>)
  {
    && connections.Keys == registry.Keys
    && forall c :: c in registry ==> registry[c] in handlers && connections[c] == handlers[registry[c]].task
  }

  ghost predicate StoresTied(manager: ConnectionManager, handlers: Handlers,
    registry: map<string, Subscriber>, queues: set<string>)
    reads manager, manager.registry, manager.registry.world, manager.registry.Sockets()
    reads manager.bp, manager.bp.queues.Values
  {
    && manager.Valid() && manager.bp.queues.Keys == queues
    && Named(manager.registry.connections, handlers, registry)
  }

  ghost predicate BusTied(bus: InMemoryMessageBus, view: Bus<Subscriber>)
    reads bus, bus.view.subs.Keys
  {
    bus.Valid() && bus.view == view
  }

  function SocketsOf(handlers: Handlers): set<DashboardSocket> { set h | h in handlers.Values :: h.ws }

  ghost predicate HandlersTied(handlers: Handlers, clients: map<Subscriber, Client>)
    reads handlers.Values, SocketsOf(handlers)
  {
    && handlers.Keys == clients.Keys
    && (forall s :: s in handlers ==> handlers[s].Value() == clients[s])
    && (forall s, t :: s in handlers && t in handlers && s != t ==>
          handlers[s] != handlers[t] && handlers[s].ws != handlers[t].ws)
  }

  lemma NamedMore(connections: map<string, AsyncTask>, handlers: Handlers,
    registry: map<string, Subscriber>, conn: string, sub: Subscriber, h: ClientTask)
    requires Named(connections, handlers, registry) && sub !in handlers
    ensures Named(connections[conn := h.task], handlers[sub := h], registry[conn := sub])
  {}

  lemma HandlersMore(handlers: Handlers, clients: map<Subscriber, Client>, sub: Subscriber, h: ClientTask)
    requires HandlersTied(handlers, clients) && sub !in handlers
    requires h !in handlers.Values && h.ws !in SocketsOf(handlers)
    ensures HandlersTied(handlers[sub := h], clients[sub := h.Value()])
  {}

  /** A step goes on from a run. */
  lemma RunMore(s: State<Subscriber>, steps: seq<Step<Subscriber>>, e: Step<Subscriber>, t: State<Subscriber>)
    returns (more: seq<Step<Subscriber>>)
    requires t == DashboardModel.Take(s, e)
    ensures more == steps + [e]
    ensures s == DashboardModel.Run(steps) ==> t == DashboardModel.Run(more)
  {
    more := steps + [e];
    assert more[..|steps|] == steps;
  }

  lemma Connected(s: State<Subscriber>, sub: Subscriber, conn: string) returns (u: State<Subscriber>)
    requires sub !in s.clients && FreshConn(s, conn)
    ensures u == DashboardModel.Take(s, DashboardModel.Connect(sub, conn))
    ensures u.clients == s.clients[sub := Client(conn, Serving, [], false, false)]
    ensures u.registry == s.registry[conn := sub] && u.queues == s.queues + {conn}
    ensures u.bus == Apply(s.bus, Subscribe(sub, FEED_CHANNEL, MAX_QUEUE_SIZE))
  {
    u := DoConnect(s, sub, conn);
  }

  /** Only this handler has changed. */
  lemma HandlerMoved(handlers: Handlers, clients: map<Subscriber, Client>, sub: Subscriber, c: Client)
    requires handlers.Keys == clients.Keys && sub in handlers && handlers[sub].Value() == c
    requires forall s :: s in handlers && s != sub ==> handlers[s].Value() == clients[s]
    requires forall s, t :: s in handlers && t in handlers && s != t ==>
      handlers[s] != handlers[t] && handlers[s].ws != handlers[t].ws
    ensures HandlersTied(handlers, clients[sub := c])
  {}

  lemma ServingWaits(steps: seq<Step<Subscriber>>, s: State<Subscriber>, sub: Subscriber)
    requires s == DashboardModel.Run(steps) && Is(s, sub, Serving)
    ensures sub in s.bus.subs && !s.bus.subs[sub].finished
  {
    DashboardRuns.RunInv(steps);
  }

  function Yielded(item: Item): Option<Message> { match item case Sentinel => None case Data(m) => Some(m) }

  /** What a handler does about a message, or the end of its feed. */
  function AfterMessage(t: State<Subscriber>, sub: Subscriber, msg: Option<Message>, expired: bool): State<Subscriber>
    requires sub in t.clients
  {
    match msg
    case None => Leave(t, sub)
    case Some(m) =>
      var c := Send(t.clients[sub], m.payload);
      var u := t.(clients := t.clients[sub := c]);
      if c.raised || expired then Leave(u, sub) else u
  }

  lemma Yields(s: State<Subscriber>, sub: Subscriber, expired: bool)
    requires Is(s, sub, Serving) && sub in s.bus.subs && s.bus.subs[sub].queue != []
    ensures DashboardModel.Take(s, Receive(sub, expired))
            == AfterMessage(s.(bus := Apply(s.bus, Next(sub))), sub, Yielded(s.bus.subs[sub].queue[0]), expired)
  {}

  /** `manager.connect`, as far as ids and tasks go. */
  method ConnectIds(manager: ConnectionManager, bus: InMemoryMessageBus, conn: string, task: AsyncTask)
    requires manager.Valid() && bus.Valid() && task in manager.registry.view.tasks
    modifies manager.registry, manager.bp
    ensures bus.Valid() && manager.Valid() && manager.bp.queues.Keys == old(manager.bp.queues).Keys + {conn}
    ensures manager.registry.connections == old(manager.registry.connections)[conn := task]
  {
    manager.Connect(conn, task);
  }

  method TakeBeside(manager: ConnectionManager, bus: InMemoryMessageBus, h: ClientTask, payload: Payload, expired: bool)
    returns (leaves: bool)
    requires manager.Valid() && bus.Valid()
    modifies h, h.ws
    ensures manager.Valid() && bus.Valid()
    ensures h.Value() == Send(old(h.Value()), payload) && leaves == (h.raised || expired)
  {
    leaves := h.Take(payload, expired);
  }

  /** The bus and the manager share nothing. */
  method CloseBeside(manager: ConnectionManager, bus: InMemoryMessageBus, channel: string)
    requires manager.Valid() && bus.Valid()
    modifies bus, bus.view.subs.Keys
    ensures manager.Valid() && bus.Valid() && bus.view == Apply(old(bus.view), CloseChannel(channel))
  {
    bus.CloseChannel(channel);
  }

  method NextBeside(manager: ConnectionManager, bus: InMemoryMessageBus, sub: Subscriber)
    returns (msg: Option<Message>)
    requires manager.Valid() && bus.Valid() && sub in bus.view.subs && sub.queue != [] && !sub.finished
    modifies bus, sub
    ensures manager.Valid() && bus.Valid() && bus.view == Apply(old(bus.view), Next(sub))
    ensures msg == Yielded(old(sub.queue)[0])
  {
    msg := bus.Next(sub);
  }

  method PublishBeside(manager: ConnectionManager, bus: InMemoryMessageBus,
    channel: string, payload: Payload, publisherId: string, skipLagging: bool) returns (delivered: nat)
    requires manager.Valid() && bus.Valid()
    modifies bus, bus.view.subs.Keys
    ensures manager.Valid() && bus.Valid()
    ensures bus.view == Apply(old(bus.view), Publish(Message(channel, payload, publisherId), skipLagging))
    ensures delivered == bus.view.delivered - old(bus.view).delivered
  {
    delivered := bus.Publish(channel, payload, publisherId, skipLagging);
  }

  class LiveDashboard {
    const manager: ConnectionManager
    const bus: InMemoryMessageBus
    var handlers: Handlers
    ghost var view: State<Subscriber>
    ghost var run: seq<Step<Subscriber>>  // every step so far

    ghost predicate Valid()
      reads this, handlers.Values, SocketsOf(handlers), bus, bus.view.subs.Keys
      reads manager, manager.registry, manager.registry.world, manager.registry.Sockets()
      reads manager.bp, manager.bp.queues.Values
    {
      && HandlersTied(handlers, view.clients) && StoresTied(manager, handlers, view.registry, view.queues)
      && BusTied(bus, view.bus)
    }

    /** The dashboard is in the state its run leads to; every step keeps it so. */
    ghost predicate Sound()
      reads this
    {
      view == DashboardModel.Run(run)
    }

    /** One more step of the run. */
    ghost method Record(more: seq<Step<Subscriber>>)
      requires Valid()
      modifies `run
      ensures Valid() && run == more
    {
      run := more;
    }

    /** The objects already are as they are in `u`. */
    ghost method Adopt(u: State<Subscriber>)
      requires HandlersTied(handlers, u.clients) && BusTied(bus, u.bus)
      requires StoresTied(manager, handlers, u.registry, u.queues)
      modifies `view
      ensures Valid() && view == u
    {
      view := u;
    }

    constructor (manager: ConnectionManager, bus: InMemoryMessageBus)
      requires manager.Valid() && manager.registry.connections == map[]
      requires bus.Valid() && bus.view == Empty()
      ensures Valid() && Sound() && handlers == map[] && view == Start() && this.manager == manager && this.bus == bus
    {
      this.manager, this.bus, handlers, view, run := manager, bus, map[], Start(), [];
    }

    // ----------------------------------------------------------------
    // What moves in one place only
    // ----------------------------------------------------------------

    method ConnectStores(conn: string, task: AsyncTask)
      requires Valid() && task in manager.registry.view.tasks
      modifies manager.registry, manager.bp
      ensures HandlersTied(handlers, view.clients) && BusTied(bus, view.bus) && manager.Valid()
      ensures manager.bp.queues.Keys == view.queues + {conn}
      ensures manager.registry.connections == old(manager.registry.connections)[conn := task]
    {
      ConnectIds(manager, bus, conn, task);
    }

    method LeaveStores(conn: string)
      requires Valid()
      modifies manager.registry, manager.bp
      ensures HandlersTied(handlers, view.clients) && BusTied(bus, view.bus)
      ensures StoresTied(manager, handlers, view.registry - {conn}, view.queues - {conn})
    {
      manager.Disconnect(conn);
    }

    method SubscribeFeed(conn: string) returns (sub: Subscriber)
      requires HandlersTied(handlers, view.clients) && BusTied(bus, view.bus) && manager.Valid()
      modifies bus
      ensures HandlersTied(handlers, view.clients) && manager.Valid()
      ensures manager.registry.connections == old(manager.registry.connections)
      ensures manager.bp.queues == old(manager.bp.queues)
      ensures bus.Valid() && bus.view == Apply(view.bus, Subscribe(sub, FEED_CHANNEL, MAX_QUEUE_SIZE))
      ensures fresh(sub) && sub !in handlers
    {
      sub := bus.Subscribe(FEED_CHANNEL, conn, MAX_QUEUE_SIZE);
    }

    /** The handler is there, and the stores and the bus are as they should be with it. */
    method Enter(h: ClientTask, sub: Subscriber, ghost before: map<string, AsyncTask>, ghost u: State<Subscriber>)
      requires HandlersTied(handlers, view.clients) && sub !in handlers
      requires h !in handlers.Values && h.ws !in SocketsOf(handlers)
      requires u.clients == view.clients[sub := h.Value()] && u.registry == view.registry[h.conn := sub]
      requires manager.Valid() && manager.bp.queues.Keys == u.queues && BusTied(bus, u.bus)
      requires Named(before, handlers, view.registry) && manager.registry.connections == before[h.conn := h.task]
      modifies `view, `handlers
      ensures Valid() && view == u && handlers == old(handlers)[sub := h]
    {
      NamedMore(before, handlers, view.registry, h.conn, sub, h);
      HandlersMore(handlers, view.clients, sub, h);
      AdoptHandlers(handlers[sub := h], u);
    }

    method AdoptHandlers(now: Handlers, ghost u: State<Subscriber>)
      requires HandlersTied(now, u.clients) && StoresTied(manager, now, u.registry, u.queues) && BusTied(bus, u.bus)
      modifies `view, `handlers
      ensures Valid() && view == u && handlers == now
    {
      handlers := now;
      view := u;
    }

    /** `connect` and `subscribe`. */
    method ConnectAndSubscribe(task: AsyncTask, conn: string) returns (sub: Subscriber)
      requires Valid() && task in manager.registry.view.tasks
      modifies manager.registry, manager.bp, bus
      ensures HandlersTied(handlers, view.clients) && manager.Valid()
      ensures manager.registry.connections == old(manager.registry.connections)[conn := task]
      ensures manager.bp.queues.Keys == view.queues + {conn}
      ensures bus.Valid() && bus.view == Apply(view.bus, Subscribe(sub, FEED_CHANNEL, MAX_QUEUE_SIZE))
      ensures fresh(sub) && sub !in handlers
    {
      ConnectStores(conn, task);
      sub := SubscribeFeed(conn);
    }

    method AddHandler(ws: DashboardSocket, task: AsyncTask, conn: string, sub: Subscriber,
      ghost before: map<string, AsyncTask>, ghost u: State<Subscriber>)
      requires HandlersTied(handlers, view.clients) && sub !in handlers
      requires ws !in SocketsOf(handlers) && ws.received == [] && !ws.closed
      requires u.clients == view.clients[sub := Client(conn, Serving, [], false, false)]
      requires u.registry == view.registry[conn := sub]
      requires manager.Valid() && manager.bp.queues.Keys == u.queues && BusTied(bus, u.bus)
      requires Named(before, handlers, view.registry) && manager.registry.connections == before[conn := task]
      modifies this
      ensures Valid() && view == u && run == old(run)
      ensures sub in handlers && handlers == old(handlers)[sub := handlers[sub]]
      ensures handlers[sub].ws == ws && handlers[sub].task == task && handlers[sub].conn == conn
    {
      var h := new ClientTask(ws, task, conn);
      Enter(h, sub, before, u);
    }

    // ----------------------------------------------------------------
    // The stretches
    // ----------------------------------------------------------------

    /** `client_handler` up to its first wait. */
    method Connect(ws: DashboardSocket, task: AsyncTask, conn: string) returns (sub: Subscriber)
      requires Valid() && FreshConn(view, conn) && task in manager.registry.view.tasks
      requires ws !in SocketsOf(handlers) && ws.received == [] && !ws.closed
      modifies this, manager.registry, manager.bp, bus
      ensures Valid() && fresh(sub) && view == DashboardModel.Take(old(view), DashboardModel.Connect(sub, conn))
      ensures run == old(run) + [DashboardModel.Connect(sub, conn)] && (old(Sound()) ==> Sound())
      ensures sub in handlers && handlers == old(handlers)[sub := handlers[sub]]
      ensures handlers[sub].ws == ws && handlers[sub].task == task && handlers[sub].conn == conn
    {
      sub := Begin(ws, task, conn);
      ghost var more := RunMore(old(view), run, DashboardModel.Connect(sub, conn), view);
      Record(more);
    }

    method Begin(ws: DashboardSocket, task: AsyncTask, conn: string) returns (sub: Subscriber)
      requires Valid() && FreshConn(view, conn) && task in manager.registry.view.tasks
      requires ws !in SocketsOf(handlers) && ws.received == [] && !ws.closed
      modifies this, manager.registry, manager.bp, bus
      ensures Valid() && fresh(sub) && view == DashboardModel.Take(old(view), DashboardModel.Connect(sub, conn))
      ensures sub in handlers && handlers == old(handlers)[sub := handlers[sub]] && run == old(run)
      ensures handlers[sub].ws == ws && handlers[sub].task == task && handlers[sub].conn == conn
    {
      sub := ConnectAndSubscribe(task, conn);
      ghost var u := Connected(view, sub, conn);
      AddHandler(ws, task, conn, sub, old(manager.registry.connections), u);
    }

    method NextOnBus(sub: Subscriber) returns (msg: Option<Message>)
      requires Valid() && sub in bus.view.subs && sub.queue != [] && !sub.finished
      modifies bus, sub
      ensures HandlersTied(handlers, view.clients) && StoresTied(manager, handlers, view.registry, view.queues)
      ensures bus.Valid() && bus.view == Apply(view.bus, Next(sub))
      ensures msg == Yielded(old(sub.queue)[0])
    {
      msg := NextBeside(manager, bus, sub);
    }

    method QuitBus(sub: Subscriber)
      requires Valid()
      modifies bus, sub
      ensures HandlersTied(handlers, view.clients) && StoresTied(manager, handlers, view.registry, view.queues)
      ensures bus.Valid() && bus.view == Apply(view.bus, Unsubscribe(sub))
    {
      bus.Unsubscribe(sub);
    }

    /** The generator of the handler's subscription is resumed. */
    method NextMessage(sub: Subscriber) returns (msg: Option<Message>)
      requires Valid() && sub in bus.view.subs && sub.queue != [] && !sub.finished
      modifies `view, bus, sub
      ensures Valid() && view == old(view).(bus := Apply(old(view).bus, Next(sub)))
      ensures msg == Yielded(old(sub.queue)[0])
    {
      msg := NextOnBus(sub);
      Adopt(view.(bus := bus.view));
    }

    method Quit(sub: Subscriber)
      requires Valid()
      modifies `view, bus, sub
      ensures Valid() && view == old(view).(bus := Apply(old(view).bus, Unsubscribe(sub)))
    {
      QuitBus(sub);
      Adopt(view.(bus := bus.view));
    }

    /** Nothing but one handler has moved. */
    ghost method AdoptHandler(sub: Subscriber, c: Client)
      requires handlers.Keys == view.clients.Keys && sub in handlers && handlers[sub].Value() == c
      requires forall s :: s in handlers && s != sub ==> handlers[s].Value() == view.clients[s]
      requires forall s, t :: s in handlers && t in handlers && s != t ==>
        handlers[s] != handlers[t] && handlers[s].ws != handlers[t].ws
      requires StoresTied(manager, handlers, view.registry, view.queues) && BusTied(bus, view.bus)
      modifies `view
      ensures Valid() && view == old(view).(clients := old(view).clients[sub := c])
    {
      HandlerMoved(handlers, view.clients, sub, c);
      Adopt(view.(clients := view.clients[sub := c]));
    }

    method SetPhase(sub: Subscriber, phase: Phase)
      requires Valid() && sub in handlers
      modifies `view, handlers[sub]
      ensures Valid() && sub in old(view).clients
      ensures view == old(view).(clients := old(view).clients[sub := old(view).clients[sub].(phase := phase)])
    {
      handlers[sub].phase := phase;
      AdoptHandler(sub, handlers[sub].Value());
    }

    method Deliver(sub: Subscriber, payload: Payload, expired: bool) returns (leaves: bool)
      requires Valid() && sub in handlers
      modifies `view, handlers[sub], handlers[sub].ws
      ensures Valid() && sub in old(view).clients
      ensures view == old(view).(clients := old(view).clients[sub := Send(old(view).clients[sub], payload)])
      ensures sub in view.clients && leaves == (view.clients[sub].raised || expired)
    {
      leaves := TakeBy(handlers[sub], payload, expired);
      AdoptHandler(sub, handlers[sub].Value());
    }

    /** No other handler has moved. */
    method TakeBy(h: ClientTask, payload: Payload, expired: bool) returns (leaves: bool)
      requires Valid() && h in handlers.Values
      modifies h, h.ws
      ensures h.Value() == Send(old(h.Value()), payload) && leaves == (h.raised || expired)
      ensures forall s :: s in handlers && handlers[s] != h ==> handlers[s].Value() == view.clients[s]
      ensures StoresTied(manager, handlers, view.registry, view.queues) && BusTied(bus, view.bus)
    {
      leaves := TakeBeside(manager, bus, h, payload, expired);
    }

    /** `finally`, up to the disconnect. */
    method LeaveFeed(sub: Subscriber)
      requires Valid() && sub in handlers
      modifies `view, bus, sub, handlers[sub]
      ensures Valid() && sub in old(view).clients && view == Leave(old(view), sub)
    {
      SetPhase(sub, Leaving);
      Quit(sub);
    }

    method ReceiveMessage(sub: Subscriber, expired: bool)
      requires Valid() && sub in handlers && handlers[sub].phase == Serving
      requires sub in bus.view.subs && sub.queue != [] && !sub.finished
      modifies `view, bus, sub, handlers[sub], handlers[sub].ws
      ensures Valid() && view == DashboardModel.Take(old(view), DashboardModel.Receive(sub, expired))
    {
      Yields(view, sub, expired);
      var msg := NextMessage(sub);
      TakeMessage(sub, msg, expired);
    }

    method TakeMessage(sub: Subscriber, msg: Option<Message>, expired: bool)
      requires Valid() && sub in handlers
      modifies `view, bus, sub, handlers[sub], handlers[sub].ws
      ensures Valid() && sub in old(view).clients && view == AfterMessage(old(view), sub, msg, expired)
    {
      var leaves := true;
      if msg.Some? { leaves := Deliver(sub, msg.value.payload, expired); }
      if leaves { LeaveFeed(sub); }
    }

    /** The handler is resumed, with a message if there is one; then its deadline has passed or not. */
    method Receive(sub: Subscriber, expired: bool)
      requires Valid() && Sound() && sub in handlers
      modifies `view, `run, bus, sub, handlers[sub], handlers[sub].ws
      ensures Valid() && Sound() && view == DashboardModel.Take(old(view), DashboardModel.Receive(sub, expired))
      ensures run == old(run) + [DashboardModel.Receive(sub, expired)]
      ensures old(handlers[sub].phase) == Serving && old(sub.queue) != [] ==>
        && (handlers[sub].phase == Serving <==> old(sub.queue)[0].Data? && !expired)
        && handlers[sub].ws.received
           == old(handlers[sub].ws.received) + if old(sub.queue)[0].Data? then [old(sub.queue)[0].msg.payload] else []
    {
      if handlers[sub].phase == Serving {
        ServingWaits(run, view, sub);
        DashboardRuns.HandlerGoesOnIff(run, sub, expired);
        if sub.queue != [] { ReceiveMessage(sub, expired); }
      }
      ghost var more := RunMore(old(view), run, DashboardModel.Receive(sub, expired), view);
      Record(more);
    }

    /** The handler is cancelled while it waits for a message. */
    method Interrupt(sub: Subscriber)
      requires Valid() && Sound() && sub in handlers
      modifies `view, `run, bus, sub, handlers[sub]
      ensures Valid() && Sound() && view == DashboardModel.Take(old(view), DashboardModel.Interrupt(sub))
      ensures run == old(run) + [DashboardModel.Interrupt(sub)]
    {
      if handlers[sub].phase == Serving { LeaveFeed(sub); }
      ghost var more := RunMore(old(view), run, DashboardModel.Interrupt(sub), view);
      Record(more);
    }

    method CloseSocket(sub: Subscriber)
      requires Valid() && sub in handlers
      modifies `view, handlers[sub], handlers[sub].ws
      ensures Valid() && sub in old(view).clients
      ensures var c := old(view).clients[sub].(phase := Gone, closed := true);
        view == old(view).(clients := old(view).clients[sub := c])
    {
      handlers[sub].Close();
      AdoptHandler(sub, handlers[sub].Value());
    }

    method Forget(conn: string)
      requires Valid()
      modifies `view, manager.registry, manager.bp
      ensures Valid()
      ensures view == old(view).(registry := old(view).registry - {conn}, queues := old(view).queues - {conn})
    {
      LeaveStores(conn);
      Adopt(view.(registry := view.registry - {conn}, queues := view.queues - {conn}));
    }

    method LeaveEverything(sub: Subscriber)
      requires Valid() && sub in handlers
      modifies `view, manager.registry, manager.bp, handlers[sub], handlers[sub].ws
      ensures Valid() && sub in old(view).clients && view == DoCleanUp(old(view), sub)
    {
      CloseSocket(sub);
      Forget(handlers[sub].conn);
    }

    method Finish(sub: Subscriber)
      requires Valid() && sub in handlers
      modifies `view, manager.registry, manager.bp, handlers[sub], handlers[sub].ws
      ensures Valid() && view == DashboardModel.Take(old(view), DashboardModel.CleanUp(sub))
    {
      if handlers[sub].phase == Leaving { LeaveEverything(sub); }
    }

    /** The rest of `finally`. */
    method CleanUp(sub: Subscriber)
      requires Valid() && Sound() && sub in handlers
      modifies `view, `run, manager.registry, manager.bp, handlers[sub], handlers[sub].ws
      ensures Valid() && Sound() && view == DashboardModel.Take(old(view), DashboardModel.CleanUp(sub))
      ensures run == old(run) + [DashboardModel.CleanUp(sub)]
    {
      Finish(sub);
      ghost var more := RunMore(old(view), run, DashboardModel.CleanUp(sub), view);
      Record(more);
    }

    method PublishOnBus(channel: string, payload: Payload, publisherId: string, skipLagging: bool)
      returns (delivered: nat)
      requires Valid()
      modifies bus, bus.view.subs.Keys
      ensures HandlersTied(handlers, view.clients) && StoresTied(manager, handlers, view.registry, view.queues)
      ensures bus.Valid() && bus.view == Apply(view.bus, Publish(Message(channel, payload, publisherId), skipLagging))
      ensures delivered == bus.view.delivered - view.bus.delivered
    {
      delivered := PublishBeside(manager, bus, channel, payload, publisherId, skipLagging);
    }

    method Post(channel: string, payload: Payload, publisherId: string, skipLagging: bool) returns (delivered: nat)
      requires Valid() && Sound()
      modifies `view, `run, bus, bus.view.subs.Keys
      ensures Valid() && Sound()
      ensures view
        == DashboardModel.Take(old(view), DashboardModel.Post(Message(channel, payload, publisherId), skipLagging))
      ensures run == old(run) + [DashboardModel.Post(Message(channel, payload, publisherId), skipLagging)]
      ensures delivered == view.bus.delivered - old(view).bus.delivered
    {
      delivered := PublishOnBus(channel, payload, publisherId, skipLagging);
      Adopt(view.(bus := bus.view));
      ghost var e := DashboardModel.Post(Message(channel, payload, publisherId), skipLagging);
      ghost var more := RunMore(old(view), run, e, view);
      Record(more);
    }

    method CloseOnBus(channel: string)
      requires Valid()
      modifies bus, bus.view.subs.Keys
      ensures HandlersTied(handlers, view.clients) && StoresTied(manager, handlers, view.registry, view.queues)
      ensures bus.Valid() && bus.view == Apply(view.bus, CloseChannel(channel))
    {
      CloseBeside(manager, bus, channel);
    }

    method CloseFeed(channel: string)
      requires Valid() && Sound()
      modifies `view, `run, bus, bus.view.subs.Keys
      ensures Valid() && Sound() && view == DashboardModel.Take(old(view), DashboardModel.CloseFeed(channel))
      ensures run == old(run) + [DashboardModel.CloseFeed(channel)]
    {
      CloseOnBus(channel);
      Adopt(view.(bus := bus.view, feedClosed := view.feedClosed || channel == FEED_CHANNEL));
      ghost var more := RunMore(old(view), run, DashboardModel.CloseFeed(channel), view);
      Record(more);
    }
  }

  // ------------------------------------------------------------------
  // What the theorems about runs say of the objects
  // ------------------------------------------------------------------

  /** When every handler has finished, however it ended, the registry, the send queues and the
      bus are empty and every socket is closed. */
  lemma SimulationEnds(d: LiveDashboard)
    requires d.Valid() && d.Sound()
    requires forall s :: s in d.handlers ==> d.handlers[s].phase == Gone
    ensures d.manager.registry.connections == map[] && d.manager.bp.queues == map[] && d.bus.channels == map[]
    ensures forall s :: s in d.handlers ==> d.handlers[s].ws.closed
  {
    assert forall s :: s in d.view.clients ==> d.handlers[s].Value() == d.view.clients[s];
    DashboardRuns.NothingLeftBehind(d.run);
  }

  /** Every socket has received, in order, the payloads of posted messages, those its subscription
      accepted up to what is still in its queue, and no send raised. */
  lemma SocketReceived(d: LiveDashboard, sub: Subscriber)
    requires d.Valid() && d.Sound() && sub in d.handlers
    ensures sub in d.bus.view.subs && !d.handlers[sub].raised
    ensures var posted, at := DashboardRuns.Posted(d.run), d.bus.view.subs[sub].h.accepted;
      && (forall i :: 0 <= i < |at| ==> at[i] < |posted| && posted[at[i]].channel == FEED_CHANNEL)
      && d.handlers[sub].ws.received + Payloads(PubSubRuns.Datas(sub.queue))
         == Payloads(PubSubRuns.MessagesAt(posted, at))
  {
    assert d.handlers[sub].Value() == d.view.clients[sub];
    DashboardRuns.ClientSees(d.run, sub);
  }
}
