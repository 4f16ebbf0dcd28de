/** `close_all` interleaved with the handlers it shuts down, as a state machine.

    `close_all` runs in three stretches: it cancels every registered task and suspends in
    `asyncio.wait`; it cancels again what is still pending and suspends in `gather`; it clears the
    registry.  Between them handlers take any steps.  A wait may time out at any moment, and
    `gather` ends once all it waits for is done.  `T` names tasks.  `close_all` itself runs in
    none of them.  The machine follows one call; other calls that overlap with it appear by what
    they do.  An event that is not enabled leaves the state as it is. */
module ShutdownModel {

  datatype Inbound = Text(text: string) | Eof

  /** The fake WebSocket of a handler; `consumed` is history. */
  datatype Socket = Socket(inbox: seq<Inbound>, sent: seq<string>, closed: bool, consumed: seq<string>)

  /** What a task runs: `correct_ws_handler`, or code nothing is known about. */
  datatype Handler = Correct(conn: string, started: bool, sock: Socket) | Other

  /** `cancels` counts the cancel calls of the `close_all` that is followed. */
  datatype Task = Task(handler: Handler, done: bool, cancelRequested: bool, cancels: nat)

  datatype Closer<T> =
    | Idle
    | Waiting(start: map<string, T>)
    | Gathering(start: map<string, T>, pending: set<T>)
    | Returned(start: map<string, T>, pending: set<T>, result: nat)

  datatype State<T(==)> = State(
    tasks: map<T, Task>, connections: map<string, T>, shuttingDown: bool, closer: Closer<T>)

  datatype Event<T> =
    | Spawn(t: T, handler: Handler)
    | Arrive(t: T, msg: Inbound)          // a client sends
    | Step(t: T)                          // a correct handler is resumed
    | Register(conn: string, t: T)        // by other code
    | Deregister(conn: string)            // by other code
    | Finish(t: T)                        // other code ends
    | CancelFromOutside(t: T)
    | AnotherBegins                       // another call of close_all cancels every registered task
    | AnotherEnds                         // ... and clears the registry
    | CloseAll | WaitEnds | GatherEnds

  function Start<T>(): State<T> { State(map[], map[], false, Idle) }

  function NewSocket(): Socket { Socket([], [], false, []) }

  function Echo(text: string): string { "echo: " + text }

  function Tasks<T>(connections: map<string, T>): set<T> { connections.Values }

  /** How often `close_all` calls cancel on this task in its first loop: once per entry. */
  function Entries<T(==)>(connections: map<string, T>, t: T): nat {
    |set c | c in connections && connections[c] == t|
  }

  // ------------------------------------------------------------------
  // Handlers
  // ------------------------------------------------------------------

  /** The `finally` block of `correct_ws_handler`. */
  function Exit<T>(s: State<T>, t: T): State<T>
    requires t in s.tasks && s.tasks[t].handler.Correct?
  {
    var h := s.tasks[t].handler;
    s.(tasks := s.tasks[t := s.tasks[t].(done := true, handler := h.(sock := h.sock.(closed := true)))],
       connections := s.connections - {h.conn})
  }

  /** The first stretch registers; a later one ends on a cancel, or takes one inbound message:
      a text is echoed, an end of file or a closed socket ends the handler. */
  function DoStep<T>(s: State<T>, t: T): State<T>
    requires t in s.tasks && s.tasks[t].handler.Correct? && !s.tasks[t].done
  {
    var task := s.tasks[t];
    var h := task.handler;
    if !h.started then
      if task.cancelRequested then s.(tasks := s.tasks[t := task.(done := true)])
      else s.(tasks := s.tasks[t := task.(handler := h.(started := true))],
              connections := s.connections[h.conn := t])
    else if task.cancelRequested then Exit(s, t)
    else if h.sock.inbox == [] then s
    else
      var rest := h.sock.inbox[1..];
      match h.sock.inbox[0]
      case Eof => Exit(WithSocket(s, t, h.sock.(inbox := rest)), t)
      case Text(m) =>
        if h.sock.closed then Exit(WithSocket(s, t, h.sock.(inbox := rest)), t)
        else WithSocket(s, t, h.sock.(inbox := rest, sent := h.sock.sent + [Echo(m)],
                                      consumed := h.sock.consumed + [m]))
  }

  function WithSocket<T>(s: State<T>, t: T, sock: Socket): (r: State<T>)
    requires t in s.tasks && s.tasks[t].handler.Correct?
  {
    s.(tasks := s.tasks[t := s.tasks[t].(handler := s.tasks[t].handler.(sock := sock))])
  }

  /** `Task.cancel`: no effect on a task that is done. */
  function Cancel(task: Task): Task { task.(cancelRequested := task.cancelRequested || !task.done) }

  // ------------------------------------------------------------------
  // close_all
  // ------------------------------------------------------------------

  function DoCloseAll<T>(s: State<T>): State<T> {
    var start := s.connections;
    if |start| == 0 then s.(shuttingDown := true, closer := Returned(start, {}, 0),
                            tasks := map t | t in s.tasks :: s.tasks[t].(cancels := 0))
    else
      s.(shuttingDown := true, closer := Waiting(start),
         tasks := map t | t in s.tasks ::
           if t in Tasks(start) then Cancel(s.tasks[t]).(cancels := Entries(start, t)) else s.tasks[t].(cancels := 0))
  }

  function StillPending<T>(s: State<T>, start: map<string, T>): set<T> {
    set t | t in Tasks(start) && t in s.tasks && !s.tasks[t].done
  }

  function DoWaitEnds<T>(s: State<T>): State<T>
    requires s.closer.Waiting?
  {
    var start := s.closer.start;
    var pending := StillPending(s, start);
    if pending == {} then s.(connections := map[], closer := Returned(start, {}, |start|))
    else
      s.(closer := Gathering(start, pending),
         tasks := map t | t in s.tasks ::
           if t in pending then Cancel(s.tasks[t]).(cancels := s.tasks[t].cancels + 1) else s.tasks[t])
  }

  predicate AllDone<T>(s: State<T>, ts: set<T>) { forall t :: t in ts ==> t in s.tasks && s.tasks[t].done }

  function DoGatherEnds<T>(s: State<T>): State<T>
    requires s.closer.Gathering?
  {
    s.(connections := map[], closer := Returned(s.closer.start, s.closer.pending, |s.closer.start|))
  }

  function CancelRegistered<T>(s: State<T>): State<T> {
    s.(shuttingDown := true,
       tasks := map t | t in s.tasks :: if t in Tasks(s.connections) then Cancel(s.tasks[t]) else s.tasks[t])
  }

  predicate Running<T>(s: State<T>) { s.closer.Waiting? || s.closer.Gathering? }

  /** Connection ids are fresh: no other handler was given this one. */
  predicate FreshConn<T>(s: State<T>, conn: string) {
    conn !in s.connections
    && forall t :: t in s.tasks && s.tasks[t].handler.Correct? ==> s.tasks[t].handler.conn != conn
  }

  function Apply<T>(s: State<T>, e: Event<T>): State<T> {
    match e
    case Spawn(t, handler) =>
      if t in s.tasks
         || (handler.Correct? && !(FreshConn(s, handler.conn) && !handler.started && handler.sock == NewSocket()))
      then s
      else s.(tasks := s.tasks[t := Task(handler, false, false, 0)])
    case Arrive(t, msg) =>
      if t in s.tasks && s.tasks[t].handler.Correct?
      then WithSocket(s, t, s.tasks[t].handler.sock.(inbox := s.tasks[t].handler.sock.inbox + [msg])) else s
    case Step(t) => if t in s.tasks && s.tasks[t].handler.Correct? && !s.tasks[t].done then DoStep(s, t) else s
    case Register(conn, t) =>
      if t in s.tasks && s.tasks[t].handler.Other? then s.(connections := s.connections[conn := t]) else s
    case Deregister(conn) => s.(connections := s.connections - {conn})
    case Finish(t) =>
      if t in s.tasks && s.tasks[t].handler.Other? then s.(tasks := s.tasks[t := s.tasks[t].(done := true)]) else s
    case CancelFromOutside(t) => if t in s.tasks then s.(tasks := s.tasks[t := Cancel(s.tasks[t])]) else s
    case AnotherBegins => CancelRegistered(s)
    case AnotherEnds => s.(connections := map[])
    case CloseAll => if Running(s) then s else DoCloseAll(s)
    case WaitEnds => if s.closer.Waiting? then DoWaitEnds(s) else s
    case GatherEnds => if s.closer.Gathering? && AllDone(s, s.closer.pending) then DoGatherEnds(s) else s
  }

  function Exec<T>(s: State<T>, events: seq<Event<T>>): State<T> {
    if events == [] then s else Apply(Exec(s, events[..|events| - 1]), events[|events| - 1])
  }

  function Reached<T>(events: seq<Event<T>>): State<T> { Exec(Start(), events) }

  // ------------------------------------------------------------------
  // The invariant
  // ------------------------------------------------------------------

  /** Where `close_all` stands with each task it started with. */
  ghost predicate CloserInv<T>(s: State<T>) {
    match s.closer
    case Idle => true
    case Waiting(start) =>
      forall t :: t in Tasks(start) ==>
        t in s.tasks && s.tasks[t].cancels == Entries(start, t) && (s.tasks[t].done || s.tasks[t].cancelRequested)
    case Gathering(start, pending) =>
      pending <= Tasks(start)
      && forall t :: t in Tasks(start) ==>
        && t in s.tasks && (s.tasks[t].done || (t in pending && s.tasks[t].cancelRequested))
        && s.tasks[t].cancels == Entries(start, t) + if t in pending then 1 else 0
    case Returned(start, pending, result) =>
      result == |start| && pending <= Tasks(start)
      && forall t :: t in Tasks(start) ==>
        && t in s.tasks && s.tasks[t].done
        && s.tasks[t].cancels == Entries(start, t) + if t in pending then 1 else 0
  }

  /** Only tasks `close_all` started with are cancelled by it. */
  ghost predicate OthersInv<T>(s: State<T>) {
    forall t :: t in s.tasks && (s.closer.Idle? || t !in Tasks(s.closer.start)) ==> s.tasks[t].cancels == 0
  }

  ghost predicate HandlerInv(task: Task) {
    task.handler.Correct? ==>
      && (task.handler.started ==> task.handler.sock.closed == task.done)
      && (!task.handler.started ==> !task.handler.sock.closed)
      && |task.handler.sock.sent| == |task.handler.sock.consumed|
      && (forall i :: 0 <= i < |task.handler.sock.sent| ==>
            task.handler.sock.sent[i] == Echo(task.handler.sock.consumed[i]))
  }

  /** Entries name known tasks; a correct handler has an entry only while it runs, under its own id. */
  ghost predicate RegistryInv<T>(s: State<T>) {
    && (forall t :: t in s.tasks ==> HandlerInv(s.tasks[t]))
    && (forall c :: c in s.connections ==>
          && s.connections[c] in s.tasks
          && (s.tasks[s.connections[c]].handler.Correct? ==>
                && s.tasks[s.connections[c]].handler.started && !s.tasks[s.connections[c]].done
                && s.tasks[s.connections[c]].handler.conn == c))
    && (Running(s) || s.closer.Returned? ==> forall t :: t in Tasks(s.closer.start) && t in s.tasks ==>
          (s.tasks[t].handler.Correct? ==> s.tasks[t].handler.started))
  }

  ghost predicate Inv<T>(s: State<T>) { CloserInv(s) && OthersInv(s) && RegistryInv(s) }

  /** What a step that is not `close_all`'s may do to a task it finds. */
  ghost predicate Kept(a: Task, b: Task) {
    b.cancels == a.cancels && (a.done ==> b.done) && (a.cancelRequested ==> b.cancelRequested)
    && (a.handler.Correct? <==> b.handler.Correct?)
    && (a.handler.Correct? && a.handler.started ==> b.handler.started)
  }

  predicate ByCloser<T>(e: Event<T>) { e.CloseAll? || e.WaitEnds? || e.GatherEnds? }

  /** What a step that is not `close_all`'s leaves as it is. */
  ghost predicate AllKept<T>(s: State<T>, u: State<T>) {
    && u.closer == s.closer && (s.shuttingDown ==> u.shuttingDown)
    && (forall t :: t in s.tasks ==> t in u.tasks && Kept(s.tasks[t], u.tasks[t]))
    && (forall t :: t in u.tasks && t !in s.tasks ==> u.tasks[t].cancels == 0)
  }

  lemma StepKeeps<T>(s: State<T>, t: T)
    requires t in s.tasks && s.tasks[t].handler.Correct? && !s.tasks[t].done
    ensures AllKept(s, DoStep(s, t))
  {}

  lemma CancelsKeep<T>(s: State<T>, t: T)
    ensures AllKept(s, Apply(s, CancelFromOutside(t)))
  {}

  lemma OthersKeep<T>(s: State<T>, e: Event<T>)
    requires e.Register? || e.Deregister? || e.Finish? || e.AnotherEnds?
    ensures AllKept(s, Apply(s, e))
  {}

  lemma ClientsKeep<T>(s: State<T>, e: Event<T>)
    requires e.Spawn? || e.Arrive?
    ensures AllKept(s, Apply(s, e))
  {}

  lemma OutsideKeeps<T>(s: State<T>, e: Event<T>)
    requires !ByCloser(e)
    ensures AllKept(s, Apply(s, e))
  {
    match e
    case Spawn(t, handler) => ClientsKeep(s, e);
    case Arrive(t, msg) => ClientsKeep(s, e);
    case Step(t) => if t in s.tasks && s.tasks[t].handler.Correct? && !s.tasks[t].done { StepKeeps(s, t); }
    case CancelFromOutside(t) => CancelsKeep(s, t);
    case AnotherBegins => AnotherKeeps(s);
    case _ => OthersKeep(s, e);
  }

  lemma AnotherKeeps<T>(s: State<T>)
    ensures AllKept(s, CancelRegistered(s))
  {}

  lemma KeptCloserInv<T>(s: State<T>, u: State<T>)
    requires CloserInv(s) && OthersInv(s) && AllKept(s, u)
    ensures CloserInv(u) && OthersInv(u)
  {}

  lemma StepRegistry<T>(s: State<T>, t: T)
    requires RegistryInv(s) && t in s.tasks && s.tasks[t].handler.Correct? && !s.tasks[t].done
    ensures RegistryInv(DoStep(s, t))
  {}

  lemma AnotherRegistry<T>(s: State<T>)
    requires RegistryInv(s)
    ensures RegistryInv(CancelRegistered(s))
  {
    var u := CancelRegistered(s);
    assert forall t :: t in s.tasks ==> u.tasks[t].handler == s.tasks[t].handler && u.tasks[t].done == s.tasks[t].done;
  }

  lemma OutsideRegistryInv<T>(s: State<T>, e: Event<T>)
    requires RegistryInv(s) && CloserInv(s) && !ByCloser(e)
    ensures RegistryInv(Apply(s, e))
  {
    match e
    case Spawn(t, handler) =>
    case Arrive(t, msg) =>
    case Step(t) => if t in s.tasks && s.tasks[t].handler.Correct? && !s.tasks[t].done { StepRegistry(s, t); }
    case Register(conn, t) =>
    case Deregister(conn) =>
    case Finish(t) =>
    case CancelFromOutside(t) =>
    case AnotherBegins => AnotherRegistry(s);
    case AnotherEnds =>
  }

  lemma CloseAllInv<T>(s: State<T>)
    requires Inv(s) && !Running(s)
    ensures Inv(DoCloseAll(s))
  {
    forall t | t in Tasks(s.connections) ensures t in s.tasks {
      var c :| c in s.connections && s.connections[c] == t;
    }
  }

  lemma WaitEndsCloser<T>(s: State<T>)
    requires CloserInv(s) && OthersInv(s) && s.closer.Waiting?
    ensures CloserInv(DoWaitEnds(s)) && OthersInv(DoWaitEnds(s))
  {
    var pending := StillPending(s, s.closer.start);
    assert forall t :: t in Tasks(s.closer.start) && t !in pending ==> s.tasks[t].done;
  }

  lemma WaitEndsInv<T>(s: State<T>)
    requires Inv(s) && s.closer.Waiting?
    ensures Inv(DoWaitEnds(s))
  {
    WaitEndsCloser(s);
    var u := DoWaitEnds(s);
    assert forall t :: t in s.tasks ==> u.tasks[t].handler == s.tasks[t].handler && u.tasks[t].done == s.tasks[t].done;
  }

  lemma GatherEndsInv<T>(s: State<T>)
    requires Inv(s) && s.closer.Gathering? && AllDone(s, s.closer.pending)
    ensures Inv(DoGatherEnds(s))
  {}

  lemma ApplyInv<T>(s: State<T>, e: Event<T>)
    requires Inv(s)
    ensures Inv(Apply(s, e))
  {
    match e
    case CloseAll => if !Running(s) { CloseAllInv(s); }
    case WaitEnds => if s.closer.Waiting? { WaitEndsInv(s); }
    case GatherEnds => if s.closer.Gathering? && AllDone(s, s.closer.pending) { GatherEndsInv(s); }
    case _ =>
      OutsideKeeps(s, e);
      KeptCloserInv(s, Apply(s, e));
      OutsideRegistryInv(s, e);
  }

  lemma {:induction false} ExecInv<T>(s: State<T>, events: seq<Event<T>>)
    requires Inv(s)
    ensures Inv(Exec(s, events))
  {
    if events != [] {
      ExecInv(s, events[..|events| - 1]);
      ApplyInv(Exec(s, events[..|events| - 1]), events[|events| - 1]);
    }
  }
}
