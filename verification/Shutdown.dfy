/** `ConnectionRegistry` and the handlers of the shutdown demo as the program keeps them. */
module Shutdown {
  import opened Options
  import opened ShutdownModel
  import opened ShutdownRuns

  class FakeWebSocket {
    var messages: seq<Inbound>
    var sent: seq<string>
    var closed: bool
    ghost var consumed: seq<string>

    constructor ()
      ensures Value() == NewSocket()
    {
      messages, sent, closed, consumed := [], [], false, [];
    }

    ghost function Value(): Socket
      reads this
    {
      Socket(messages, sent, closed, consumed)
    }

    /** Arrival of a message from the client. */
    method Put(msg: Inbound)
      modifies this
      ensures Value() == old(Value()).(inbox := old(messages) + [msg])
    {
      messages := messages + [msg];
    }

    method ReceiveText() returns (msg: Inbound)
      requires messages != []
      modifies this
      ensures msg == old(messages)[0] && Value() == old(Value()).(inbox := old(messages)[1..])
    {
      msg := messages[0];
      messages := messages[1..];
    }

    /** Echoes `text`; the result says whether "Socket already closed" was raised instead. */
    method SendEcho(text: string) returns (raised: bool)
      modifies this
      ensures raised == old(closed)
      ensures Value() == if raised then old(Value())
                         else old(Value()).(sent := old(sent) + [Echo(text)], consumed := old(consumed) + [text])
    {
      raised := closed;
      if !closed {
        sent := sent + ["echo: " + text];
        consumed := consumed + [text];
      }
    }

    method Close()
      modifies this
      ensures Value() == old(Value()).(closed := true)
    {
      closed := true;
    }
  }

  /** An `asyncio.Task`, created already or not yet; `correct` says that it runs
      `correct_ws_handler(ws, registry)`, which is given the connection id `conn`. */
  class AsyncTask {
    const correct: bool
    const ws: FakeWebSocket
    const conn: string
    var created: bool
    var started: bool
    var done: bool
    var cancelRequested: bool
    ghost var cancels: nat

    constructor (correct: bool, ws: FakeWebSocket, conn: string)
      ensures this.correct == correct && this.ws == ws && this.conn == conn
      ensures !created && !started && !done && !cancelRequested && cancels == 0
    {
      this.correct, this.ws, this.conn := correct, ws, conn;
      created := false;
      started, done, cancelRequested, cancels := false, false, false, 0;
    }

    ghost function Value(): Task
      reads this, ws
    {
      Task(if correct then Correct(conn, started, ws.Value()) else Other, done, cancelRequested, cancels)
    }

    /** What a task runs when it is created. */
    function FirstHandler(): Handler { if correct then Correct(conn, false, NewSocket()) else Other }

    ghost predicate Fits(tasks: map<AsyncTask, Task>)
      reads this, ws
    {
      && created == (this in tasks)
      && Value() == if created then tasks[this] else Task(FirstHandler(), false, false, 0)
    }

    method Cancel()
      modifies `cancelRequested
      ensures Value() == ShutdownModel.Cancel(old(Value()))
    {
      if !done { cancelRequested := true; }
    }
  }

  // ------------------------------------------------------------------
  // Cancelling every entry of the registry
  // ------------------------------------------------------------------

  /** How many of the entries under `keys` are this task's. */
  ghost function Count<T>(start: map<string, T>, keys: set<string>, t: T): nat {
    |set c | c in keys && c in start && start[c] == t|
  }

  lemma CountOneMore<T>(start: map<string, T>, keys: set<string>, c: string, t: T)
    requires c in start && c !in keys
    ensures Count(start, keys + {c}, t) == Count(start, keys, t) + if start[c] == t then 1 else 0
  {
    var before := set d | d in keys && d in start && start[d] == t;
    var after := set d | d in keys + {c} && d in start && start[d] == t;
    assert after == if start[c] == t then before + {c} else before;
  }

  lemma CountAll<T>(start: map<string, T>, t: T)
    ensures Count(start, start.Keys, t) == Entries(start, t)
  {
    assert (set c | c in start.Keys && c in start && start[c] == t) == set c | c in start && start[c] == t;
  }

  /** The task after that many cancel calls. */
  ghost function CancelledBy(task: Task, times: nat): Task {
    (if times == 0 then task else ShutdownModel.Cancel(task)).(cancels := times)
  }

  lemma CancelAgain(task: Task, times: nat)
    ensures ShutdownModel.Cancel(CancelledBy(task, times)).(cancels := times + 1) == CancelledBy(task, times + 1)
  {}

  lemma CancelledTask<T>(s: State<T>, t: T)
    requires t in s.tasks && s.connections != map[]
    ensures t in DoCloseAll(s).tasks && DoCloseAll(s).tasks[t] == CancelledBy(s.tasks[t], Entries(s.connections, t))
  {
    var mine := set c | c in s.connections && s.connections[c] == t;
    if t in Tasks(s.connections) {
      var c :| c in s.connections && s.connections[c] == t;
      assert c in mine;
    } else {
      assert mine == {};
    }
  }

  /** What is true of the tasks while the entries under `gone` are cancelled. */
  ghost predicate AllCancelled(before: map<AsyncTask, Task>, start: map<string, AsyncTask>, gone: set<string>)
    reads before.Keys, set t | t in before :: t.ws
  {
    forall t :: t in before ==> t.Value() == CancelledBy(before[t], Count(start, gone, t))
  }

  /** Counting of cancel calls starts again. */
  ghost method ResetCounts(before: map<AsyncTask, Task>, start: map<string, AsyncTask>)
    requires forall t :: t in before ==> t.Value() == before[t]
    modifies before.Keys`cancels
    ensures AllCancelled(before, start, {})
  {
    forall t | t in before { t.cancels := 0; }
    assert forall t :: Count(start, {}, t) == 0;
  }

  method CancelCounted(task: AsyncTask, ghost before: Task, ghost times: nat)
    requires task.Value() == CancelledBy(before, times)
    modifies task`cancelRequested, task`cancels
    ensures task.Value() == CancelledBy(before, times + 1)
  {
    CancelAgain(before, times);
    task.Cancel();
    task.cancels := times + 1;
  }

  method CancelEntry(task: AsyncTask, ghost start: map<string, AsyncTask>, ghost c: string,
    ghost before: map<AsyncTask, Task>, ghost gone: set<string>)
    requires c in start && c !in gone && start[c] == task && task in before && AllCancelled(before, start, gone)
    modifies task`cancelRequested, task`cancels
    ensures AllCancelled(before, start, gone + {c})
  {
    CancelCounted(task, before[task], Count(start, gone, task));
    forall t | t in before
      ensures Count(start, gone + {c}, t) == Count(start, gone, t) + if task == t then 1 else 0
    {
      CountOneMore(start, gone, c, t);
    }
  }

  lemma MoveToGone(all: set<string>, todo: set<string>, c: string)
    requires c in todo && todo <= all
    ensures all - (todo - {c}) == all - todo + {c}
  {}

  /** The first loop of `close_all`. */
  method CancelAll(start: map<string, AsyncTask>, ghost before: map<AsyncTask, Task>)
    requires forall t :: t in before ==> t.Value() == before[t]
    requires forall c :: c in start ==> start[c] in before
    modifies before.Keys`cancelRequested, before.Keys`cancels
    ensures AllCancelled(before, start, start.Keys)
  {
    ResetCounts(before, start);
    var todo := start.Keys;
    assert start.Keys - todo == {};
    while todo != {}
      invariant todo <= start.Keys && AllCancelled(before, start, start.Keys - todo)
      decreases |todo|
    {
      var c :| c in todo;
      CancelEntry(start[c], start, c, before, start.Keys - todo);
      MoveToGone(start.Keys, todo, c);
      todo := todo - {c};
    }
    assert start.Keys - todo == start.Keys;
  }

  lemma AreCancelled<T>(s: State<T>) returns (u: State<T>)
    requires s.connections != map[] && !Running(s)
    ensures u == Apply(s, CloseAll)
    ensures u.connections == s.connections && u.shuttingDown && u.tasks.Keys == s.tasks.Keys
    ensures u.closer == Waiting(s.connections)
    ensures forall t :: t in s.tasks ==>
      u.tasks[t] == CancelledBy(s.tasks[t], Count(s.connections, s.connections.Keys, t))
  {
    u := DoCloseAll(s);
    forall t | t in s.tasks
      ensures u.tasks[t] == CancelledBy(s.tasks[t], Count(s.connections, s.connections.Keys, t))
    {
      CancelledTask(s, t);
      CountAll(s.connections, t);
    }
  }

  lemma NoneToCancel<T>(s: State<T>) returns (u: State<T>)
    requires s.connections == map[] && !Running(s)
    ensures u == Apply(s, CloseAll) && u.closer.Returned?
    ensures u.connections == s.connections && u.shuttingDown && u.tasks.Keys == s.tasks.Keys
    ensures forall t :: t in s.tasks ==>
      u.tasks[t] == CancelledBy(s.tasks[t], Count(s.connections, s.connections.Keys, t))
  {
    u := DoCloseAll(s);
    assert forall t :: Count(s.connections, {}, t) == 0;
  }

  /** The tasks in `gone` have been cancelled once more, which counts `extra` calls. */
  ghost predicate AgainCancelled(before: map<AsyncTask, Task>, gone: set<AsyncTask>, extra: nat)
    reads before.Keys, set t | t in before :: t.ws
  {
    forall t :: t in before ==>
      t.Value()
      == if t in gone then ShutdownModel.Cancel(before[t]).(cancels := before[t].cancels + extra) else before[t]
  }

  method CancelOnceMore(task: AsyncTask, ghost before: Task, ghost extra: nat)
    requires task.Value() == before
    modifies task`cancelRequested, task`cancels
    ensures task.Value() == ShutdownModel.Cancel(before).(cancels := before.cancels + extra)
  {
    task.Cancel();
    task.cancels := task.cancels + extra;
  }

  /** The second loop of `close_all`; with `extra` 0 it is a loop of a call that is not followed. */
  method CancelEach(tasks: set<AsyncTask>, ghost before: map<AsyncTask, Task>, ghost extra: nat)
    requires AgainCancelled(before, {}, extra) && tasks <= before.Keys
    modifies before.Keys`cancelRequested, before.Keys`cancels
    ensures AgainCancelled(before, tasks, extra)
  {
    var todo := tasks;
    assert tasks - todo == {};
    while todo != {}
      invariant todo <= tasks && AgainCancelled(before, tasks - todo, extra)
      decreases |todo|
    {
      var t :| t in todo;
      CancelOnceMore(t, before[t], extra);
      todo := todo - {t};
    }
    assert tasks - todo == tasks;
  }

  lemma AreCancelledAgain<T>(s: State<T>, pending: set<T>) returns (u: State<T>)
    requires s.closer.Waiting? && pending == StillPending(s, s.closer.start)
    ensures u == Apply(s, WaitEnds) && u.tasks.Keys == s.tasks.Keys && u.shuttingDown == s.shuttingDown
    ensures if pending == {} then u.connections == map[] && u.closer.Returned?
            else u.connections == s.connections && u.closer == Gathering(s.closer.start, pending)
    ensures forall t :: t in s.tasks ==>
      u.tasks[t] == if t in pending then Cancel(s.tasks[t]).(cancels := s.tasks[t].cancels + 1) else s.tasks[t]
  {
    u := DoWaitEnds(s);
  }

  lemma AreCancelledByAnother<T>(s: State<T>) returns (u: State<T>)
    ensures u == Apply(s, AnotherBegins) && u.tasks.Keys == s.tasks.Keys && u.shuttingDown
    ensures u.connections == s.connections && u.closer == s.closer
    ensures forall t :: t in s.tasks ==>
      u.tasks[t]
      == if t in Tasks(s.connections) then Cancel(s.tasks[t]).(cancels := s.tasks[t].cancels + 0) else s.tasks[t]
  {
    u := CancelRegistered(s);
  }

  lemma RunGrows<T>(v: State<T>, u: State<T>, run: seq<Event<T>>, e: Event<T>)
    requires v == Reached(run) && u == Apply(v, e)
    ensures u == Reached(run + [e])
  {
    assert (run + [e])[..|run|] == run;
  }

  lemma ExecNext<T>(s: State<T>, events: seq<Event<T>>, i: nat)
    requires i < |events|
    ensures Exec(s, events[..i + 1]) == Apply(Exec(s, events[..i]), events[i])
  {
    assert events[..i + 1][..i] == events[..i];
  }

  class ConnectionRegistry {
    var connections: map<string, AsyncTask>
    var shuttingDown: bool
    ghost var view: State<AsyncTask>
    ghost var run: seq<Event<AsyncTask>>  // every event so far
    ghost var world: set<AsyncTask>       // the tasks, and those that may yet be created

    ghost function Sockets(): set<FakeWebSocket>
      reads this
    {
      set t | t in world :: t.ws
    }

    ghost predicate Valid()
      reads this, world, Sockets()
    {
      && connections == view.connections && shuttingDown == view.shuttingDown
      && view.tasks.Keys <= world && DistinctSockets()
      && (forall t :: t in world ==> t.Fits(view.tasks))
      && (forall c :: c in connections ==> connections[c] in view.tasks)
    }

    /** The registry is in the state its run leads to; every event keeps it so. */
    ghost predicate Sound()
      reads this
    {
      view == Reached(run)
    }

    ghost predicate DistinctSockets()
      reads this
    {
      forall t, u :: t in world && u in world && t != u ==>
        t.ws != u.ws && (t.correct && u.correct ==> t.conn != u.conn)
    }

    /** The fields already are what they are in `s`, which has the same tasks. */
    ghost method Adopt(s: State<AsyncTask>)
      requires connections == s.connections && shuttingDown == s.shuttingDown
      requires s.tasks.Keys == view.tasks.Keys <= world && DistinctSockets()
      requires forall t :: t in s.tasks ==> t.created && t.Value() == s.tasks[t]
      requires forall t :: t in world && t !in view.tasks ==> t.Fits(view.tasks)
      requires forall c :: c in connections ==> connections[c] in s.tasks
      modifies `view
      ensures Valid() && view == s
    {
      view := s;
    }

    /** Nothing but this task and the entries has changed. */
    ghost method AdoptTask(task: AsyncTask, u: State<AsyncTask>)
      requires task in world && task.created && view.tasks.Keys <= world && DistinctSockets()
      requires forall t :: t in world && t != task ==> t.Fits(view.tasks)
      requires forall c :: c in connections ==> connections[c] in view.tasks
      requires shuttingDown == view.shuttingDown
      requires u == view.(tasks := view.tasks[task := task.Value()], connections := connections)
      modifies `view
      ensures Valid() && view == u
    {
      view := u;
    }

    /** The event that led from `before` to the present state. */
    ghost method Record(before: State<AsyncTask>, e: Event<AsyncTask>)
      requires Valid() && view == Apply(before, e)
      modifies `run
      ensures Valid() && run == old(run) + [e] && (before == Reached(old(run)) ==> Sound())
    {
      if before == Reached(run) { RunGrows(before, view, run, e); }
      run := run + [e];
    }

    constructor ()
      ensures Valid() && view == Start() && Sound() && world == {}
    {
      connections, shuttingDown, view, run, world := map[], false, Start(), [], {};
    }

    /** The task may be created from now on. */
    ghost method Announce(task: AsyncTask)
      requires Valid() && task !in world && task.ws !in Sockets()
      requires task.correct ==> forall t :: t in world && t.correct ==> t.conn != task.conn
      requires !task.created && task.Fits(map[])
      modifies `world
      ensures Valid() && world == old(world) + {task}
    {
      world := world + {task};
    }

    /** For a task that runs other code this is an event of its own; a correct handler registers
        as part of its first step. */
    method Register(conn: string, task: AsyncTask)
      requires Valid() && task in view.tasks
      modifies this
      ensures Valid() && view == old(view).(connections := old(connections)[conn := task])
      ensures view.tasks == old(view).tasks
      ensures if task.correct then run == old(run)
              else view == Apply(old(view), ShutdownModel.Register(conn, task)) && (old(Sound()) ==> Sound())
      ensures world == old(world)
    {
      connections := connections[conn := task];
      view := view.(connections := connections);
      if !task.correct { Record(old(view), ShutdownModel.Register(conn, task)); }
    }

    method Deregister(conn: string)
      requires Valid()
      modifies this
      ensures Valid() && view == Apply(old(view), ShutdownModel.Deregister(conn)) && (old(Sound()) ==> Sound())
      ensures view == old(view).(connections := old(connections) - {conn})
      ensures view.tasks == old(view).tasks
      ensures world == old(world)
    {
      connections := connections - {conn};
      view := view.(connections := connections);
      Record(old(view), ShutdownModel.Deregister(conn));
    }

    /** The task is created; it runs when it is first resumed.  Connection ids are fresh: a correct
        handler does not come under an id that is in use. */
    method Spawn(task: AsyncTask)
      requires Valid() && task in world
      modifies this, task
      ensures Valid() && view == Apply(old(view), ShutdownModel.Spawn(task, task.FirstHandler()))
      ensures world == old(world) && (old(Sound()) ==> Sound())
    {
      ghost var s := Apply(view, ShutdownModel.Spawn(task, task.FirstHandler()));
      if !task.created && (task.correct ==> task.conn !in connections) {
        task.created := true;
        AdoptTask(task, s);
      }
      Record(old(view), ShutdownModel.Spawn(task, task.FirstHandler()));
    }

    /** The `finally` block of `correct_ws_handler`. */
    method CleanUp(task: AsyncTask)
      requires Valid() && task in view.tasks && task.correct
      modifies this, task, task.ws
      ensures Valid() && view == Exit(old(view), task) && run == old(run)
      ensures world == old(world)
    {
      ghost var s := Exit(view, task);
      Deregister(task.conn);
      EndTask(task, s);
      run := old(run);
    }

    method EndTask(task: AsyncTask, ghost u: State<AsyncTask>)
      requires Valid() && task in view.tasks && task.correct && view.tasks[task].handler.Correct?
      requires var t := view.tasks[task];
        var sock := t.handler.sock.(closed := true);
        u == view.(tasks := view.tasks[task := t.(done := true, handler := t.handler.(sock := sock))])
      modifies this, task, task.ws
      ensures Valid() && view == u && world == old(world) && run == old(run)
    {
      task.ws.Close();
      task.done := true;
      AdoptTask(task, u);
    }

    /** `correct_ws_handler` from one suspension to the next. */
    method ResumeHandler(task: AsyncTask)
      requires Valid() && task in view.tasks && task.correct && !task.done
      modifies this, task, task.ws
      ensures Valid() && view == Apply(old(view), Step(task)) && (old(Sound()) ==> Sound())
      ensures world == old(world)
    {
      RunHandler(task);
      Record(old(view), Step(task));
    }

    method RunHandler(task: AsyncTask)
      requires Valid() && task in view.tasks && task.correct && !task.done
      modifies this, task, task.ws
      ensures Valid() && view == Apply(old(view), Step(task)) && run == old(run)
      ensures world == old(world)
    {
      if !task.started {
        BeginHandler(task);
      } else if task.cancelRequested {
        CleanUp(task);
      } else if task.ws.messages != [] {
        ServeOne(task);
      }
    }

    method BeginHandler(task: AsyncTask)
      requires Valid() && task in view.tasks && task.correct && !task.done && !task.started
      modifies this, task
      ensures Valid() && view == Apply(old(view), Step(task)) && run == old(run)
      ensures world == old(world)
    {
      ghost var s := DoStep(view, task);
      if task.cancelRequested {
        task.done := true;
        AdoptTask(task, s);
      } else {
        Register(task.conn, task);
        MarkStarted(task, s);
      }
    }

    method MarkStarted(task: AsyncTask, ghost u: State<AsyncTask>)
      requires Valid() && task in view.tasks && task.correct && view.tasks[task].handler.Correct?
      requires var t := view.tasks[task];
        u == view.(tasks := view.tasks[task := t.(handler := t.handler.(started := true))])
      modifies this, task
      ensures Valid() && view == u && world == old(world) && run == old(run)
    {
      task.started := true;
      AdoptTask(task, u);
    }

    /** One iteration of the receive loop. */
    method ServeOne(task: AsyncTask)
      requires Valid() && task in view.tasks && task.correct && !task.done && task.started
      requires !task.cancelRequested && task.ws.messages != []
      modifies this, task, task.ws
      ensures Valid() && view == Apply(old(view), Step(task)) && run == old(run)
      ensures world == old(world)
    {
      var msg := Take(task);
      match msg {
        case Eof => CleanUp(task);
        case Text(m) =>
          if task.ws.closed {
            CleanUp(task);
          } else {
            Answer(task, m);
          }
      }
    }

    method Take(task: AsyncTask) returns (msg: Inbound)
      requires Valid() && task in view.tasks && task.correct && task.ws.messages != []
      modifies this, task.ws
      ensures run == old(run)
      ensures Valid() && task in old(view).tasks && old(view).tasks[task].handler.Correct?
      ensures var sock := old(view).tasks[task].handler.sock;
        && sock.inbox != [] && msg == sock.inbox[0]
        && view == WithSocket(old(view), task, sock.(inbox := sock.inbox[1..]))
      ensures world == old(world)
    {
      msg := task.ws.ReceiveText();
      view := WithSocket(view, task, task.ws.Value());
    }

    method Answer(task: AsyncTask, text: string)
      requires Valid() && task in view.tasks && task.correct && !task.ws.closed
      modifies this, task.ws
      ensures run == old(run)
      ensures Valid() && task in old(view).tasks && old(view).tasks[task].handler.Correct?
      ensures var sock := old(view).tasks[task].handler.sock;
        view == WithSocket(old(view), task, sock.(sent := sock.sent + [Echo(text)], consumed := sock.consumed + [text]))
      ensures world == old(world)
    {
      var raised := task.ws.SendEcho(text);
      view := WithSocket(view, task, task.ws.Value());
    }

    /** What can happen while `close_all` is suspended. */
    ghost predicate Outside(events: seq<Event<AsyncTask>>)
      reads this
    {
      forall i :: 0 <= i < |events| ==> Possible(events[i])
    }

    ghost predicate Possible(e: Event<AsyncTask>)
      reads this
    {
      && !ByCloser(e) && (e.Deregister? || e.AnotherBegins? || e.AnotherEnds? || e.t in world)
      && (e.Spawn? ==> e.handler == e.t.FirstHandler())
    }

    method ClientSends(task: AsyncTask, msg: Inbound)
      requires Valid() && task in view.tasks && task.correct
      modifies this, task.ws
      ensures Valid() && view == Apply(old(view), Arrive(task, msg)) && (old(Sound()) ==> Sound())
      ensures world == old(world)
    {
      ghost var s := Apply(view, Arrive(task, msg));
      task.ws.Put(msg);
      AdoptTask(task, s);
      Record(old(view), Arrive(task, msg));
    }

    method OtherFinishes(task: AsyncTask)
      requires Valid() && task in view.tasks && !task.correct
      modifies this, task
      ensures Valid() && view == Apply(old(view), Finish(task)) && (old(Sound()) ==> Sound())
      ensures world == old(world)
    {
      ghost var s := Apply(view, Finish(task));
      task.done := true;
      AdoptTask(task, s);
      Record(old(view), Finish(task));
    }

    method CancelOne(task: AsyncTask)
      requires Valid() && task in view.tasks
      modifies this, task
      ensures Valid() && view == Apply(old(view), CancelFromOutside(task)) && (old(Sound()) ==> Sound())
      ensures world == old(world)
    {
      ghost var s := Apply(view, CancelFromOutside(task));
      task.Cancel();
      AdoptTask(task, s);
      Record(old(view), CancelFromOutside(task));
    }

    /** Another call of `close_all` runs up to its wait ... */
    method AnotherCallBegins()
      requires Valid()
      modifies this, world
      ensures Valid() && view == Apply(old(view), AnotherBegins) && (old(Sound()) ==> Sound())
      ensures view.tasks.Keys == old(view).tasks.Keys
      ensures world == old(world)
    {
      ghost var s := AreCancelledByAnother(view);
      shuttingDown := true;
      view := view.(shuttingDown := true);
      CancelThese(connections.Values, s, 0);
      Record(old(view), AnotherBegins);
    }

    /** ... and from its last wait to its end. */
    method AnotherCallEnds()
      requires Valid()
      modifies this
      ensures Valid() && view == Apply(old(view), AnotherEnds) && (old(Sound()) ==> Sound())
      ensures view.tasks == old(view).tasks
      ensures world == old(world)
    {
      connections := map[];
      view := view.(connections := map[]);
      Record(old(view), AnotherEnds);
    }

    method OneEvent(e: Event<AsyncTask>)
      requires Valid() && Possible(e)
      modifies this, world, Sockets()
      ensures Valid() && view == Apply(old(view), e) && (old(Sound()) ==> Sound())
      ensures world == old(world)
    {
      if e.AnotherBegins? {
        AnotherCallBegins();
      } else if e.AnotherEnds? {
        AnotherCallEnds();
      } else if e.Deregister? {
        Deregister(e.conn);
      } else {
        TaskEvent(e);
      }
    }

    method TaskEvent(e: Event<AsyncTask>)
      requires Valid() && Possible(e) && !e.Deregister? && !e.AnotherBegins? && !e.AnotherEnds?
      modifies this, e.t, e.t.ws
      ensures Valid() && view == Apply(old(view), e) && (old(Sound()) ==> Sound())
      ensures world == old(world)
    {
      match e {
        case Spawn(t, _) => Spawn(t);
        case Arrive(t, msg) => if t.created && t.correct { ClientSends(t, msg); } else { Record(view, e); }
        case Step(t) => if t.created && t.correct && !t.done { ResumeHandler(t); } else { Record(view, e); }
        case Register(conn, t) => if t.created && !t.correct { Register(conn, t); } else { Record(view, e); }
        case Finish(t) => if t.created && !t.correct { OtherFinishes(t); } else { Record(view, e); }
        case CancelFromOutside(t) => if t.created { CancelOne(t); } else { Record(view, e); }
      }
    }

    method Suspend(events: seq<Event<AsyncTask>>)
      requires Valid() && Outside(events)
      modifies this, world, Sockets()
      ensures Valid() && view == Exec(old(view), events) && (old(Sound()) ==> Sound())
      ensures world == old(world) && view.closer == old(view).closer
      ensures old(view).tasks.Keys <= view.tasks.Keys
      ensures old(shuttingDown) ==> shuttingDown
    {
      RunEvents(events);
      OutsideRun(old(view), events);
      TasksGrow(old(view), events);
    }

    method RunEvents(events: seq<Event<AsyncTask>>)
      requires Valid() && Outside(events)
      modifies this, world, Sockets()
      ensures Valid() && view == Exec(old(view), events) && (old(Sound()) ==> Sound())
      ensures world == old(world)
    {
      for i := 0 to |events|
        invariant Valid() && view == Exec(old(view), events[..i]) && (old(Sound()) ==> Sound())
        invariant world == old(world)
      {
        ExecNext(old(view), events, i);
        OneEvent(events[i]);
      }
      assert events[..|events|] == events;
    }

    /** The first stretch of `close_all`: the registered tasks are cancelled. */
    method BeginCloseAll()
      requires Valid() && !Running(view) && connections != map[]
      modifies this, world
      ensures Valid() && view == Apply(old(view), ShutdownModel.CloseAll)
      ensures view.closer == Waiting(old(connections)) && view.tasks.Keys == old(view).tasks.Keys && shuttingDown
      ensures world == old(world) && (old(Sound()) ==> Sound())
    {
      CancelRegisteredTasks();
      Record(old(view), ShutdownModel.CloseAll);
    }

    method CancelRegisteredTasks()
      requires Valid() && !Running(view) && connections != map[]
      modifies this, world
      ensures Valid() && view == Apply(old(view), ShutdownModel.CloseAll)
      ensures view.closer == Waiting(old(connections)) && view.tasks.Keys == old(view).tasks.Keys && shuttingDown
      ensures world == old(world) && run == old(run)
    {
      ghost var s := AreCancelled(view);
      CancelEntries(s);
    }

    /** What the first stretch does to the tasks. */
    method CancelEntries(ghost u: State<AsyncTask>)
      requires Valid() && u.connections == connections && u.shuttingDown && u.tasks.Keys == view.tasks.Keys
      requires forall t :: t in view.tasks ==>
        u.tasks[t] == CancelledBy(view.tasks[t], Count(connections, connections.Keys, t))
      modifies this, world
      ensures Valid() && view == u && shuttingDown && world == old(world) && run == old(run)
    {
      shuttingDown := true;
      CancelAll(connections, view.tasks);
      Adopt(u);
    }

    /** The second stretch: `_done, pending = await asyncio.wait(tasks, timeout)` returns. */
    method EndWait(tasks: set<AsyncTask>) returns (pending: set<AsyncTask>)
      requires Valid() && view.closer.Waiting? && tasks == Tasks(view.closer.start) && tasks <= view.tasks.Keys
      modifies this, world
      ensures Valid() && view == Apply(old(view), WaitEnds) && (old(Sound()) ==> Sound())
      ensures pending == {} ==> view.closer.Returned? && connections == map[]
      ensures pending != {} ==> view.closer == Gathering(old(view).closer.start, pending)
      ensures view.tasks.Keys == old(view).tasks.Keys && shuttingDown == old(shuttingDown)
      ensures world == old(world)
    {
      pending := set t | t in tasks && !t.done;
      assert pending == StillPending(view, view.closer.start);
      CancelPending(pending);
      Record(old(view), WaitEnds);
    }

    /** What the second stretch does about the pending tasks. */
    method CancelPending(pending: set<AsyncTask>)
      requires Valid() && view.closer.Waiting? && pending == StillPending(view, view.closer.start)
      modifies this, world
      ensures Valid() && view == Apply(old(view), WaitEnds) && run == old(run)
      ensures if pending == {} then view.closer.Returned? && connections == map[]
              else view.closer == Gathering(old(view).closer.start, pending)
      ensures view.tasks.Keys == old(view).tasks.Keys && shuttingDown == old(shuttingDown)
      ensures world == old(world)
    {
      ghost var s := AreCancelledAgain(view, pending);
      if pending == {} {
        connections := map[];
        view := s;
      } else {
        CancelThese(pending, s, 1);
      }
    }

    method CancelThese(tasks: set<AsyncTask>, ghost u: State<AsyncTask>, ghost extra: nat)
      requires Valid() && u.connections == connections && u.shuttingDown == shuttingDown
      requires u.tasks.Keys == view.tasks.Keys && tasks <= view.tasks.Keys
      requires forall t :: t in view.tasks ==>
        u.tasks[t] == if t in tasks then ShutdownModel.Cancel(view.tasks[t]).(cancels := view.tasks[t].cancels + extra)
                      else view.tasks[t]
      modifies this, world
      ensures Valid() && view == u && world == old(world) && run == old(run)
    {
      CancelEach(tasks, view.tasks, extra);
      Adopt(u);
    }

    /** The last stretch, once `gather` has returned. */
    method EndGather(pending: set<AsyncTask>) returns (finished: bool)
      requires Valid() && view.closer.Gathering? && pending == view.closer.pending <= view.tasks.Keys
      modifies this
      ensures Valid() && view == Apply(old(view), GatherEnds) && (old(Sound()) ==> Sound())
      ensures finished == view.closer.Returned? && (finished ==> connections == map[])
      ensures shuttingDown == old(shuttingDown)
      ensures world == old(world)
    {
      finished := forall t :: t in pending ==> t.done;
      assert finished == AllDone(view, pending);
      if finished {
        connections := map[];
        view := DoGatherEnds(view);
      }
      Record(old(view), GatherEnds);
    }

    method CloseNone()
      requires Valid() && !Running(view) && connections == map[]
      modifies this, world
      ensures Valid() && view == Apply(old(view), ShutdownModel.CloseAll) && (old(Sound()) ==> Sound())
      ensures view.closer.Returned? && connections == map[] && shuttingDown
      ensures world == old(world)
    {
      ghost var s := NoneToCancel(view);
      CancelEntries(s);
      Record(old(view), ShutdownModel.CloseAll);
    }

    /** `close_all` from its first suspension on. */
    method WaitAndGather(tasks: set<AsyncTask>, waiting: seq<Event<AsyncTask>>, gathering: seq<Event<AsyncTask>>)
      returns (finished: bool)
      requires Valid() && Outside(waiting) && Outside(gathering)
      requires view.closer.Waiting? && tasks == Tasks(view.closer.start) && tasks <= view.tasks.Keys
      modifies this, world, Sockets()
      ensures Valid() && view == AfterWait(old(view), waiting, gathering) && (old(Sound()) ==> Sound())
      ensures finished == view.closer.Returned? && (finished ==> connections == map[])
      ensures old(shuttingDown) ==> shuttingDown
      ensures world == old(world)
    {
      Suspend(waiting);
      var pending := EndWait(tasks);
      finished := pending == {};
      if pending != {} {
        Suspend(gathering);
        finished := EndGather(pending);
      }
    }

    lemma EndedTasks(start: map<string, AsyncTask>)
      requires Valid() && start.Values <= world
      ensures AllEnded(view, start) <==> forall t :: t in start.Values ==> t.done
    {
      assert forall t :: t in start.Values ==> t.Fits(view.tasks);
    }

    /** `close_all`, given what happens while it is suspended.  None: it is still suspended in `gather`. */
    method CloseAll(waiting: seq<Event<AsyncTask>>, gathering: seq<Event<AsyncTask>>) returns (closed: Option<nat>)
      requires Valid() && !Running(view) && Outside(waiting) && Outside(gathering)
      modifies this, world, Sockets()
      ensures Valid() && view == AfterCloseAll(old(view), waiting, gathering) && (old(Sound()) ==> Sound())
      ensures closed == if view.closer.Returned? then Some(|old(connections)|) else None
      ensures closed.Some? ==> connections == map[]
      ensures closed.Some? <==> forall t :: t in old(connections).Values ==> t.done
      ensures shuttingDown
      ensures world == old(world)
    {
      var start := connections;
      var finished := true;
      if |start| == 0 {
        CloseNone();
      } else {
        BeginCloseAll();
        finished := WaitAndGather(start.Values, waiting, gathering);
      }
      closed := if finished then Some(|start|) else None;
      CallReturnsIff(old(view), waiting, gathering);
      EndedTasks(start);
    }
  }
}
