/** What `close_all` guarantees over every interleaving with the handlers. */
module ShutdownRuns {
  import opened ShutdownModel

  lemma ReachedInv<T>(events: seq<Event<T>>)
    ensures Inv(Reached(events))
  {
    ExecInv(Start(), events);
  }

  /** The event is a stretch of `close_all` that ends the call. */
  predicate Returns<T>(s: State<T>, e: Event<T>) {
    && Apply(s, e).closer.Returned?
    && match e
       case CloseAll => !Running(s)
       case WaitEnds => s.closer.Waiting?
       case GatherEnds => s.closer.Gathering? && AllDone(s, s.closer.pending)
       case _ => false
  }

  /** On return every task that was registered at the start is done, and was cancelled once per
      entry, and once more exactly if it was still pending after the wait; the result is the number
      of connections at the start, whatever deregistered meanwhile, and the registry is empty. */
  lemma CloseAllReturns<T>(events: seq<Event<T>>, e: Event<T>)
    requires Returns(Reached(events), e)
    ensures var u := Apply(Reached(events), e);
      var start := u.closer.start;
      && u.closer.result == |start|
      && u.connections == map[] && u.shuttingDown
      && (forall t :: t in Tasks(start) ==>
            && t in u.tasks && u.tasks[t].done
            && u.tasks[t].cancels == Entries(start, t) + (if t in u.closer.pending then 1 else 0))
  {
    ReachedInv(events);
    ApplyInv(Reached(events), e);
    ShuttingDown(events);
  }

  lemma FlagStays<T>(s: State<T>, e: Event<T>)
    requires s.closer.Idle? || s.shuttingDown
    ensures Apply(s, e).closer.Idle? || Apply(s, e).shuttingDown
  {
    if !ByCloser(e) { OutsideKeeps(s, e); }
  }

  lemma {:induction false} ShuttingDown<T>(events: seq<Event<T>>)
    ensures Reached(events).closer.Idle? || Reached(events).shuttingDown
  {
    if events != [] {
      ShuttingDown(events[..|events| - 1]);
      FlagStays(Reached(events[..|events| - 1]), events[|events| - 1]);
    }
  }

  /** `start` is the registry at the moment `close_all` was called, and the second cancel went to
      the tasks that were not done when the wait ended. */
  lemma CloseAllStretches<T>(events: seq<Event<T>>)
    ensures var s := Reached(events);
      && (!Running(s) ==> Apply(s, CloseAll).closer.start == s.connections)
      && (s.closer.Waiting? ==>
            var u := Apply(s, WaitEnds);
            && u.closer.start == s.closer.start
            && forall t :: t in Tasks(s.closer.start) ==> t in s.tasks && (t in u.closer.pending <==> !s.tasks[t].done))
      && (s.closer.Gathering? ==> Apply(s, GatherEnds).closer.start == s.closer.start
                                  && Apply(s, GatherEnds).closer.pending == s.closer.pending)
  {
    ReachedInv(events);
  }

  /** With one entry per task the first loop cancels each task once. */
  lemma OneEntryEach<T>(start: map<string, T>, t: T)
    requires forall c, d :: c in start && d in start && start[c] == start[d] ==> c == d
    requires t in Tasks(start)
    ensures Entries(start, t) == 1
  {
    var c :| c in start && start[c] == t;
    assert (set d | d in start && start[d] == t) == {c};
  }

  /** Every connection whose handler is `correct_ws_handler` has its socket closed on return. */
  lemma EverySocketClosed<T>(events: seq<Event<T>>, e: Event<T>, t: T)
    requires Returns(Reached(events), e) && t in Tasks(Apply(Reached(events), e).closer.start)
    ensures var u := Apply(Reached(events), e);
      t in u.tasks && (u.tasks[t].handler.Correct? ==> u.tasks[t].handler.sock.closed)
  {
    ReachedInv(events);
    ApplyInv(Reached(events), e);
  }

  /** A correct handler closes its socket exactly when it ends, is registered under its own id
      only while it runs, and sends nothing but the echo of each text it took, in order. */
  lemma CorrectHandler<T>(events: seq<Event<T>>, t: T)
    requires t in Reached(events).tasks && Reached(events).tasks[t].handler.Correct?
    ensures var s := Reached(events);
      var h := s.tasks[t].handler;
      && (h.started ==> (h.sock.closed <==> s.tasks[t].done))
      && (forall c :: c in s.connections && s.connections[c] == t ==> c == h.conn && h.started && !s.tasks[t].done)
      && |h.sock.sent| == |h.sock.consumed|
      && (forall i :: 0 <= i < |h.sock.sent| ==> h.sock.sent[i] == Echo(h.sock.consumed[i]))
  {
    ReachedInv(events);
  }

  // ------------------------------------------------------------------
  // Correct handlers keep the registry accurate and answer everything in order
  // ------------------------------------------------------------------

  /** The task runs a correct handler under this id. */
  predicate Runs<T>(s: State<T>, t: T, conn: string) {
    t in s.tasks && s.tasks[t].handler.Correct? && s.tasks[t].handler.conn == conn
  }

  ghost predicate DistinctConns<T(!new)>(s: State<T>) {
    forall t, u, conn :: Runs(s, t, conn) && Runs(s, u, conn) ==> t == u
  }

  /** The entry of this connection is there while its handler runs. */
  ghost predicate EntryInv<T(!new)>(s: State<T>, conn: string) {
    forall t :: Runs(s, t, conn) && s.tasks[t].handler.started && !s.tasks[t].done ==>
      conn in s.connections && s.connections[conn] == t
  }

  /** Other code leaves the entry alone, and no `close_all` gets to clear the registry. */
  predicate LeavesAlone<T>(e: Event<T>, conn: string) {
    !e.WaitEnds? && !e.GatherEnds? && !e.AnotherEnds? && (e.Register? || e.Deregister? ==> e.conn != conn)
  }

  lemma SameConn<T>(s: State<T>, e: Event<T>, t: T, conn: string)
    requires Runs(Apply(s, e), t, conn)
    ensures Runs(s, t, conn) || (e.Spawn? && e.t == t && FreshConn(s, conn))
  {
    match e
    case Spawn(x, handler) =>
    case Step(x) =>
    case _ =>
  }

  lemma ApplyDistinct<T(!new)>(s: State<T>, e: Event<T>)
    requires DistinctConns(s)
    ensures DistinctConns(Apply(s, e))
  {
    forall t, u, conn | Runs(Apply(s, e), t, conn) && Runs(Apply(s, e), u, conn) ensures t == u {
      SameConn(s, e, t, conn);
      SameConn(s, e, u, conn);
    }
  }

  /** A handler's own step, or another handler's. */
  lemma HandlerStep<T>(s: State<T>, t: T, u: T, conn: string)
    requires t in s.tasks && s.tasks[t].handler.Correct? && !s.tasks[t].done && Runs(s, u, conn)
    requires t != u ==> !Runs(s, t, conn)
    requires s.tasks[u].handler.started && !s.tasks[u].done ==> conn in s.connections && s.connections[conn] == u
    ensures var r := DoStep(s, t);
      u in r.tasks
      && (r.tasks[u].handler.Correct? && r.tasks[u].handler.started && !r.tasks[u].done ==>
            conn in r.connections && r.connections[conn] == u)
  {}

  /** What a step does to the entry and to the handler of this connection. */
  lemma EntryStep<T>(s: State<T>, e: Event<T>, u: T, conn: string)
    requires LeavesAlone(e, conn) && Runs(s, u, conn)
    requires e.Step? && e.t != u ==> !Runs(s, e.t, conn)
    requires s.tasks[u].handler.started && !s.tasks[u].done ==> conn in s.connections && s.connections[conn] == u
    ensures var r := Apply(s, e);
      u in r.tasks
      && (r.tasks[u].handler.Correct? && r.tasks[u].handler.started && !r.tasks[u].done ==>
            conn in r.connections && r.connections[conn] == u)
  {
    match e
    case Step(t) => if t in s.tasks && s.tasks[t].handler.Correct? && !s.tasks[t].done { HandlerStep(s, t, u, conn); }
    case Register(c, t) =>
    case Deregister(c) =>
    case _ =>
  }

  lemma ApplyEntry<T(!new)>(s: State<T>, e: Event<T>, conn: string)
    requires DistinctConns(s) && EntryInv(s, conn) && LeavesAlone(e, conn)
    ensures EntryInv(Apply(s, e), conn)
  {
    var r := Apply(s, e);
    forall u | Runs(r, u, conn) && r.tasks[u].handler.started && !r.tasks[u].done
      ensures conn in r.connections && r.connections[conn] == u
    {
      SameConn(s, e, u, conn);
      if Runs(s, u, conn) { EntryStep(s, e, u, conn); }
    }
  }

  lemma {:induction false} AlwaysDistinct<T(!new)>(events: seq<Event<T>>)
    ensures DistinctConns(Reached(events))
  {
    if events != [] {
      AlwaysDistinct(events[..|events| - 1]);
      ApplyDistinct(Reached(events[..|events| - 1]), events[|events| - 1]);
    }
  }

  lemma {:induction false} EntryKept<T(!new)>(events: seq<Event<T>>, conn: string)
    requires forall e :: e in events ==> LeavesAlone(e, conn)
    ensures EntryInv(Reached(events), conn)
  {
    if events != [] {
      var before, last := events[..|events| - 1], events[|events| - 1];
      assert last in events && forall e :: e in before ==> e in events;
      EntryKept(before, conn);
      AlwaysDistinct(before);
      ApplyEntry(Reached(before), last, conn);
    }
  }

  /** Unless somebody else interferes, a handler is registered exactly while it runs. */
  lemma RegistryAccurate<T(!new)>(events: seq<Event<T>>, t: T)
    requires t in Reached(events).tasks && Reached(events).tasks[t].handler.Correct?
    requires forall e :: e in events ==> LeavesAlone(e, Reached(events).tasks[t].handler.conn)
    ensures var s := Reached(events);
      var h := s.tasks[t].handler;
      (h.conn in s.connections && s.connections[h.conn] == t) <==> h.started && !s.tasks[t].done
  {
    EntryKept(events, Reached(events).tasks[t].handler.conn);
    CorrectHandler(events, t);
  }

  /** The messages that reached the socket of a handler. */
  function Arrivals<T(==)>(events: seq<Event<T>>, t: T): seq<Inbound> {
    if events == [] then []
    else
      var before, last := events[..|events| - 1], events[|events| - 1];
      Arrivals(before, t)
      + if last.Arrive? && last.t == t && t in Reached(before).tasks && Reached(before).tasks[t].handler.Correct?
        then [last.msg] else []
  }

  function Texts(texts: seq<string>): seq<Inbound> {
    if texts == [] then [] else Texts(texts[..|texts| - 1]) + [Text(texts[|texts| - 1])]
  }

  lemma MoreTexts(texts: seq<string>, text: string)
    ensures Texts(texts + [text]) == Texts(texts) + [Text(text)]
  {
    assert (texts + [text])[..|texts|] == texts;
  }

  /** The texts a running handler took are the arrivals up to what waits in its socket. */
  ghost predicate TakenInOrder(task: Task, arrivals: seq<Inbound>) {
    task.handler.Correct? ==>
      if task.done then Texts(task.handler.sock.consumed) <= arrivals
      else Texts(task.handler.sock.consumed) + task.handler.sock.inbox == arrivals
  }

  lemma StepTaken<T>(s: State<T>, t: T, arrivals: seq<Inbound>)
    requires t in s.tasks && s.tasks[t].handler.Correct? && !s.tasks[t].done
    requires TakenInOrder(s.tasks[t], arrivals)
    ensures t in DoStep(s, t).tasks && TakenInOrder(DoStep(s, t).tasks[t], arrivals)
  {
    var sock := s.tasks[t].handler.sock;
    if sock.inbox != [] {
      assert Texts(sock.consumed) + [sock.inbox[0]] + sock.inbox[1..] == arrivals;
      if sock.inbox[0].Text? { MoreTexts(sock.consumed, sock.inbox[0].text); }
    }
  }

  /** Nothing but its own steps and arrivals moves a correct handler's messages. */
  lemma Untouched<T>(s: State<T>, e: Event<T>, t: T)
    requires t in s.tasks && s.tasks[t].handler.Correct? && e != Step(t) && !(e.Arrive? && e.t == t)
    ensures t in Apply(s, e).tasks
    ensures var task := Apply(s, e).tasks[t];
      task.handler == s.tasks[t].handler && task.done == s.tasks[t].done
  {}

  lemma ArrivalTaken<T>(s: State<T>, t: T, msg: Inbound, arrivals: seq<Inbound>)
    requires t in s.tasks && s.tasks[t].handler.Correct? && TakenInOrder(s.tasks[t], arrivals)
    ensures t in Apply(s, Arrive(t, msg)).tasks
    ensures TakenInOrder(Apply(s, Arrive(t, msg)).tasks[t], arrivals + [msg])
  {
    var sock := s.tasks[t].handler.sock;
    assert Texts(sock.consumed) + sock.inbox + [msg] == Texts(sock.consumed) + (sock.inbox + [msg]);
  }

  lemma NewTaken<T>(s: State<T>, e: Event<T>, t: T)
    requires t !in s.tasks && t in Apply(s, e).tasks
    ensures TakenInOrder(Apply(s, e).tasks[t], []) && !e.Arrive?
  {}

  lemma OtherStaysOther<T>(s: State<T>, e: Event<T>, t: T)
    requires t in s.tasks && s.tasks[t].handler.Other?
    ensures t in Apply(s, e).tasks && Apply(s, e).tasks[t].handler.Other?
  {
    if !ByCloser(e) { OutsideKeeps(s, e); }
  }

  lemma ApplyTaken<T>(s: State<T>, e: Event<T>, t: T, arrivals: seq<Inbound>)
    requires if t in s.tasks then TakenInOrder(s.tasks[t], arrivals) else arrivals == []
    ensures var more := arrivals
        + if e.Arrive? && e.t == t && t in s.tasks && s.tasks[t].handler.Correct? then [e.msg] else [];
      if t in Apply(s, e).tasks then TakenInOrder(Apply(s, e).tasks[t], more) else more == []
  {
    if t !in s.tasks {
      if t in Apply(s, e).tasks { NewTaken(s, e, t); }
    } else if s.tasks[t].handler.Other? {
      OtherStaysOther(s, e, t);
    } else if e.Arrive? && e.t == t {
      ArrivalTaken(s, t, e.msg, arrivals);
    } else if e == Step(t) {
      if !s.tasks[t].done { StepTaken(s, t, arrivals); }
    } else {
      Untouched(s, e, t);
    }
  }

  lemma {:induction false} AllTaken<T>(events: seq<Event<T>>, t: T)
    ensures var s := Reached(events);
      if t in s.tasks then TakenInOrder(s.tasks[t], Arrivals(events, t)) else Arrivals(events, t) == []
  {
    if events != [] {
      var before := events[..|events| - 1];
      AllTaken(before, t);
      ApplyTaken(Reached(before), events[|events| - 1], t, Arrivals(before, t));
    }
  }

  /** A handler answers what its client sent, each text once, in order, and nothing else: it has
      answered everything but what still waits in its socket while it runs, and a prefix for ever
      after. */
  lemma EchoesInOrder<T>(events: seq<Event<T>>, t: T)
    requires t in Reached(events).tasks && Reached(events).tasks[t].handler.Correct?
    ensures var task := Reached(events).tasks[t];
      var sock := task.handler.sock;
      && |sock.sent| == |sock.consumed|
      && (forall i :: 0 <= i < |sock.sent| ==> sock.sent[i] == Echo(sock.consumed[i]))
      && (if task.done then Texts(sock.consumed) <= Arrivals(events, t)
          else Texts(sock.consumed) + sock.inbox == Arrivals(events, t))
  {
    CorrectHandler(events, t);
    AllTaken(events, t);
  }

  // ------------------------------------------------------------------
  // One resumption of a correct handler
  // ------------------------------------------------------------------

  /** The handler is resumed from its receive loop and finds a message; nobody has cancelled it. */
  predicate Receives<T>(s: State<T>, t: T, msg: Inbound) {
    && t in s.tasks && !s.tasks[t].done && !s.tasks[t].cancelRequested
    && s.tasks[t].handler.Correct? && s.tasks[t].handler.started
    && s.tasks[t].handler.sock.inbox != [] && s.tasks[t].handler.sock.inbox[0] == msg
  }

  /** Nobody else's task, socket or entry has moved. */
  ghost predicate OnlyThis<T>(s: State<T>, u: State<T>, t: T) {
    && u.closer == s.closer && u.shuttingDown == s.shuttingDown && u.tasks.Keys == s.tasks.Keys
    && forall x :: x in s.tasks && x != t ==> u.tasks[x] == s.tasks[x]
  }

  /** A text that finds the socket open is taken and answered, and the handler goes on. */
  lemma TextAnswered<T>(s: State<T>, t: T, text: string)
    requires Receives(s, t, Text(text)) && !s.tasks[t].handler.sock.closed
    ensures var u, sock := Apply(s, Step(t)), s.tasks[t].handler.sock;
      && OnlyThis(s, u, t) && u.connections == s.connections && t in u.tasks && u.tasks[t].handler.Correct?
      && !u.tasks[t].done && u.tasks[t].handler.started && !u.tasks[t].handler.sock.closed
      && u.tasks[t].handler.sock.inbox == sock.inbox[1..]
      && u.tasks[t].handler.sock.sent == sock.sent + ["echo: " + text]
  {}

  /** The end of file, a closed socket and a cancel end the handler: its socket is closed, its entry is
      gone, nothing is sent. */
  lemma HandlerLeaves<T>(s: State<T>, t: T)
    requires t in s.tasks && !s.tasks[t].done && s.tasks[t].handler.Correct? && s.tasks[t].handler.started
    requires s.tasks[t].cancelRequested || Receives(s, t, Eof)
          || (s.tasks[t].handler.sock.closed && s.tasks[t].handler.sock.inbox != [])
    ensures var u, h := Apply(s, Step(t)), s.tasks[t].handler;
      && OnlyThis(s, u, t) && u.connections == s.connections - {h.conn} && t in u.tasks && u.tasks[t].handler.Correct?
      && u.tasks[t].done && u.tasks[t].handler.sock.closed && u.tasks[t].handler.sock.sent == h.sock.sent
  {}

  /** A handler that starts is registered under its own id, unless it was cancelled before; one that
      finds nothing waits. */
  lemma HandlerStarts<T>(s: State<T>, t: T)
    requires t in s.tasks && !s.tasks[t].done && s.tasks[t].handler.Correct?
    ensures var u, h := Apply(s, Step(t)), s.tasks[t].handler;
      && (!h.started ==>
            && OnlyThis(s, u, t) && t in u.tasks && u.tasks[t].handler.Correct? && u.tasks[t].handler.sock == h.sock
            && u.connections == (if s.tasks[t].cancelRequested then s.connections else s.connections[h.conn := t])
            && (if s.tasks[t].cancelRequested then u.tasks[t].done && !u.tasks[t].handler.started
                else !u.tasks[t].done && u.tasks[t].handler.started))
      && (h.started && !s.tasks[t].cancelRequested && h.sock.inbox == [] ==> u == s)
  {}

  /** The answer tells the text. */
  lemma EchoTellsText(a: string, b: string)
    ensures Echo(a) == Echo(b) ==> a == b
  {
    if Echo(a) == Echo(b) {
      assert ("echo: " + a)[6..] == a && ("echo: " + b)[6..] == b;
    }
  }

  /** What is answered to these messages, all of them texts. */
  function Answers(inbox: seq<Inbound>): seq<string>
    requires forall i :: 0 <= i < |inbox| ==> inbox[i].Text?
  {
    seq(|inbox|, i requires 0 <= i < |inbox| => "echo: " + inbox[i].text)
  }

  predicate Serves(task: Task) {
    !task.done && !task.cancelRequested && task.handler.Correct? && task.handler.started && !task.handler.sock.closed
  }

  predicate AllTexts(inbox: seq<Inbound>) { forall i :: 0 <= i < |inbox| ==> inbox[i].Text? }

  /** k resumptions after it had this socket, the handler has answered k of the messages that waited in
      it, and serves, or it has answered all of them. */
  ghost predicate AnsweredSo(was: Socket, task: Task, k: nat)
    requires AllTexts(was.inbox)
  {
    && task.handler.Correct?
    && var sock, j := task.handler.sock, |task.handler.sock.sent| - |was.sent|;
      && 0 <= j
      && if j < |was.inbox|
         then k <= j && Serves(task) && sock.sent == was.sent + Answers(was.inbox[..j]) && was.inbox[j..] <= sock.inbox
         else was.sent + Answers(was.inbox) <= sock.sent
  }

  predicate Cancels<T(==)>(e: Event<T>, t: T) {
    e == CancelFromOutside(t) || e.AnotherBegins? || e.CloseAll? || e.WaitEnds?
  }

  lemma NotCancelled<T>(s: State<T>, e: Event<T>, t: T)
    requires t in s.tasks && s.tasks[t].handler.Correct? && !Cancels(e, t) && e != Step(t)
    ensures t in Apply(s, e).tasks && Apply(s, e).tasks[t].cancelRequested == s.tasks[t].cancelRequested
  {
    match e
    case Step(x) =>
    case Arrive(x, msg) =>
    case _ =>
  }

  lemma OneMoreAnswer(was: Socket, j: nat, sent: seq<string>, text: string)
    requires AllTexts(was.inbox) && j < |was.inbox| && was.inbox[j] == Text(text)
    requires sent == was.sent + Answers(was.inbox[..j])
    ensures sent + ["echo: " + text] == was.sent + Answers(was.inbox[..j + 1])
    ensures was.inbox[j..][1..] == was.inbox[j + 1..] && was.inbox[..|was.inbox|] == was.inbox
  {}

  lemma SentGrows<T>(s: State<T>, t: T)
    requires t in s.tasks && s.tasks[t].handler.Correct?
    ensures var u := Apply(s, Step(t));
      t in u.tasks && u.tasks[t].handler.Correct? && s.tasks[t].handler.sock.sent <= u.tasks[t].handler.sock.sent
  {}

  lemma AnswerStep<T>(s: State<T>, t: T, was: Socket, k: nat)
    requires AllTexts(was.inbox) && t in s.tasks && AnsweredSo(was, s.tasks[t], k)
    ensures t in Apply(s, Step(t)).tasks && AnsweredSo(was, Apply(s, Step(t)).tasks[t], k + 1)
  {
    var sock := s.tasks[t].handler.sock;
    var j := |sock.sent| - |was.sent|;
    if j < |was.inbox| {
      assert sock.inbox[0] == was.inbox[j];
      TextAnswered(s, t, was.inbox[j].text);
      OneMoreAnswer(was, j, sock.sent, was.inbox[j].text);
    } else {
      SentGrows(s, t);
    }
  }

  lemma OtherAnswerStep<T>(s: State<T>, e: Event<T>, t: T, was: Socket, k: nat)
    requires AllTexts(was.inbox) && t in s.tasks && AnsweredSo(was, s.tasks[t], k)
    requires !Cancels(e, t) && e != Step(t)
    ensures t in Apply(s, e).tasks && AnsweredSo(was, Apply(s, e).tasks[t], k)
  {
    NotCancelled(s, e, t);
    if e.Arrive? && e.t == t {
      var sock := s.tasks[t].handler.sock;
      assert sock.inbox <= sock.inbox + [e.msg];
    } else {
      Untouched(s, e, t);
    }
  }

  function Steps<T(==)>(events: seq<Event<T>>, t: T): nat {
    if events == [] then 0
    else Steps(events[..|events| - 1], t) + if events[|events| - 1] == Step(t) then 1 else 0
  }

  lemma {:induction false} AnswersGoOn<T>(s: State<T>, more: seq<Event<T>>, t: T)
    requires t in s.tasks && Serves(s.tasks[t]) && AllTexts(s.tasks[t].handler.sock.inbox)
    requires forall e :: e in more ==> !Cancels(e, t)
    ensures t in Exec(s, more).tasks && AnsweredSo(s.tasks[t].handler.sock, Exec(s, more).tasks[t], Steps(more, t))
  {
    var was := s.tasks[t].handler.sock;
    if more == [] {
      assert was.sent + Answers(was.inbox[..0]) == was.sent && Answers([]) == [];
    } else {
      var before, e := more[..|more| - 1], more[|more| - 1];
      assert e in more && forall x :: x in before ==> x in more;
      AnswersGoOn(s, before, t);
      if e == Step(t) {
        AnswerStep(Exec(s, before), t, was, Steps(before, t));
      } else {
        OtherAnswerStep(Exec(s, before), e, t, was, Steps(before, t));
      }
    }
  }

  /** A handler that serves and is not cancelled answers every text that waits for it, in order, within
      as many resumptions as there are, whatever else happens meanwhile. */
  lemma EveryTextAnswered<T>(s: State<T>, more: seq<Event<T>>, t: T)
    requires t in s.tasks && Serves(s.tasks[t]) && AllTexts(s.tasks[t].handler.sock.inbox)
    requires forall e :: e in more ==> !Cancels(e, t)
    requires Steps(more, t) >= |s.tasks[t].handler.sock.inbox|
    ensures var u, sock := Exec(s, more), s.tasks[t].handler.sock;
      && t in u.tasks && u.tasks[t].handler.Correct?
      && sock.sent + Answers(sock.inbox) <= u.tasks[t].handler.sock.sent
  {
    AnswersGoOn(s, more, t);
  }

  // ------------------------------------------------------------------
  // One cancel is enough for correct handlers
  // ------------------------------------------------------------------

  ghost predicate Doomed(task: Task) { task.handler.Correct? && (task.done || task.cancelRequested) }

  lemma StepEnds<T>(s: State<T>, t: T)
    requires t in s.tasks && Doomed(s.tasks[t])
    ensures t in Apply(s, Step(t)).tasks && Apply(s, Step(t)).tasks[t].done
  {}

  lemma {:induction false} ScheduledEnds<T>(s: State<T>, events: seq<Event<T>>, t: T)
    requires t in s.tasks && Doomed(s.tasks[t])
    requires Outside(events)
    ensures var u := Exec(s, events);
      t in u.tasks && Doomed(u.tasks[t]) && (Step(t) in events ==> u.tasks[t].done)
  {
    if events != [] {
      var before, last := events[..|events| - 1], events[|events| - 1];
      ScheduledEnds(s, before, t);
      var r := Exec(s, before);
      OutsideKeeps(r, last);
      if last == Step(t) { StepEnds(r, t); }
      assert Kept(r.tasks[t], Exec(s, events).tasks[t]);
      assert Step(t) in events ==> Step(t) in before || last == Step(t);
    }
  }

  /** Nothing in these events is a stretch of the call that is followed. */
  ghost predicate Outside<T>(events: seq<Event<T>>) { forall e :: e in events ==> !ByCloser(e) }

  lemma {:induction false} OutsideRun<T>(s: State<T>, events: seq<Event<T>>)
    requires Outside(events)
    ensures Exec(s, events).closer == s.closer && (s.shuttingDown ==> Exec(s, events).shuttingDown)
  {
    if events != [] {
      OutsideRun(s, events[..|events| - 1]);
      OutsideKeeps(Exec(s, events[..|events| - 1]), events[|events| - 1]);
    }
  }

  lemma {:induction false} TasksGrow<T>(s: State<T>, events: seq<Event<T>>)
    requires Outside(events)
    ensures s.tasks.Keys <= Exec(s, events).tasks.Keys
  {
    if events != [] {
      TasksGrow(s, events[..|events| - 1]);
      OutsideKeeps(Exec(s, events[..|events| - 1]), events[|events| - 1]);
    }
  }

  /** If all registered handlers are correct and each is resumed once before the timeout, nothing
      is pending when the wait ends: `close_all` returns without cancelling anything again. */
  lemma GracefulDrain<T>(events: seq<Event<T>>, more: seq<Event<T>>)
    requires Reached(events).closer.Waiting?
    requires Outside(more)
    requires forall t :: t in Tasks(Reached(events).closer.start) ==> t in Reached(events).tasks
    requires forall t :: t in Tasks(Reached(events).closer.start) ==>
      Step(t) in more && Reached(events).tasks[t].handler.Correct?
    ensures var s := Exec(Reached(events), more);
      Returns(s, WaitEnds) && Apply(s, WaitEnds).closer.pending == {}
  {
    ReachedInv(events);
    OutsideRun(Reached(events), more);
    var s := Exec(Reached(events), more);
    forall t | t in Tasks(s.closer.start) ensures t in s.tasks && s.tasks[t].done {
      ScheduledEnds(Reached(events), more, t);
    }
    assert StillPending(s, s.closer.start) == {};
  }

  // ------------------------------------------------------------------
  // A whole call
  // ------------------------------------------------------------------

  /** A call of `close_all`: what happens while it is suspended in the wait, and in `gather`. */
  function AfterCloseAll<T>(s: State<T>, waiting: seq<Event<T>>, gathering: seq<Event<T>>): State<T> {
    var called := Apply(s, CloseAll);
    if called.closer.Waiting? then AfterWait(called, waiting, gathering) else called
  }

  function AfterWait<T>(called: State<T>, waiting: seq<Event<T>>, gathering: seq<Event<T>>): State<T> {
    var waited := Apply(Exec(called, waiting), WaitEnds);
    if waited.closer.Gathering? then Apply(Exec(waited, gathering), GatherEnds) else waited
  }

  lemma WaitPart<T>(called: State<T>, waiting: seq<Event<T>>) returns (waited: State<T>)
    requires Inv(called) && called.closer.Waiting? && Outside(waiting)
    ensures waited == Apply(Exec(called, waiting), WaitEnds)
    ensures Inv(waited) && !waited.closer.Idle? && !waited.closer.Waiting? && waited.closer.start == called.closer.start
    ensures waited.closer.Returned? ==> waited.connections == map[]
  {
    ExecInv(called, waiting);
    OutsideRun(called, waiting);
    waited := Apply(Exec(called, waiting), WaitEnds);
    ApplyInv(Exec(called, waiting), WaitEnds);
  }

  lemma GatherPart<T>(waited: State<T>, gathering: seq<Event<T>>) returns (u: State<T>)
    requires Inv(waited) && waited.closer.Gathering? && Outside(gathering)
    ensures u == Apply(Exec(waited, gathering), GatherEnds)
    ensures Inv(u) && (u.closer.Returned? || u.closer.Gathering?) && u.closer.start == waited.closer.start
    ensures u.closer.Returned? ==> u.connections == map[]
  {
    ExecInv(waited, gathering);
    OutsideRun(waited, gathering);
    u := Apply(Exec(waited, gathering), GatherEnds);
    ApplyInv(Exec(waited, gathering), GatherEnds);
  }

  lemma AfterCloseAllInv<T>(s: State<T>, waiting: seq<Event<T>>, gathering: seq<Event<T>>)
    requires Inv(s) && !Running(s)
    requires Outside(waiting) && Outside(gathering)
    ensures var u := AfterCloseAll(s, waiting, gathering);
      && Inv(u) && (u.closer.Returned? || u.closer.Gathering?) && u.closer.start == s.connections
      && (u.closer.Returned? ==> u.connections == map[])
  {
    ApplyInv(s, CloseAll);
    if Apply(s, CloseAll).closer.Waiting? {
      var waited := WaitPart(Apply(s, CloseAll), waiting);
      if waited.closer.Gathering? {
        var u := GatherPart(waited, gathering);
      }
    }
  }

  /** Whatever other code does during the two waits: if the call returns, it returns the number
      of connections it found, all of their tasks are done, each was cancelled as counted, every
      correct handler's socket is closed, and the registry is empty. */
  lemma WholeCall<T>(events: seq<Event<T>>, waiting: seq<Event<T>>, gathering: seq<Event<T>>)
    requires !Running(Reached(events))
    requires Outside(waiting) && Outside(gathering)
    ensures var s, u := Reached(events), AfterCloseAll(Reached(events), waiting, gathering);
      u.closer.Returned? ==>
        && u.closer.result == |s.connections| && u.connections == map[]
        && forall t :: t in Tasks(s.connections) ==>
          && t in u.tasks && u.tasks[t].done
          && u.tasks[t].cancels == Entries(s.connections, t) + (if t in u.closer.pending then 1 else 0)
          && (u.tasks[t].handler.Correct? ==> u.tasks[t].handler.sock.closed)
  {
    ReachedInv(events);
    AfterCloseAllInv(Reached(events), waiting, gathering);
  }

  // ------------------------------------------------------------------
  // When a call returns
  // ------------------------------------------------------------------

  ghost predicate AllEnded<T>(s: State<T>, start: map<string, T>) {
    forall t :: t in Tasks(start) ==> t in s.tasks && s.tasks[t].done
  }

  ghost predicate ReturnedWith<T>(s: State<T>, start: map<string, T>) {
    s.closer.Returned? && s.closer.start == start && s.closer.result == |start| && s.connections == map[]
  }

  /** The stretch that ends a wait, and the one that ends `gather`, ends the call if and only if all
      tasks it started with are done; the only other call that returns finds no connection. */
  lemma StretchReturnsIff<T>(events: seq<Event<T>>)
    ensures var s := Reached(events);
      && (!Running(s) ==> (Apply(s, CloseAll).closer.Returned? <==> s.connections == map[]))
      && (s.closer.Waiting? ==>
            var u := Apply(s, WaitEnds);
            if AllEnded(s, s.closer.start) then ReturnedWith(u, s.closer.start) else u.closer.Gathering?)
      && (s.closer.Gathering? ==>
            var u := Apply(s, GatherEnds);
            if AllEnded(s, s.closer.start) then ReturnedWith(u, s.closer.start) else u == s)
  {
    ReachedInv(events);
    var s := Reached(events);
    assert |s.connections| == 0 <==> s.connections == map[];
    if s.closer.Waiting? { PendingIff(s, s.closer.start); }
    if s.closer.Gathering? { GatheredIff(s); }
  }

  lemma PendingIff<T>(s: State<T>, start: map<string, T>)
    requires forall t :: t in Tasks(start) ==> t in s.tasks
    ensures StillPending(s, start) == {} <==> AllEnded(s, start)
  {
    if t :| t in Tasks(start) && !s.tasks[t].done { assert t in StillPending(s, start); }
  }

  lemma GatheredIff<T>(s: State<T>)
    requires s.closer.Gathering? && CloserInv(s)
    ensures AllDone(s, s.closer.pending) <==> AllEnded(s, s.closer.start)
  {}

  lemma CalledOnce<T>(s: State<T>) returns (called: State<T>)
    requires !Running(s) && s.connections != map[] && Tasks(s.connections) <= s.tasks.Keys
    ensures called == Apply(s, CloseAll) && called.closer == Waiting(s.connections)
    ensures called.tasks.Keys == s.tasks.Keys
  {
    called := DoCloseAll(s);
  }

  lemma WaitedOnce<T>(s: State<T>, start: map<string, T>) returns (waited: State<T>)
    requires s.closer == Waiting(start) && Tasks(start) <= s.tasks.Keys
    ensures waited == Apply(s, WaitEnds) && waited.tasks.Keys == s.tasks.Keys
    ensures forall t :: t in s.tasks ==> waited.tasks[t].done == s.tasks[t].done
    ensures if AllEnded(s, start) then ReturnedWith(waited, start)
            else waited.closer == Gathering(start, StillPending(s, start)) && waited.connections == s.connections
  {
    waited := DoWaitEnds(s);
    PendingIff(s, start);
  }

  lemma GatheredOnce<T>(s: State<T>, start: map<string, T>, pending: set<T>)
    requires s.closer == Gathering(start, pending) && pending <= Tasks(start)
    requires forall t :: t in Tasks(start) && t !in pending ==> t in s.tasks && s.tasks[t].done
    ensures var u := Apply(s, GatherEnds);
      if AllEnded(s, start) then ReturnedWith(u, start) && AllEnded(u, start) else u == s
  {}

  lemma GatherPartIff<T>(waited: State<T>, gathering: seq<Event<T>>, start: map<string, T>, pending: set<T>)
    requires waited.closer == Gathering(start, pending) && pending <= Tasks(start) && Outside(gathering)
    requires forall t :: t in Tasks(start) && t !in pending ==> t in waited.tasks && waited.tasks[t].done
    ensures var g := Exec(waited, gathering);
      if AllEnded(g, start) then ReturnedWith(Apply(g, GatherEnds), start) && AllEnded(Apply(g, GatherEnds), start)
      else Apply(g, GatherEnds) == g && g.closer.Gathering?
  {
    OutsideRun(waited, gathering);
    var g := Exec(waited, gathering);
    forall t | t in Tasks(start) && t !in pending ensures t in g.tasks && g.tasks[t].done {
      DoneForEver(waited, gathering, t);
    }
    GatheredOnce(g, start, pending);
  }

  /** A whole call, from any registry whose entries name tasks: it returns, with the number of
      connections it found and an empty registry, if and only if the tasks it found are done in the end. */
  lemma CallReturnsIff<T>(s: State<T>, waiting: seq<Event<T>>, gathering: seq<Event<T>>)
    requires !Running(s) && Tasks(s.connections) <= s.tasks.Keys && Outside(waiting) && Outside(gathering)
    ensures var u := AfterCloseAll(s, waiting, gathering);
      if AllEnded(u, s.connections) then ReturnedWith(u, s.connections) else u.closer.Gathering?
  {
    if s.connections == map[] {
      assert |s.connections| == 0;
    } else {
      var start := s.connections;
      var called := CalledOnce(s);
      OutsideRun(called, waiting);
      TasksGrow(called, waiting);
      var waited := WaitedOnce(Exec(called, waiting), start);
      if waited.closer.Gathering? {
        GatherPartIff(waited, gathering, start, waited.closer.pending);
      }
    }
  }

  /** The events of a whole call: up to where the wait ends, and as far as `gather` if somebody is
      pending then. */
  lemma CallIsARun<T>(s: State<T>, waiting: seq<Event<T>>, gathering: seq<Event<T>>)
    requires !Running(s) && Tasks(s.connections) <= s.tasks.Keys && Outside(waiting) && Outside(gathering)
    ensures var short := [CloseAll] + waiting + [WaitEnds];
      AfterCloseAll(s, waiting, gathering)
      == if s.connections == map[] then Exec(s, [CloseAll])
         else if AllEnded(Exec(s, [CloseAll] + waiting), s.connections) then Exec(s, short)
         else Exec(s, short + gathering + [GatherEnds])
  {
    assert |s.connections| == 0 <==> s.connections == map[];
    OneStretch<T>(s, CloseAll);
    if s.connections != map[] {
      var called := CalledOnce(s);
      OutsideRun(called, waiting);
      TasksGrow(called, waiting);
      JoinRuns(s, [CloseAll], waiting);
      OneStretch(Exec(called, waiting), WaitEnds);
      JoinRuns(s, [CloseAll] + waiting, [WaitEnds]);
      var waited := WaitedOnce(Exec(called, waiting), s.connections);
      JoinRuns(s, [CloseAll] + waiting + [WaitEnds], gathering);
      JoinRuns(s, [CloseAll] + waiting + [WaitEnds] + gathering, [GatherEnds]);
      OneStretch(Exec(waited, gathering), GatherEnds);
    }
  }

  lemma OneStretch<T>(s: State<T>, e: Event<T>)
    ensures Exec(s, [e]) == Apply(s, e)
  {
    assert [e][..0] == [];
    assert Exec(s, []) == s;
  }

  lemma {:induction false} JoinRuns<T>(s: State<T>, first: seq<Event<T>>, second: seq<Event<T>>)
    ensures Exec(s, first + second) == Exec(Exec(s, first), second)
  {
    if second == [] {
      assert first + second == first;
    } else {
      JoinRuns(s, first, second[..|second| - 1]);
      assert (first + second)[..|first + second| - 1] == first + second[..|second| - 1];
    }
  }

  /** A call under way is never stuck: its tasks can end, and then its next stretch returns. */
  lemma CallCanReturn<T>(events: seq<Event<T>>) returns (more: seq<Event<T>>)
    requires Running(Reached(events))
    ensures Outside(more)
    ensures var s := Reached(events);
      ReturnedWith(Apply(Exec(s, more), if s.closer.Waiting? then WaitEnds else GatherEnds), s.closer.start)
  {
    ReachedInv(events);
    var s := Reached(events);
    var undone := set t | t in Tasks(s.closer.start) && !s.tasks[t].done;
    var u;
    more, u := EndAll(s, undone);
    JoinRuns(Start(), events, more);
    StretchReturnsIff(events + more);
  }

  // ------------------------------------------------------------------
  // What a call leaves alone
  // ------------------------------------------------------------------

  /** The tasks a stretch of the call cancels. */
  function Targets<T>(s: State<T>, e: Event<T>): set<T> {
    match e
    case CloseAll => if Running(s) then {} else Tasks(s.connections)
    case WaitEnds => if s.closer.Waiting? then Tasks(s.closer.start) else {}
    case _ => {}
  }

  /** A stretch of the call runs no handler, cancels nobody but the tasks it is after, and lets the
      registry be until it returns. */
  lemma StretchLeavesAlone<T>(s: State<T>, e: Event<T>)
    requires ByCloser(e)
    ensures var u := Apply(s, e);
      && u.tasks.Keys == s.tasks.Keys
      && (forall t :: t in s.tasks ==>
            && u.tasks[t].handler == s.tasks[t].handler && u.tasks[t].done == s.tasks[t].done
            && u.tasks[t].cancelRequested
               == (s.tasks[t].cancelRequested || (t in Targets(s, e) && !s.tasks[t].done)))
      && u.connections == (if u.closer != s.closer && u.closer.Returned? then map[] else s.connections)
  {
    if e.CloseAll? { assert |s.connections| == 0 <==> s.connections == map[]; }
    if e.WaitEnds? && s.closer.Waiting? {
      var pending := StillPending(s, s.closer.start);
      assert forall t :: t in pending <==> t in Tasks(s.closer.start) && t in s.tasks && !s.tasks[t].done;
    }
  }

  // ------------------------------------------------------------------
  // Connections registered during close_all
  // ------------------------------------------------------------------

  /** `register` does not look at the shutting-down flag.  A task that registers after
      `close_all` started is forgotten by it, and never cancelled by it. */
  lemma LateTaskForgotten<T>(events: seq<Event<T>>, e: Event<T>, t: T)
    requires Returns(Reached(events), e) && t in Apply(Reached(events), e).tasks
    requires t !in Tasks(Apply(Reached(events), e).closer.start)
    ensures var u := Apply(Reached(events), e);
      u.tasks[t].cancels == 0 && forall c :: c in u.connections ==> u.connections[c] != t
  {
    ReachedInv(events);
    ApplyInv(Reached(events), e);
    CloseAllReturns(events, e);
  }

  lemma SomeEntry<T>(start: map<string, T>, t: T)
    requires t in Tasks(start)
    ensures Entries(start, t) >= 1
  {
    var c :| c in start && start[c] == t;
    var mine := set d | d in start && start[d] == t;
    assert c in mine;
  }

  /** Which connections `close_all` drains: on return a task was cancelled by it if and only if it
      was registered when the call started. */
  lemma CancelledIffRegistered<T>(events: seq<Event<T>>, e: Event<T>, t: T)
    requires Returns(Reached(events), e) && t in Apply(Reached(events), e).tasks
    ensures var u := Apply(Reached(events), e);
      u.tasks[t].cancels >= 1 <==> t in Tasks(u.closer.start)
  {
    CloseAllReturns(events, e);
    if t in Tasks(Apply(Reached(events), e).closer.start) {
      SomeEntry(Apply(Reached(events), e).closer.start, t);
    } else {
      LateTaskForgotten(events, e, t);
    }
  }

  // ------------------------------------------------------------------
  // What being registered guarantees
  // ------------------------------------------------------------------

  /** However the call goes, if it returns this task is done. */
  ghost predicate DoneOnReturn<T(!new)>(s: State<T>, t: T) {
    forall waiting, gathering :: Outside(waiting) && Outside(gathering) ==>
      var u := AfterCloseAll(s, waiting, gathering);
      u.closer.Returned? ==> t in u.tasks && u.tasks[t].done
  }

  lemma DoneStays<T>(s: State<T>, e: Event<T>, t: T)
    requires t in s.tasks && s.tasks[t].done
    ensures t in Apply(s, e).tasks && Apply(s, e).tasks[t].done
  {
    if !ByCloser(e) { OutsideKeeps(s, e); }
  }

  lemma {:induction false} DoneForEver<T>(s: State<T>, events: seq<Event<T>>, t: T)
    requires t in s.tasks && s.tasks[t].done
    ensures t in Exec(s, events).tasks && Exec(s, events).tasks[t].done
  {
    if events != [] {
      DoneForEver(s, events[..|events| - 1], t);
      DoneStays(Exec(s, events[..|events| - 1]), events[|events| - 1], t);
    }
  }

  lemma DoneThroughCall<T>(s: State<T>, waiting: seq<Event<T>>, gathering: seq<Event<T>>, t: T)
    requires t in s.tasks && s.tasks[t].done
    ensures var u := AfterCloseAll(s, waiting, gathering); t in u.tasks && u.tasks[t].done
  {
    DoneStays(s, CloseAll, t);
    var called := Apply(s, CloseAll);
    if called.closer.Waiting? {
      DoneForEver(called, waiting, t);
      DoneStays(Exec(called, waiting), WaitEnds, t);
      var waited := Apply(Exec(called, waiting), WaitEnds);
      if waited.closer.Gathering? {
        DoneForEver(waited, gathering, t);
        DoneStays(Exec(waited, gathering), GatherEnds, t);
      }
    }
  }

  /** The task ends when it next runs, or when its own code lets it. */
  ghost predicate CanEnd<T>(s: State<T>, t: T) { t in s.tasks && (s.tasks[t].handler.Correct? ==> Doomed(s.tasks[t])) }

  function EndOf<T>(s: State<T>, t: T): Event<T>
    requires t in s.tasks
  {
    if s.tasks[t].handler.Correct? then Step(t) else Finish(t)
  }

  lemma EndsOnly<T>(s: State<T>, t: T) returns (u: State<T>)
    requires CanEnd(s, t)
    ensures u == Apply(s, EndOf(s, t)) && u.tasks.Keys == s.tasks.Keys && u.closer == s.closer
    ensures u.tasks[t].done && forall x :: x in s.tasks && x != t ==> u.tasks[x] == s.tasks[x]
  {
    u := Apply(s, EndOf(s, t));
    if s.tasks[t].handler.Correct? { StepEnds(s, t); }
  }

  /** All these tasks can end, one after the other, and nothing else happens to any task. */
  lemma EndAll<T>(s: State<T>, ts: set<T>) returns (events: seq<Event<T>>, u: State<T>)
    requires forall t :: t in ts ==> CanEnd(s, t)
    ensures Outside(events) && u == Exec(s, events) && u.closer == s.closer && u.tasks.Keys == s.tasks.Keys
    ensures forall t :: t in ts ==> t in u.tasks && u.tasks[t].done
    ensures forall t :: t in s.tasks && t !in ts ==> u.tasks[t] == s.tasks[t]
  {
    events, u := [], s;
    var todo := ts;
    while todo != {}
      invariant todo <= ts && Outside(events)
      invariant u == Exec(s, events) && u.closer == s.closer && u.tasks.Keys == s.tasks.Keys
      invariant forall t :: t in ts && t !in todo ==> t in u.tasks && u.tasks[t].done
      invariant forall t :: t in todo ==> CanEnd(u, t)
      invariant forall t :: t in s.tasks && t !in ts ==> u.tasks[t] == s.tasks[t]
      decreases |todo|
    {
      var t :| t in todo;
      var e := EndOf(u, t);
      u := EndsOnly(u, t);
      events := Extend(s, events, e);
      todo := todo - {t};
    }
  }

  lemma Extend<T>(s: State<T>, events: seq<Event<T>>, e: Event<T>) returns (more: seq<Event<T>>)
    ensures more == events + [e] && Exec(s, more) == Apply(Exec(s, events), e)
  {
    more := events + [e];
    assert more[..|events|] == events;
  }

  /** After the first stretch the registered tasks can end, and no other task has changed. */
  lemma CalledCanEnd<T>(s: State<T>, t: T) returns (called: State<T>)
    requires Inv(s) && !Running(s) && s.connections != map[]
    requires t in s.tasks && t !in Tasks(s.connections)
    ensures called == Apply(s, CloseAll) && called.closer == Waiting(s.connections)
    ensures forall x :: x in Tasks(s.connections) ==> CanEnd(called, x)
    ensures t in called.tasks && called.tasks[t].done == s.tasks[t].done
  {
    called := DoCloseAll(s);
    forall x | x in Tasks(s.connections) ensures CanEnd(called, x) {
      var c :| c in s.connections && s.connections[c] == x;
    }
  }

  /** A run of the call that returns although an unregistered task goes on. */
  lemma GoesOnAfterCall<T(!new)>(s: State<T>, t: T) returns (waiting: seq<Event<T>>)
    requires Inv(s) && !Running(s) && t in s.tasks && t !in Tasks(s.connections) && !s.tasks[t].done
    ensures Outside(waiting)
    ensures var u := AfterCloseAll(s, waiting, []);
      u.closer.Returned? && t in u.tasks && !u.tasks[t].done
  {
    waiting := [];
    if s.connections == map[] {
      assert |s.connections| == 0;
    } else {
      var called := CalledCanEnd(s, t);
      var u;
      waiting, u := EndAll(called, Tasks(s.connections));
      assert StillPending(u, s.connections) == {};
    }
  }

  /** A task is sure to be done when `close_all` returns if and only if it was registered when the
      call started, or done already. */
  lemma RegisteredIsWhatIsDrained<T(!new)>(events: seq<Event<T>>, t: T)
    requires !Running(Reached(events)) && t in Reached(events).tasks
    ensures var s := Reached(events);
      DoneOnReturn(s, t) <==> t in Tasks(s.connections) || s.tasks[t].done
  {
    ReachedInv(events);
    var s := Reached(events);
    if t in Tasks(s.connections) || s.tasks[t].done {
      forall waiting, gathering | Outside(waiting) && Outside(gathering)
        ensures var u := AfterCloseAll(s, waiting, gathering);
          u.closer.Returned? ==> t in u.tasks && u.tasks[t].done
      {
        if s.tasks[t].done { DoneThroughCall(s, waiting, gathering, t); }
        AfterCloseAllInv(s, waiting, gathering);
      }
    } else {
      var waiting := GoesOnAfterCall(s, t);
      assert Outside<T>([]);
    }
  }

  lemma Then<T>(events: seq<Event<T>>, e: Event<T>) returns (more: seq<Event<T>>)
    ensures more == events + [e] && Reached(more) == Apply(Reached(events), e)
  {
    more := events + [e];
    assert more[..|events|] == events;
  }

  function Serving(conn: string): Handler { Correct(conn, true, NewSocket()) }

  lemma OneRegistered<T>(a: T) returns (events: seq<Event<T>>)
    ensures Reached(events) == State(map[a := Task(Serving("a"), false, false, 0)], map["a" := a], false, Idle)
  {
    events := Then([], Spawn(a, Correct("a", false, NewSocket())));
    assert Reached(events).tasks == map[a := Task(Correct("a", false, NewSocket()), false, false, 0)];
    events := Then(events, Step(a));
  }

  lemma CloseAllStarts<T>(s: State<T>, a: T)
    requires s == State(map[a := Task(Serving("a"), false, false, 0)], map["a" := a], false, Idle)
    ensures Apply(s, CloseAll)
            == State(map[a := Task(Serving("a"), false, true, 1)], map["a" := a], true, Waiting(map["a" := a]))
  {
    assert s.connections["a"] == a;
    OneEntryEach(s.connections, a);
  }

  lemma LateRegisters<T>(s: State<T>, events: seq<Event<T>>, a: T, b: T) returns (more: seq<Event<T>>)
    requires a != b && s == Reached(events)
    requires s == State(map[a := Task(Serving("a"), false, true, 1)], map["a" := a], true, Waiting(map["a" := a]))
    ensures var u := Reached(more);
      && u.tasks == s.tasks[b := Task(Serving("b"), false, false, 0)]
      && u.connections == map["a" := a, "b" := b] && u.closer == s.closer
  {
    more := Then(events, Spawn(b, Correct("b", false, NewSocket())));
    assert Reached(more).tasks == s.tasks[b := Task(Correct("b", false, NewSocket()), false, false, 0)];
    more := Then(more, Step(b));
  }

  /** A run that shows it: on return the late handler is still running, its socket open. */
  lemma LateHandlerSurvives<T>(a: T, b: T) returns (events: seq<Event<T>>)
    requires a != b
    ensures Returns(Reached(events), WaitEnds)
    ensures var u := Apply(Reached(events), WaitEnds);
      && b in u.tasks && u.tasks[b] == Task(Serving("b"), false, false, 0)
      && u.connections == map[]
  {
    events := OneRegistered(a);
    CloseAllStarts(Reached(events), a);
    events := Then(events, CloseAll);
    events := LateRegisters(Reached(events), events, a, b);
    StepEnds(Reached(events), a);
    events := Then(events, Step(a));
    assert StillPending(Reached(events), map["a" := a]) == {};
  }
}
