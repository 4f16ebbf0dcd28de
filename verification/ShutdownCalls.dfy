/** Any number of overlapping calls of `close_all`, each with its own starting set, its own pending
    set and its own count of cancel calls, over the same tasks and the same registry.

    `ShutdownModel` follows one call.  Here every call is followed, and each of them, seen by itself,
    goes through a run of that machine, in which the stretches of the other calls are events from
    outside.  `C` names calls. */
module ShutdownCalls {
  import opened ShutdownModel
  import opened ShutdownRuns

  /** Where a call stands, and how often it cancelled each task. */
  datatype Call<T> = Call(closer: Closer<T>, counts: map<T, nat>)

  /** What the calls share has no closer and no counts of its own. */
  datatype Program<C(==), T(==)> = Program(shared: State<T>, calls: map<C, Call<T>>)

  datatype Happening<C, T> = ByCall(c: C, stretch: Event<T>) | FromOutside(event: Event<T>)

  function NewCall<T>(): Call<T> { Call(Idle, map[]) }

  function CallOf<C, T>(p: Program<C, T>, c: C): Call<T> { if c in p.calls then p.calls[c] else NewCall() }

  /** The shared state as one call sees it. */
  function With<T>(s: State<T>, call: Call<T>): State<T> {
    s.(closer := call.closer,
       tasks := map t | t in s.tasks :: s.tasks[t].(cancels := if t in call.counts then call.counts[t] else 0))
  }

  function View<C, T>(p: Program<C, T>, c: C): State<T> { With(p.shared, CallOf(p, c)) }

  function Shared<T>(s: State<T>): State<T> { With(s, NewCall()) }

  function Counts<T>(s: State<T>): map<T, nat> { map t | t in s.tasks :: s.tasks[t].cancels }

  /** A stretch of a call is the stretch of the machine on what that call sees. */
  function Take<C, T>(p: Program<C, T>, x: Happening<C, T>): Program<C, T> {
    match x
    case ByCall(c, e) =>
      if !ByCloser(e) then p
      else
        var u := Apply(View(p, c), e);
        Program(Shared(u), p.calls[c := Call(u.closer, Counts(u))])
    case FromOutside(e) => if ByCloser(e) then p else p.(shared := Apply(p.shared, e))
  }

  function Run<C, T>(xs: seq<Happening<C, T>>): Program<C, T> {
    if xs == [] then Program(Start(), map[]) else Take(Run(xs[..|xs| - 1]), xs[|xs| - 1])
  }

  /** Nothing was counted that is not a task. */
  ghost predicate Known<T>(s: State<T>, call: Call<T>) { forall t :: t in call.counts ==> t in s.tasks }

  ghost predicate Inv<C, T>(p: Program<C, T>) {
    && p.shared == Shared(p.shared)
    && forall c :: c in p.calls ==> Known(p.shared, p.calls[c])
  }

  // ------------------------------------------------------------------
  // What a call sees of events from outside
  // ------------------------------------------------------------------

  lemma FreshSeen<T>(s: State<T>, conn: string, call: Call<T>)
    ensures FreshConn(With(s, call), conn) <==> FreshConn(s, conn)
  {
    var v := With(s, call);
    assert v.tasks.Keys == s.tasks.Keys && forall t :: t in s.tasks ==> v.tasks[t].handler == s.tasks[t].handler;
  }

  lemma SpawnSeen<T>(s: State<T>, t: T, handler: Handler, call: Call<T>)
    requires Known(s, call)
    ensures Apply(With(s, call), Spawn(t, handler)) == With(Apply(s, Spawn(t, handler)), call)
  {
    if handler.Correct? { FreshSeen(s, handler.conn, call); }
  }

  lemma SocketSeen<T>(s: State<T>, t: T, sock: Socket, call: Call<T>)
    requires t in s.tasks && s.tasks[t].handler.Correct?
    ensures WithSocket(With(s, call), t, sock) == With(WithSocket(s, t, sock), call)
  {}

  lemma ExitSeen<T>(s: State<T>, t: T, call: Call<T>)
    requires t in s.tasks && s.tasks[t].handler.Correct?
    ensures Exit(With(s, call), t) == With(Exit(s, t), call)
  {}

  lemma FirstStepSeen<T>(s: State<T>, t: T, call: Call<T>)
    requires t in s.tasks && s.tasks[t].handler.Correct? && !s.tasks[t].done && !s.tasks[t].handler.started
    ensures DoStep(With(s, call), t) == With(DoStep(s, t), call)
  {}

  lemma StepSeen<T>(s: State<T>, t: T, call: Call<T>)
    requires t in s.tasks && s.tasks[t].handler.Correct? && !s.tasks[t].done
    ensures DoStep(With(s, call), t) == With(DoStep(s, t), call)
  {
    var task := s.tasks[t];
    var sock := task.handler.sock;
    if !task.handler.started {
      FirstStepSeen(s, t, call);
    } else if task.cancelRequested {
      ExitSeen(s, t, call);
    } else if sock.inbox != [] {
      MessageSeen(s, t, call);
    }
  }

  lemma MessageSeen<T>(s: State<T>, t: T, call: Call<T>)
    requires t in s.tasks && s.tasks[t].handler.Correct? && !s.tasks[t].done && s.tasks[t].handler.started
    requires !s.tasks[t].cancelRequested && s.tasks[t].handler.sock.inbox != []
    ensures DoStep(With(s, call), t) == With(DoStep(s, t), call)
  {
    var sock := s.tasks[t].handler.sock;
    var taken := sock.(inbox := sock.inbox[1..]);
    SocketSeen(s, t, taken, call);
    ExitSeen(WithSocket(s, t, taken), t, call);
    if sock.inbox[0].Text? {
      var text := sock.inbox[0].text;
      SocketSeen(s, t, taken.(sent := sock.sent + [Echo(text)], consumed := sock.consumed + [text]), call);
    }
  }

  lemma TaskSeen<T>(s: State<T>, e: Event<T>, call: Call<T>)
    requires e.Finish? || e.CancelFromOutside?
    ensures Apply(With(s, call), e) == With(Apply(s, e), call)
  {}

  lemma RegistrySeen<T>(s: State<T>, e: Event<T>, call: Call<T>)
    requires e.Register? || e.Deregister? || e.AnotherBegins? || e.AnotherEnds?
    ensures Apply(With(s, call), e) == With(Apply(s, e), call)
  {}

  lemma OutsideSeen<T>(s: State<T>, e: Event<T>, call: Call<T>)
    requires Known(s, call) && !ByCloser(e)
    ensures Apply(With(s, call), e) == With(Apply(s, e), call)
  {
    match e
    case Spawn(t, handler) => SpawnSeen(s, t, handler, call);
    case Step(t) => if t in s.tasks && s.tasks[t].handler.Correct? && !s.tasks[t].done { StepSeen(s, t, call); }
    case Arrive(t, msg) =>
      if t in s.tasks && s.tasks[t].handler.Correct? {
        SocketSeen(s, t, s.tasks[t].handler.sock.(inbox := s.tasks[t].handler.sock.inbox + [msg]), call);
      }
    case Finish(t) => TaskSeen(s, e, call);
    case CancelFromOutside(t) => TaskSeen(s, e, call);
    case _ => RegistrySeen(s, e, call);
  }

  // ------------------------------------------------------------------
  // What a call sees of another call
  // ------------------------------------------------------------------

  /** These tasks are cancelled from outside. */
  ghost predicate OnlyCancels<T>(events: seq<Event<T>>, ts: set<T>) {
    forall e :: e in events ==> e.CancelFromOutside? && e.t in ts
  }

  /** The state after these tasks were cancelled. */
  function CancelSet<T>(s: State<T>, ts: set<T>): State<T> {
    s.(tasks := map t | t in s.tasks :: if t in ts then Cancel(s.tasks[t]) else s.tasks[t])
  }

  lemma CancelOneMore<T>(s: State<T>, ts: set<T>, t: T)
    requires t !in ts && t in s.tasks
    ensures Apply(CancelSet(s, ts), CancelFromOutside(t)) == CancelSet(s, ts + {t})
  {}

  /** Cancelling a set of tasks is a run of events from outside, in any order of the tasks. */
  lemma CancelsAreEvents<T>(s: State<T>, ts: set<T>) returns (events: seq<Event<T>>)
    requires forall t :: t in ts ==> t in s.tasks
    ensures Exec(s, events) == CancelSet(s, ts) && OnlyCancels(events, ts)
  {
    events := [];
    var todo := ts;
    assert CancelSet(s, {}) == s && ts - todo == {};
    while todo != {}
      invariant todo <= ts && Exec(s, events) == CancelSet(s, ts - todo) && OnlyCancels(events, ts)
      decreases |todo|
    {
      var t :| t in todo;
      CancelOneMore(s, ts - todo, t);
      assert ts - (todo - {t}) == ts - todo + {t};
      events := Extend(s, events, CancelFromOutside(t));
      todo := todo - {t};
    }
    assert ts - todo == ts;
  }

  lemma AlikeButCounts<T>(u: State<T>, w: State<T>, mine: Call<T>)
    requires u.connections == w.connections && u.shuttingDown == w.shuttingDown && u.tasks.Keys == w.tasks.Keys
    requires forall t :: t in w.tasks ==> u.tasks[t] == w.tasks[t].(cancels := u.tasks[t].cancels)
    ensures With(Shared(u), mine) == With(w, mine)
  {}

  /** What the first stretch does, counts aside, is what it does as another call. */
  lemma Begun<T>(s: State<T>, theirs: Call<T>) returns (u: State<T>, w: State<T>)
    requires !theirs.closer.Waiting? && !theirs.closer.Gathering?
    ensures u == Apply(With(s, theirs), CloseAll) && w == Apply(s, AnotherBegins)
    ensures u.connections == w.connections && u.shuttingDown == w.shuttingDown && u.tasks.Keys == w.tasks.Keys
    ensures forall t :: t in w.tasks ==> u.tasks[t] == w.tasks[t].(cancels := u.tasks[t].cancels)
  {
    u, w := DoCloseAll(With(s, theirs)), CancelRegistered(s);
    if |s.connections| == 0 { assert s.connections == map[]; }
  }

  lemma BeginsSeen<T>(s: State<T>, mine: Call<T>, theirs: Call<T>)
    requires !theirs.closer.Waiting? && !theirs.closer.Gathering?
    ensures With(Shared(Apply(With(s, theirs), CloseAll)), mine) == Apply(With(s, mine), AnotherBegins)
  {
    var u, w := Begun(s, theirs);
    AlikeButCounts(u, w, mine);
    RegistrySeen<T>(s, AnotherBegins, mine);
  }

  lemma EndSeen<T>(s: State<T>, u: State<T>, mine: Call<T>, theirs: Call<T>)
    requires u == With(s, theirs).(connections := map[], closer := u.closer)
    ensures With(Shared(u), mine) == Apply(With(s, mine), AnotherEnds)
  {
    AlikeButCounts(u, Apply(s, AnotherEnds), mine);
    RegistrySeen<T>(s, AnotherEnds, mine);
  }

  lemma CancelsSeen<T>(s: State<T>, ts: set<T>, mine: Call<T>)
    ensures CancelSet(With(s, mine), ts) == With(CancelSet(s, ts), mine)
  {}

  /** What the second stretch does to the tasks, counts aside. */
  lemma CancelledAgain<T>(s: State<T>, theirs: Call<T>, pending: set<T>) returns (u: State<T>, w: State<T>)
    requires theirs.closer.Waiting? && pending == StillPending(With(s, theirs), theirs.closer.start) != {}
    ensures u == Apply(With(s, theirs), WaitEnds) && w == CancelSet(s, pending)
    ensures u.connections == w.connections && u.shuttingDown == w.shuttingDown && u.tasks.Keys == w.tasks.Keys
    ensures forall t :: t in w.tasks ==> u.tasks[t] == w.tasks[t].(cancels := u.tasks[t].cancels)
  {
    u, w := DoWaitEnds(With(s, theirs)), CancelSet(s, pending);
  }

  lemma PendingSeen<T>(s: State<T>, mine: Call<T>, theirs: Call<T>, pending: set<T>)
    requires theirs.closer.Waiting? && pending == StillPending(With(s, theirs), theirs.closer.start) != {}
    ensures With(Shared(Apply(With(s, theirs), WaitEnds)), mine) == CancelSet(With(s, mine), pending)
  {
    var u, w := CancelledAgain(s, theirs, pending);
    AlikeButCounts(u, w, mine);
    CancelsSeen(s, pending, mine);
  }

  lemma NothingSeen<T>(s: State<T>, mine: Call<T>, theirs: Call<T>)
    ensures With(Shared(With(s, theirs)), mine) == With(s, mine)
  {}

  lemma OneEvent<T>(s: State<T>, e: Event<T>) returns (events: seq<Event<T>>)
    requires !ByCloser(e)
    ensures Exec(s, events) == Apply(s, e) && Outside(events)
  {
    events := Extend(s, [], e);
  }

  lemma WaitSeen<T>(s: State<T>, mine: Call<T>, theirs: Call<T>) returns (events: seq<Event<T>>)
    requires theirs.closer.Waiting?
    ensures With(Shared(Apply(With(s, theirs), WaitEnds)), mine) == Exec(With(s, mine), events)
    ensures Outside(events)
  {
    var v := With(s, theirs);
    var pending := StillPending(v, v.closer.start);
    if pending == {} {
      EndSeen(s, DoWaitEnds(v), mine, theirs);
      events := OneEvent(With(s, mine), AnotherEnds);
    } else {
      PendingSeen(s, mine, theirs, pending);
      events := CancelsAreEvents(With(s, mine), pending);
    }
  }

  /** A stretch of one call is, for another, a run of events from outside. */
  lemma StretchSeen<T>(s: State<T>, mine: Call<T>, theirs: Call<T>, e: Event<T>) returns (events: seq<Event<T>>)
    requires ByCloser(e)
    ensures With(Shared(Apply(With(s, theirs), e)), mine) == Exec(With(s, mine), events)
    ensures Outside(events)
  {
    var v := With(s, theirs);
    events := [];
    if e.CloseAll? && !Running(v) {
      BeginsSeen(s, mine, theirs);
      events := OneEvent(With(s, mine), AnotherBegins);
    } else if e.WaitEnds? && v.closer.Waiting? {
      events := WaitSeen(s, mine, theirs);
    } else if e.GatherEnds? && v.closer.Gathering? && AllDone(v, v.closer.pending) {
      EndSeen(s, DoGatherEnds(v), mine, theirs);
      events := OneEvent(With(s, mine), AnotherEnds);
    } else {
      NothingSeen(s, mine, theirs);
    }
  }

  // ------------------------------------------------------------------
  // Each call by itself
  // ------------------------------------------------------------------

  lemma OwnSeen<T>(u: State<T>)
    ensures With(Shared(u), Call(u.closer, Counts(u))) == u
  {}

  /** One step of the program, as call c sees it. */
  lemma StepOfCall<C, T>(p: Program<C, T>, x: Happening<C, T>, c: C) returns (events: seq<Event<T>>)
    requires Inv(p)
    ensures View(Take(p, x), c) == Exec(View(p, c), events)
    ensures x.ByCall? && x.c == c && ByCloser(x.stretch) ==> events == [x.stretch]
    ensures !(x.ByCall? && x.c == c) ==> Outside(events)
  {
    events := [];
    match x {
      case ByCall(d, e) =>
        if ByCloser(e) {
          if d == c {
            OwnSeen(Apply(View(p, c), e));
            events := Extend(View(p, c), [], e);
          } else {
            events := StretchSeen(p.shared, CallOf(p, c), CallOf(p, d), e);
          }
        }
      case FromOutside(e) =>
        if !ByCloser(e) {
          OutsideSeen(p.shared, e, CallOf(p, c));
          events := OneEvent(View(p, c), e);
        }
    }
  }

  lemma TasksStay<T>(s: State<T>, e: Event<T>)
    ensures forall t :: t in s.tasks ==> t in Apply(s, e).tasks
  {
    if !ByCloser(e) { OutsideKeeps(s, e); }
  }

  lemma TakeInv<C, T>(p: Program<C, T>, x: Happening<C, T>)
    requires Inv(p)
    ensures Inv(Take(p, x))
  {
    match x
    case ByCall(c, e) =>
      if ByCloser(e) {
        TasksStay(View(p, c), e);
        NothingSeen(Apply(View(p, c), e), NewCall(), NewCall());
      }
    case FromOutside(e) =>
      if !ByCloser(e) {
        TasksStay(p.shared, e);
        OutsideSeen(p.shared, e, NewCall());
      }
  }

  lemma {:induction false} RunInv<C, T>(xs: seq<Happening<C, T>>)
    ensures Inv(Run(xs))
  {
    if xs != [] {
      RunInv(xs[..|xs| - 1]);
      TakeInv(Run(xs[..|xs| - 1]), xs[|xs| - 1]);
    }
  }

  /** Whatever the other calls do, a call goes through a run of the machine that follows one call. */
  lemma {:induction false} EachCallIsARun<C, T>(xs: seq<Happening<C, T>>, c: C) returns (events: seq<Event<T>>)
    ensures View(Run(xs), c) == Reached(events)
  {
    events := [];
    if xs != [] {
      var before := xs[..|xs| - 1];
      var past := EachCallIsARun(before, c);
      RunInv(before);
      var more := StepOfCall(Run(before), xs[|xs| - 1], c);
      JoinRuns(Start(), past, more);
      events := past + more;
    }
  }

  /** Each of any number of overlapping calls, when it returns: it returns the number of connections
      it found, the registry is empty, the tasks it found are done and were cancelled by it once
      per entry, and once more if still pending after its wait; it cancelled no other task. */
  lemma EveryCallReturns<C, T>(xs: seq<Happening<C, T>>, c: C, e: Event<T>)
    requires Returns(View(Run(xs), c), e)
    ensures var p := Take(Run(xs), ByCall(c, e));
      && c in p.calls && p.calls[c].closer.Returned?
      && var closer := p.calls[c].closer;
        && closer.result == |closer.start|
        && p.shared.connections == map[] && p.shared.shuttingDown
        && (forall t :: t in Tasks(closer.start) ==>
              && t in p.shared.tasks && p.shared.tasks[t].done
              && t in p.calls[c].counts
              && p.calls[c].counts[t] == Entries(closer.start, t) + (if t in closer.pending then 1 else 0))
        && (forall t :: t in p.calls[c].counts && t !in Tasks(closer.start) ==> p.calls[c].counts[t] == 0)
  {
    var events := EachCallIsARun(xs, c);
    CloseAllReturns(events, e);
    OwnSeen(Apply(View(Run(xs), c), e));
    NoneOfOthers(events, e);
  }

  lemma NoneOfOthers<T>(events: seq<Event<T>>, e: Event<T>)
    requires Returns(Reached(events), e)
    ensures var u := Apply(Reached(events), e);
      forall t :: t in u.tasks && t !in Tasks(u.closer.start) ==> u.tasks[t].cancels == 0
  {
    ReachedInv(events);
    ApplyInv(Reached(events), e);
  }

  /** The connections a call started with are those of the registry when it was called. */
  lemma EveryCallStarts<C, T>(p: Program<C, T>, c: C)
    requires !Running(View(p, c))
    ensures var q := Take(p, ByCall(c, CloseAll));
      && c in q.calls && !q.calls[c].closer.Idle? && q.calls[c].closer.start == p.shared.connections
      && (q.calls[c].closer.Waiting? <==> p.shared.connections != map[])
      && q.shared.shuttingDown && forall d :: d in p.calls && d != c ==> q.calls[d] == p.calls[d]
  {
    assert |p.shared.connections| == 0 <==> p.shared.connections == map[];
  }

  lemma AllEndedSeen<T>(s: State<T>, call: Call<T>, start: map<string, T>)
    ensures AllEnded(With(s, call), start) <==> AllEnded(s, start)
  {
    assert forall t :: t in s.tasks ==> With(s, call).tasks[t].done == s.tasks[t].done;
  }

  /** The call has returned, with the size of what it started with, and the registry is empty. */
  ghost predicate CallReturned<C, T>(p: Program<C, T>, c: C, start: map<string, T>) {
    && c in p.calls && p.calls[c].closer.Returned? && p.calls[c].closer.start == start
    && p.calls[c].closer.result == |start| && p.shared.connections == map[]
  }

  /** Each of the overlapping calls: the stretch that ends its wait, or its `gather`, ends the call if and
      only if all tasks it started with are done. */
  lemma EveryCallReturnsIff<C, T>(xs: seq<Happening<C, T>>, c: C, e: Event<T>)
    requires var closer := CallOf(Run(xs), c).closer;
      (closer.Waiting? && e.WaitEnds?) || (closer.Gathering? && e.GatherEnds?)
    ensures var p, q := Run(xs), Take(Run(xs), ByCall(c, e));
      var start := CallOf(p, c).closer.start;
      if AllEnded(p.shared, start) then CallReturned(q, c, start) else CallOf(q, c).closer.Gathering?
  {
    var events := EachCallIsARun(xs, c);
    StretchReturnsIff(events);
    AllEndedSeen(Run(xs).shared, CallOf(Run(xs), c), CallOf(Run(xs), c).closer.start);
  }

  function AllFromOutside<C, T>(events: seq<Event<T>>): seq<Happening<C, T>> {
    if events == [] then []
    else AllFromOutside(events[..|events| - 1]) + [FromOutside(events[|events| - 1])]
  }

  lemma RunOneMore<C, T>(xs: seq<Happening<C, T>>, x: Happening<C, T>)
    ensures Run(xs + [x]) == Take(Run(xs), x)
  {
    assert (xs + [x])[..|xs|] == xs;
  }

  lemma {:induction false} OutsideSeenByAll<C, T>(xs: seq<Happening<C, T>>, more: seq<Event<T>>, c: C)
    requires Outside(more)
    ensures View(Run(xs + AllFromOutside(more)), c) == Exec(View(Run(xs), c), more)
    ensures Run(xs + AllFromOutside(more)).calls == Run(xs).calls
  {
    if more == [] {
      assert xs + AllFromOutside(more) == xs;
    } else {
      var before, e := more[..|more| - 1], more[|more| - 1];
      assert e in more && forall x :: x in before ==> x in more;
      OutsideSeenByAll(xs, before, c);
      var ys := xs + AllFromOutside<C, T>(before);
      assert xs + AllFromOutside<C, T>(more) == ys + [FromOutside(e)];
      RunOneMore(ys, FromOutside(e));
      RunInv(ys);
      OutsideSeen(Run(ys).shared, e, CallOf(Run(ys), c));
    }
  }

  /** None of the overlapping calls is ever stuck: its tasks can end, and then its next stretch returns. */
  lemma EveryCallCanReturn<C, T>(xs: seq<Happening<C, T>>, c: C) returns (more: seq<Event<T>>)
    requires Running(View(Run(xs), c))
    ensures Outside(more)
    ensures var closer := CallOf(Run(xs), c).closer;
      CallReturned(Take(Run(xs + AllFromOutside(more)), ByCall(c, if closer.Waiting? then WaitEnds else GatherEnds)),
                   c, closer.start)
  {
    var events := EachCallIsARun(xs, c);
    more := CallCanReturn(events);
    OutsideSeenByAll(xs, more, c);
  }
}
