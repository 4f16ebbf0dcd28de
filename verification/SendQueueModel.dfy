/** The send queue of one connection as a state machine whose steps are the
    stretches of `enqueue` and `drain` between two suspension points.

    A blocked sender is suspended in `asyncio.Queue.put`; a message being sent is
    held by a drain suspended in `send_fn`.  Any number of senders and drains may
    be suspended at once, and any of them may be resumed next.  An event that is
    not enabled leaves the state as it is. */
module SendQueueModel {

  datatype Strategy = DropOldest | DropNewest | BlockSender | Disconnect

  datatype SendStats = SendStats(queued: nat, dropped: nat, sent: nat, errors: nat, highWater: nat)

  /** A message that left the queue: handed to a send, or pushed out by `deque(maxlen=...)`. */
  datatype Removed<T> = Removed(msg: T, evicted: bool)

  datatype Outcome = Delivered | Failed | Cancelled

  /** What the program stores, and the messages its suspended coroutines hold. */
  datatype Queue<T(==)> = Queue(
    strategy: Strategy, max: int, items: seq<T>, stats: SendStats,
    blocked: multiset<T>, sending: multiset<T>)

  /** History variables; no step depends on them. */
  datatype History<T(==)> = History(
    calls: nat,               // enqueue calls
    refused: nat,             // enqueue calls answered False
    withdrawn: nat,           // blocked senders cancelled while they waited
    entered: seq<T>,          // messages that entered the queue, in order
    removed: seq<Removed<T>>, // messages that left it, in order
    delivered: seq<T>,        // completed sends, in completion order
    failed: seq<T>,           // sends that raised
    abandoned: seq<T>,        // sends cancelled while suspended in send_fn
    fills: nat,               // arrivals that raised the depth from max-1 to max
    peak: nat)                // largest depth ever

  datatype State<T(==)> = State(q: Queue<T>, h: History<T>)

  datatype Event<T> =
    | Enqueue(msg: T)
    | Unblock(msg: T)       // a blocked sender finds room
    | Withdraw(msg: T)      // a blocked sender is cancelled
    | Pop                   // a drain takes the head and starts sending it
    | Finish(msg: T, outcome: Outcome)

  function Max(a: int, b: int): int { if a < b then b else a }

  /** `deque(maxlen=n)` with n negative raises ValueError. */
  predicate Constructible(strategy: Strategy, max: int) {
    strategy == DropOldest ==> 0 <= max
  }

  function Init<T>(strategy: Strategy, max: int): State<T> {
    State(Queue(strategy, max, [], SendStats(0, 0, 0, 0, 0), multiset{}, multiset{}),
          History(0, 0, 0, [], [], [], [], [], 0, 0))
  }

  /** `asyncio.Queue.full`: a non-positive maxsize means unbounded. */
  predicate AsyncFull<T>(q: Queue<T>) { 0 < q.max <= |q.items| }

  function Arrive<T>(s: State<T>, m: T, items: seq<T>, removed: seq<Removed<T>>, stats: SendStats): State<T> {
    State(s.q.(items := items, stats := stats),
          s.h.(entered := s.h.entered + [m],
               removed := removed,
               fills := s.h.fills + if |s.q.items| == s.q.max - 1 then 1 else 0,
               peak := Max(s.h.peak, |items|)))
  }

  function Push<T>(s: State<T>, m: T): State<T> {
    Arrive(s, m, s.q.items + [m], s.h.removed, s.q.stats.(queued := s.q.stats.queued + 1))
  }

  /** `deque(maxlen=max).append`, then the counters as the program updates them. */
  function AppendBounded<T>(s: State<T>, m: T): State<T> {
    var all := s.q.items + [m];
    var spill := |s.q.items| >= s.q.max;
    var items := if spill then all[1..] else all;
    var removed := if spill then s.h.removed + [Removed(all[0], true)] else s.h.removed;
    Arrive(s, m, items, removed,
           if |items| == s.q.max then s.q.stats.(dropped := s.q.stats.dropped + 1)
           else s.q.stats.(queued := s.q.stats.queued + 1))
  }

  function Called<T>(s: State<T>): State<T> {
    s.(q := s.q.(stats := s.q.stats.(highWater := Max(s.q.stats.highWater, |s.q.items|))),
       h := s.h.(calls := s.h.calls + 1))
  }

  function DoEnqueue<T>(s0: State<T>, m: T): State<T> {
    var s := Called(s0);
    match s.q.strategy
    case DropOldest => AppendBounded(s, m)
    case DropNewest =>
      if AsyncFull(s.q) then s.(q := s.q.(stats := s.q.stats.(dropped := s.q.stats.dropped + 1)))
      else Push(s, m)
    case BlockSender =>
      if AsyncFull(s.q) then s.(q := s.q.(blocked := s.q.blocked + multiset{m}))
      else Push(s, m)
    case Disconnect =>
      if |s.q.items| >= s.q.max then s.(h := s.h.(refused := s.h.refused + 1))
      else Push(s, m)
  }

  /** What an enqueue call did before it gave up control. */
  datatype Answer = Returned(accepted: bool) | Suspended

  function AnswerOf<T>(q: Queue<T>): Answer {
    match q.strategy
    case DropOldest => Returned(true)
    case DropNewest => Returned(true)
    case BlockSender => if AsyncFull(q) then Suspended else Returned(true)
    case Disconnect => Returned(|q.items| < q.max)
  }

  function DoPop<T>(s: State<T>): State<T>
    requires s.q.items != []
  {
    var m := s.q.items[0];
    State(s.q.(items := s.q.items[1..], sending := s.q.sending + multiset{m}),
          s.h.(removed := s.h.removed + [Removed(m, false)]))
  }

  function DoFinish<T>(s: State<T>, m: T, outcome: Outcome): State<T> {
    var q := s.q.(sending := s.q.sending - multiset{m});
    match outcome
    case Delivered => State(q.(stats := q.stats.(sent := q.stats.sent + 1)), s.h.(delivered := s.h.delivered + [m]))
    case Failed => State(q.(stats := q.stats.(errors := q.stats.errors + 1)), s.h.(failed := s.h.failed + [m]))
    case Cancelled => State(q, s.h.(abandoned := s.h.abandoned + [m]))
  }

  function Apply<T>(s: State<T>, e: Event<T>): State<T> {
    match e
    case Enqueue(m) => DoEnqueue(s, m)
    case Unblock(m) =>
      if m in s.q.blocked && !AsyncFull(s.q) then Push(s.(q := s.q.(blocked := s.q.blocked - multiset{m})), m) else s
    case Withdraw(m) =>
      if m in s.q.blocked
      then State(s.q.(blocked := s.q.blocked - multiset{m}), s.h.(withdrawn := s.h.withdrawn + 1)) else s
    case Pop => if s.q.items == [] then s else DoPop(s)
    case Finish(m, outcome) => if m in s.q.sending then DoFinish(s, m, outcome) else s
  }

  function Exec<T>(s: State<T>, events: seq<Event<T>>): State<T> {
    if events == [] then s else Apply(Exec(s, events[..|events| - 1]), events[|events| - 1])
  }

  // ------------------------------------------------------------------
  // Reading the removal log
  // ------------------------------------------------------------------

  function Msgs<T>(r: seq<Removed<T>>): seq<T> {
    if r == [] then [] else Msgs(r[..|r| - 1]) + [r[|r| - 1].msg]
  }

  /** The messages that left by eviction (`evicted`) or through a send, in order. */
  function Select<T>(r: seq<Removed<T>>, evicted: bool): seq<T> {
    if r == [] then []
    else Select(r[..|r| - 1], evicted) + if r[|r| - 1].evicted == evicted then [r[|r| - 1].msg] else []
  }

  /** The positions in the history at which `Select` finds its messages. */
  function Positions<T>(r: seq<Removed<T>>, evicted: bool): seq<nat> {
    if r == [] then []
    else Positions(r[..|r| - 1], evicted) + if r[|r| - 1].evicted == evicted then [|r| - 1] else []
  }

  function Popped<T>(s: State<T>): seq<T> { Select(s.h.removed, false) }

  function Evicted<T>(s: State<T>): seq<T> { Select(s.h.removed, true) }

  lemma ReadLog<T>(r: seq<Removed<T>>, x: Removed<T>)
    ensures Msgs(r + [x]) == Msgs(r) + [x.msg]
    ensures Select(r + [x], x.evicted) == Select(r, x.evicted) + [x.msg]
    ensures Select(r + [x], !x.evicted) == Select(r, !x.evicted)
    ensures multiset(Select(r + [x], x.evicted)) == multiset(Select(r, x.evicted)) + multiset{x.msg}
  {
    assert (r + [x])[..|r|] == r;
  }

  lemma Reassociate<T>(a: seq<T>, b: seq<T>)
    requires b != []
    ensures a + [b[0]] + b[1..] == a + b
  {}

  /** Moving the head of the queue to the log keeps their concatenation. */
  lemma MoveHead<T>(r: seq<Removed<T>>, items: seq<T>, evicted: bool)
    requires items != []
    ensures Msgs(r + [Removed(items[0], evicted)]) + items[1..] == Msgs(r) + items
  {
    ReadLog(r, Removed(items[0], evicted));
    Reassociate(Msgs(r), items);
  }

  // ------------------------------------------------------------------
  // The invariant
  // ------------------------------------------------------------------

  /** Everything that entered is still queued or has left, in the order it entered. */
  ghost predicate FifoInv<T>(s: State<T>) {
    && Msgs(s.h.removed) + s.q.items == s.h.entered
    && (s.q.strategy != DropOldest ==> Evicted(s) == [])
    && |Popped(s)| + |Evicted(s)| == |s.h.removed|
  }

  ghost predicate CapacityInv<T>(s: State<T>) {
    && Constructible(s.q.strategy, s.q.max)
    && (s.q.strategy == DropOldest || 0 < s.q.max ==> |s.q.items| <= s.q.max && s.h.peak <= s.q.max)
    && (s.q.strategy == Disconnect && s.q.max <= 0 ==> s.q.items == [] && s.h.peak == 0)
    && (s.q.strategy != BlockSender ==> s.q.blocked == multiset{})
  }

  /** What is in flight or finished is what was popped, message by message. */
  ghost predicate SendInv<T>(s: State<T>) {
    && multiset(Popped(s))
       == multiset(s.h.delivered) + multiset(s.h.failed) + multiset(s.h.abandoned) + s.q.sending
    && s.q.stats.sent == |s.h.delivered|
    && s.q.stats.errors == |s.h.failed|
  }

  ghost predicate CounterInv<T>(s: State<T>) {
    && (s.q.strategy != DropOldest ==> s.q.stats.queued == |s.h.entered|)
    && (s.q.strategy == DropOldest ==>
          && s.h.refused == 0 && s.h.withdrawn == 0
          && s.q.stats.queued + s.q.stats.dropped == |s.h.entered|
          && s.q.stats.dropped == |Evicted(s)| + s.h.fills)
  }

  /** The enqueue calls whose outcome is known, or that are blocked. */
  function Answered<T>(s: State<T>): nat {
    s.q.stats.queued + s.q.stats.dropped + |s.q.blocked| + s.h.withdrawn + s.h.refused
  }

  /** A fill needs an earlier pop for every fill before it. */
  ghost predicate FillInv<T>(s: State<T>) {
    && s.h.fills <= |Popped(s)| + (if |s.q.items| == s.q.max then 1 else 0)
    && (s.q.max <= 0 ==> s.h.fills == 0)
    && (0 < s.q.max ==> (s.h.fills == 0 <==> s.h.peak < s.q.max))
    && (0 < s.q.max && s.h.fills == 0 ==> Evicted(s) == [])
  }

  ghost predicate PeakInv<T>(s: State<T>) {
    && |s.q.items| <= s.h.peak <= s.q.stats.highWater + 1
    && s.q.stats.highWater <= s.h.peak
    && (s.q.blocked != multiset{} ==> 0 < s.q.max <= s.q.stats.highWater)
  }

  ghost predicate Core<T>(s: State<T>) {
    FifoInv(s) && CapacityInv(s) && SendInv(s) && CounterInv(s) && FillInv(s) && PeakInv(s)
  }

  ghost predicate Inv<T>(s: State<T>) { Core(s) && s.h.calls == Answered(s) }

  lemma InitInv<T>(strategy: Strategy, max: int)
    requires Constructible(strategy, max)
    ensures Inv(Init<T>(strategy, max))
  {}

  lemma PushInv<T>(s: State<T>, m: T)
    requires Core(s) && s.h.calls == Answered(s) + 1 && s.q.stats.highWater >= |s.q.items|
    requires s.q.strategy != DropOldest
    requires if s.q.strategy == Disconnect then |s.q.items| < s.q.max else !AsyncFull(s.q)
    ensures Inv(Push(s, m))
  {}

  lemma AppendBoundedFifo<T>(s: State<T>, m: T)
    requires FifoInv(s) && s.q.strategy == DropOldest
    ensures var t := AppendBounded(s, m);
      && FifoInv(t)
      && Popped(t) == Popped(s)
      && |Evicted(t)| == |Evicted(s)| + if |s.q.items| >= s.q.max then 1 else 0
  {
    var all := s.q.items + [m];
    if |s.q.items| >= s.q.max {
      ReadLog(s.h.removed, Removed(all[0], true));
      MoveHead(s.h.removed, all, true);
    }
  }

  lemma AppendBoundedInv<T>(s: State<T>, m: T)
    requires Core(s) && s.h.calls == Answered(s) + 1 && s.q.stats.highWater >= |s.q.items|
    requires s.q.strategy == DropOldest
    ensures Inv(AppendBounded(s, m))
  {
    AppendBoundedFifo(s, m);
  }

  lemma CalledInv<T>(s: State<T>)
    requires Inv(s)
    ensures var c := Called(s);
      Core(c) && c.h.calls == Answered(c) + 1 && c.q.stats.highWater >= |c.q.items|
  {}

  lemma EnqueueInv<T>(s: State<T>, m: T)
    requires Inv(s)
    ensures Inv(DoEnqueue(s, m))
  {
    var c := Called(s);
    CalledInv(s);
    match c.q.strategy
    case DropOldest => AppendBoundedInv(c, m);
    case DropNewest => if !AsyncFull(c.q) { PushInv(c, m); }
    case BlockSender => if !AsyncFull(c.q) { PushInv(c, m); }
    case Disconnect => if |c.q.items| < c.q.max { PushInv(c, m); }
  }

  lemma UnblockInv<T>(s: State<T>, m: T)
    requires Inv(s)
    ensures Inv(Apply(s, Unblock(m)))
  {
    if m in s.q.blocked && !AsyncFull(s.q) {
      PushInv(s.(q := s.q.(blocked := s.q.blocked - multiset{m})), m);
    }
  }

  lemma PopFifo<T>(s: State<T>)
    requires FifoInv(s) && s.q.items != []
    ensures FifoInv(DoPop(s))
    ensures Evicted(DoPop(s)) == Evicted(s) && |Popped(DoPop(s))| == |Popped(s)| + 1
  {
    ReadLog(s.h.removed, Removed(s.q.items[0], false));
    MoveHead(s.h.removed, s.q.items, false);
  }

  lemma PopSend<T>(s: State<T>)
    requires SendInv(s) && s.q.items != []
    ensures SendInv(DoPop(s))
  {
    ReadLog(s.h.removed, Removed(s.q.items[0], false));
  }

  lemma PopInv<T>(s: State<T>)
    requires Inv(s) && s.q.items != []
    ensures Inv(DoPop(s))
  {
    PopFifo(s);
    PopSend(s);
  }

  lemma FinishSend<T>(s: State<T>, m: T, outcome: Outcome)
    requires SendInv(s) && m in s.q.sending
    ensures SendInv(DoFinish(s, m, outcome))
  {
    match outcome
    case Delivered => assert multiset(s.h.delivered + [m]) == multiset(s.h.delivered) + multiset{m};
    case Failed => assert multiset(s.h.failed + [m]) == multiset(s.h.failed) + multiset{m};
    case Cancelled => assert multiset(s.h.abandoned + [m]) == multiset(s.h.abandoned) + multiset{m};
  }

  lemma FinishInv<T>(s: State<T>, m: T, outcome: Outcome)
    requires Inv(s) && m in s.q.sending
    ensures Inv(DoFinish(s, m, outcome))
  {
    FinishSend(s, m, outcome);
    var t := DoFinish(s, m, outcome);
    assert Popped(t) == Popped(s) && Evicted(t) == Evicted(s) && t.q.items == s.q.items;
    assert CounterInv(t) && t.h.calls == Answered(t);
  }

  lemma WithdrawInv<T>(s: State<T>, m: T)
    requires Inv(s)
    ensures Inv(Apply(s, Withdraw(m)))
  {
    if m in s.q.blocked {
      assert |s.q.blocked - multiset{m}| == |s.q.blocked| - 1;
      var t := Apply(s, Withdraw(m));
      assert FifoInv(t) && SendInv(t) && CounterInv(t);
    }
  }

  lemma ApplyInv<T>(s: State<T>, e: Event<T>)
    requires Inv(s)
    ensures Inv(Apply(s, e))
  {
    match e
    case Enqueue(m) => EnqueueInv(s, m);
    case Unblock(m) => UnblockInv(s, m);
    case Withdraw(m) => WithdrawInv(s, m);
    case Pop => if s.q.items != [] { PopInv(s); }
    case Finish(m, outcome) => if m in s.q.sending { FinishInv(s, m, outcome); }
  }

  lemma {:induction false} ExecInv<T>(s: State<T>, events: seq<Event<T>>)
    requires Inv(s)
    ensures Inv(Exec(s, events))
  {
    if events != [] {
      ExecInv(s, events[..|events| - 1]);
      ApplyInv(Exec(s, events[..|events| - 1]), events[|events| - 1]);
    }
  }

  lemma ApplyConfig<T>(s: State<T>, e: Event<T>)
    ensures Apply(s, e).q.strategy == s.q.strategy && Apply(s, e).q.max == s.q.max
  {}

  lemma {:induction false} ExecConfig<T>(s: State<T>, events: seq<Event<T>>)
    ensures Exec(s, events).q.strategy == s.q.strategy && Exec(s, events).q.max == s.q.max
  {
    if events != [] {
      ExecConfig(s, events[..|events| - 1]);
      ApplyConfig(Exec(s, events[..|events| - 1]), events[|events| - 1]);
    }
  }

  /** Every state a queue of this configuration can reach. */
  function Reached<T>(strategy: Strategy, max: int, events: seq<Event<T>>): State<T> {
    Exec(Init(strategy, max), events)
  }

  lemma ReachedInv<T>(strategy: Strategy, max: int, events: seq<Event<T>>)
    requires Constructible(strategy, max)
    ensures Inv(Reached(strategy, max, events))
    ensures Reached(strategy, max, events).q.strategy == strategy && Reached(strategy, max, events).q.max == max
  {
    InitInv<T>(strategy, max);
    ExecInv(Init(strategy, max), events);
    ExecConfig(Init(strategy, max), events);
  }

  ghost predicate Reachable<T(!new)>(s: State<T>, strategy: Strategy, max: int) {
    Constructible(strategy, max) && exists events :: s == Reached(strategy, max, events)
  }

  lemma InitReachable<T(!new)>(strategy: Strategy, max: int)
    requires Constructible(strategy, max)
    ensures Reachable(Init<T>(strategy, max), strategy, max)
  {
    assert Init<T>(strategy, max) == Reached(strategy, max, []);
  }

  lemma ReachableStep<T(!new)>(s: State<T>, strategy: Strategy, max: int, e: Event<T>)
    requires Reachable(s, strategy, max)
    ensures Reachable(Apply(s, e), strategy, max)
  {
    var events :| s == Reached(strategy, max, events);
    assert (events + [e])[..|events|] == events;
    assert Apply(s, e) == Reached(strategy, max, events + [e]);
  }

  lemma ReachableInv<T(!new)>(s: State<T>, strategy: Strategy, max: int)
    requires Reachable(s, strategy, max)
    ensures Inv(s) && s.q.strategy == strategy && s.q.max == max
  {
    var events :| s == Reached(strategy, max, events);
    ReachedInv(strategy, max, events);
  }

  lemma {:induction false} ExecAppend<T>(s: State<T>, a: seq<Event<T>>, b: seq<Event<T>>)
    ensures Exec(s, a + b) == Exec(Exec(s, a), b)
  {
    if b == [] {
      assert a + b == a;
    } else {
      ExecAppend(s, a, b[..|b| - 1]);
      assert (a + b)[..|a + b| - 1] == a + b[..|b| - 1];
    }
  }
}
