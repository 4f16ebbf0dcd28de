/** `SendQueue` and `BackpressureController` as the program keeps them. */
module Backpressure {
  import opened SendQueueModel
  import opened DropRates
  import opened MapSums
  import opened Options
  import opened SuspendedDrains

  class SendQueue<T(==, !new)> {
    const id: string
    const max: int
    const strategy: Strategy
    var deque: seq<T>
    var asyncQueue: seq<T>
    var stats: SendStats
    var putters: multiset<T>   // the senders suspended in `put`
    var inFlight: multiset<T>  // the messages of the drains suspended in `send_fn`
    ghost var view: State<T>

    /** BLOCK_SENDER and DROP_NEWEST keep their messages in an `asyncio.Queue`, the others in a deque. */
    predicate UsesAsync() { strategy == BlockSender || strategy == DropNewest }

    ghost predicate Valid()
      reads this
    {
      && view.q.strategy == strategy && view.q.max == max && view.q.stats == stats
      && deque == (if UsesAsync() then [] else view.q.items)
      && asyncQueue == (if UsesAsync() then view.q.items else [])
      && putters == view.q.blocked && inFlight == view.q.sending
      && (putters != multiset{} ==> strategy == BlockSender)
    }

    /** Some run of the machine leads to this state; every method keeps it so. */
    ghost predicate Sound()
      reads this
    {
      Reachable(view, strategy, max)
    }

    constructor (id: string, max: int, strategy: Strategy)
      requires Constructible(strategy, max)
      ensures Valid() && this.id == id && this.max == max && this.strategy == strategy
      ensures view == Init(strategy, max) && Sound()
    {
      this.id, this.max, this.strategy := id, max, strategy;
      deque, asyncQueue, stats := [], [], SendStats(0, 0, 0, 0, 0);
      putters, inFlight := multiset{}, multiset{};
      view := Init(strategy, max);
      InitReachable<T>(strategy, max);
    }

    lemma StaysSound(s: State<T>, e: Event<T>)
      ensures Reachable(s, strategy, max) ==> Reachable(Apply(s, e), strategy, max)
    {
      if Reachable(s, strategy, max) { ReachableStep(s, strategy, max, e); }
    }

    function Depth(): (d: nat)
      reads this
      ensures Valid() ==> d == |view.q.items|
    {
      if UsesAsync() then |asyncQueue| else |deque|
    }

    predicate IsFull()
      reads this
    {
      Depth() >= max
    }

    predicate AsyncIsFull()
      reads this
    {
      0 < max <= |asyncQueue|
    }

    /** `deque.append`, and the counter of the branch. */
    method Append(message: T)
      requires Valid() && strategy == DropOldest
      modifies this
      ensures Valid() && view == AppendBounded(old(view), message)
    {
      deque := deque + [message];
      if |deque| > max { deque := deque[1..]; }
      if |deque| == max {
        stats := stats.(dropped := stats.dropped + 1);
      } else {
        stats := stats.(queued := stats.queued + 1);
      }
      view := AppendBounded(view, message);
    }

    /** A message enters a queue that has room. */
    method Put(message: T)
      requires Valid() && strategy != DropOldest
      modifies this
      ensures Valid() && view == Push(old(view), message)
    {
      if UsesAsync() {
        asyncQueue := asyncQueue + [message];
      } else {
        deque := deque + [message];
      }
      stats := stats.(queued := stats.queued + 1);
      view := Push(view, message);
    }

    method Enqueue(message: T) returns (answer: Answer)
      requires Valid()
      modifies this
      ensures Valid() && (old(Sound()) ==> Sound())
      ensures view == DoEnqueue(old(view), message)
      ensures answer == AnswerOf(old(view).q)
      ensures answer == Suspended <==> strategy == BlockSender && 0 < max <= |old(asyncQueue)|
      ensures answer == Suspended ==>
        && putters == old(putters) + multiset{message} && inFlight == old(inFlight)
        && asyncQueue == old(asyncQueue) && deque == old(deque)
      ensures answer != Suspended ==> putters == old(putters) && inFlight == old(inFlight)
    {
      StaysSound(view, SendQueueModel.Enqueue(message));
      stats := stats.(highWater := Max(stats.highWater, Depth()));
      view := Called(view);
      answer := Returned(true);
      match strategy {
        case DropOldest => Append(message);
        case DropNewest =>
          if AsyncIsFull() {
            stats := stats.(dropped := stats.dropped + 1);
            view := view.(q := view.q.(stats := stats));
          } else {
            Put(message);
          }
        case BlockSender =>
          if AsyncIsFull() {
            putters := putters + multiset{message};
            view := view.(q := view.q.(blocked := putters));
            answer := Suspended;
          } else {
            Put(message);
          }
        case Disconnect =>
          if IsFull() {
            view := view.(h := view.h.(refused := view.h.refused + 1));
            answer := Returned(false);
          } else {
            Put(message);
          }
      }
    }

    /** A sender suspended in `put` is resumed; it waits again if the room is gone. */
    method ResumeSender(message: T) returns (answer: Answer)
      requires Valid()
      modifies this
      ensures Valid() && (old(Sound()) ==> Sound())
      ensures view == Apply(old(view), Unblock(message))
      ensures answer == if message in old(putters) && !old(AsyncIsFull()) then Returned(true) else Suspended
      ensures if answer == Suspended then putters == old(putters) && asyncQueue == old(asyncQueue)
              else putters == old(putters) - multiset{message} && asyncQueue == old(asyncQueue) + [message]
    {
      StaysSound(view, Unblock(message));
      answer := Suspended;
      if message in putters && !AsyncIsFull() {
        putters := putters - multiset{message};
        view := view.(q := view.q.(blocked := putters));
        Put(message);
        answer := Returned(true);
      }
    }

    /** A sender suspended in `put` is cancelled. */
    method CancelSender(message: T)
      requires Valid()
      modifies this
      ensures Valid() && (old(Sound()) ==> Sound())
      ensures view == Apply(old(view), Withdraw(message))
    {
      if message in putters { putters := putters - multiset{message}; }
      StaysSound(view, Withdraw(message));
      view := Apply(view, Withdraw(message));
    }

    method TakeNext() returns (msg: Option<T>)
      requires Valid()
      modifies this
      ensures Valid() && (old(Sound()) ==> Sound())
      ensures view == Apply(old(view), Pop)
      ensures msg == if old(view).q.items == [] then None else Some(old(view).q.items[0])
    {
      msg := None;
      if UsesAsync() {
        if asyncQueue != [] { msg, asyncQueue := Some(asyncQueue[0]), asyncQueue[1..]; }
      } else if deque != [] {
        msg, deque := Some(deque[0]), deque[1..];
      }
      if msg.Some? { inFlight := inFlight + multiset{msg.value}; }
      StaysSound(view, Pop);
      view := Apply(view, Pop);
    }

    /** The send a drain is suspended in returns, raises, or is cancelled. */
    method SendEnds(message: T, outcome: Outcome)
      requires Valid()
      modifies this
      ensures Valid() && (old(Sound()) ==> Sound())
      ensures view == Apply(old(view), Finish(message, outcome))
    {
      if message in inFlight {
        inFlight := inFlight - multiset{message};
        match outcome {
          case Delivered => stats := stats.(sent := stats.sent + 1);
          case Failed => stats := stats.(errors := stats.errors + 1);
          case Cancelled =>
        }
      }
      StaysSound(view, Finish(message, outcome));
      view := Apply(view, Finish(message, outcome));
    }

    /** Something a sender or another drain does while the drain that sends `ours` is suspended. */
    method OtherDoes(e: Event<T>, ours: T)
      requires Valid()
      modifies this
      ensures Valid() && (old(Sound()) ==> Sound()) && view == OneOther(old(view), ours, e)
    {
      match e {
        case Enqueue(m) => var _ := Enqueue(m);
        case Unblock(m) => var _ := ResumeSender(m);
        case Withdraw(m) => CancelSender(m);
        case Pop => var _ := TakeNext();
        case Finish(m, outcome) => if m != ours || inFlight[m] > 1 { SendEnds(m, outcome); }
      }
    }

    /** One iteration of the drain loop, suspended in its send. */
    method SendNext(d: Suspension<T>)
      requires Valid() && view.q.items != []
      modifies this
      ensures Valid() && (old(Sound()) ==> Sound())
      ensures view == AfterSend(old(view), old(view).q.items[0], d)
    {
      var msg := TakeNext();
      ghost var popped := view;
      for i := 0 to |d.others|
        invariant Valid() && (old(Sound()) ==> Sound())
        invariant view == Others(popped, msg.value, d.others[..i])
      {
        assert d.others[..i + 1][..i] == d.others[..i];
        OtherDoes(d.others[i], msg.value);
      }
      assert d.others[..|d.others|] == d.others;
      SendEnds(msg.value, d.outcome);
    }

    /** `drain`, given what happens during each of its sends. */
    method Drain(batch: int, during: nat -> Suspension<T>) returns (sent: nat, ghost states: seq<State<T>>)
      requires Valid()
      modifies this
      ensures Valid() && (old(Sound()) ==> Sound())
      ensures (view, sent) == GoesOn(old(view), Max(0, batch), during, 0)
      ensures SendBySend(states, Max(0, batch), during, sent)
      ensures states[0] == old(view) && states[|states| - 1] == view
    {
      states := DrainSendBySend(view, Max(0, batch), during);
      sent := SendUpTo(batch, during);
    }

    /** The loop of `drain`. */
    method SendUpTo(batch: int, during: nat -> Suspension<T>) returns (sent: nat)
      requires Valid()
      modifies this
      ensures Valid() && (old(Sound()) ==> Sound())
      ensures (view, sent) == GoesOn(old(view), Max(0, batch), during, 0)
    {
      sent := 0;
      while sent < batch
        invariant Valid() && (old(Sound()) ==> Sound())
        invariant GoesOn(view, Max(0, batch), during, sent) == GoesOn(old(view), Max(0, batch), during, 0)
      {
        if Depth() == 0 { break; }
        SendNext(during(sent));
        if during(sent).outcome != Delivered { return; }
        sent := sent + 1;
      }
    }
  }

  datatype BackpressureConfig = BackpressureConfig(maxQueueSize: int, strategy: Strategy)

  datatype Totals = Totals(
    connections: nat, totalQueued: nat, totalDropped: nat, totalSent: nat, overallDropRate: real)

  class BackpressureController<T(==, !new)> {
    const cfg: BackpressureConfig
    var queues: map<string, SendQueue<T>>

    ghost predicate Valid()
      reads this, queues.Values
    {
      && Constructible(cfg.strategy, cfg.maxQueueSize)
      && (forall id :: id in queues ==>
            && queues[id].Valid()
            && queues[id].strategy == cfg.strategy && queues[id].max == cfg.maxQueueSize)
      && (forall i, j :: i in queues && j in queues && i != j ==> queues[i] != queues[j])
    }

    constructor (cfg: BackpressureConfig)
      requires Constructible(cfg.strategy, cfg.maxQueueSize)
      ensures Valid() && this.cfg == cfg && queues == map[]
    {
      this.cfg, queues := cfg, map[];
    }

    /** The counters of every connection. */
    ghost function Stats(): map<string, SendStats>
      reads this, queues.Values
    {
      map id | id in queues :: queues[id].stats
    }

    method AddConnection(id: string) returns (queue: SendQueue<T>)
      requires Valid()
      modifies this
      ensures Valid() && fresh(queue) && queues == old(queues)[id := queue]
      ensures queue.view == Init(cfg.strategy, cfg.maxQueueSize) && queue.Sound()
    {
      queue := new SendQueue(id, cfg.maxQueueSize, cfg.strategy);
      queues := queues[id := queue];
    }

    method RemoveConnection(id: string)
      requires Valid()
      modifies this
      ensures Valid() && queues == old(queues) - {id}
    {
      queues := queues - {id};
    }

    function GetQueue(id: string): Option<SendQueue<T>>
      reads this
    {
      if id in queues then Some(queues[id]) else None
    }

    /** One of the sums of `global_stats`. */
    method SumOver(field: SendStats -> nat) returns (total: nat)
      ensures total == Sum(Column(Stats(), field))
    {
      total := 0;
      var todo := queues.Keys;
      ghost var rest := Column(Stats(), field);
      while todo != {}
        invariant todo <= queues.Keys
        invariant rest == map id | id in todo :: field(queues[id].stats)
        invariant total + Sum(rest) == Sum(Column(Stats(), field))
        decreases |todo|
      {
        var id :| id in todo;
        SumPick(rest, id);
        total := total + field(queues[id].stats);
        todo, rest := todo - {id}, rest - {id};
      }
    }

    method GlobalStats() returns (r: Totals)
      ensures r.connections == |queues|
      ensures r.totalQueued == Sum(Column(Stats(), Queued))
      ensures r.totalDropped == Sum(Column(Stats(), Dropped))
      ensures r.totalSent == Sum(Column(Stats(), SentOf))
      ensures r.overallDropRate == OverallRate(r.totalQueued, r.totalDropped)
    {
      var queued := SumOver(Queued);
      var dropped := SumOver(Dropped);
      var sent := SumOver(SentOf);
      r := Totals(|queues|, queued, dropped, sent, dropped as real / Max(1, queued + dropped) as real);
    }
  }
}
