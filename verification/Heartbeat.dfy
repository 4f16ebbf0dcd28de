/** `HeartbeatTracker` and the loop of `HeartbeatManager` as the program keeps them. */
module Heartbeat {
  import opened HeartbeatModel

  class HeartbeatTracker {
    var lastPongAt: real
    var pingCount: nat
    var pongCount: nat
    var missedPongs: nat
    var alive: bool
    ghost var view: State

    ghost predicate Valid()
      reads this
    {
      && lastPongAt == view.lastPong && pingCount == view.pings && pongCount == view.pongs
      && missedPongs == view.missed && alive == view.alive
      && (alive <==> view.phase != Stopped)
    }

    constructor (now: real)
      ensures Valid() && view == Init(now)
    {
      lastPongAt, pingCount, pongCount, missedPongs, alive := now, 0, 0, 0, true;
      view := Init(now);
    }

    /** `now` is what the monotonic clock reads. */
    method RecordPong(now: real)
      requires Valid() && now == view.now
      modifies this
      ensures Valid() && view == DoPong(old(view))
      ensures lastPongAt == now && pongCount == old(pongCount) + 1 && missedPongs == 0
      ensures pingCount == old(pingCount) && alive == old(alive)
    {
      lastPongAt := now;
      pongCount := pongCount + 1;
      missedPongs := 0;
      view := DoPong(view);
    }

    function SecondsSincePong(now: real): real
      reads this
    {
      now - lastPongAt
    }
  }

  /** One round of the loop as its environment shapes it: what happens during the first sleep,
      while the ping is being sent, whether that send succeeds, and during the second sleep. */
  datatype Round = Round(sleep: seq<Event>, sending: seq<Event>, sent: bool, waiting: seq<Event>)

  /** While the loop is suspended the clock advances and pongs arrive. */
  ghost predicate Outside(c: Config, s: State, events: seq<Event>) {
    forall i :: 0 <= i < |events| ==>
      || events[i].Pong?
      || (events[i].Advance? && 0.0 <= events[i].dt
          && InTime(c, Exec(c, s, events[..i]), Exec(c, s, events[..i]).now + events[i].dt))
  }

  function AfterPing(c: Config, s: State, r: Round): State {
    Exec(c, Apply(c, Exec(c, s, r.sleep), Ping), r.sending)
  }

  function AfterSend(c: Config, s: State, r: Round): State {
    Exec(c, Apply(c, AfterPing(c, s, r), SendReturns(true)), r.waiting)
  }

  function AfterRound(c: Config, s: State, r: Round): State {
    if r.sent then Apply(c, AfterSend(c, s, r), Check) else Apply(c, AfterPing(c, s, r), SendReturns(false))
  }

  /** The sleeps of the round last at least what was asked. */
  ghost predicate Legal(c: Config, s: State, r: Round) {
    && Outside(c, s, r.sleep) && CanPing(c, Exec(c, s, r.sleep))
    && Outside(c, Apply(c, Exec(c, s, r.sleep), Ping), r.sending)
    && (r.sent ==>
          && Outside(c, Apply(c, AfterPing(c, s, r), SendReturns(true)), r.waiting)
          && CanCheck(c, AfterSend(c, s, r)))
  }

  /** While the loop is suspended nothing but the clock and the pongs moves. */
  lemma {:induction false} OutsideKeeps(c: Config, s: State, events: seq<Event>)
    requires Outside(c, s, events)
    ensures var t := Exec(c, s, events);
      && t.pings == s.pings && t.checks == s.checks && t.alive == s.alive && t.phase == s.phase
      && t.verdict == s.verdict && t.pongs == s.pongs + Pongs(events)
      && (Pongs(events) == 0 ==> t.lastPong == s.lastPong && t.missed == s.missed)
      && (Pongs(events) > 0 ==> t.missed == 0)
  {
    if events != [] {
      var before := events[..|events| - 1];
      assert forall i :: 0 <= i < |before| ==> before[i] == events[i] && before[..i] == events[..i];
      OutsideKeeps(c, s, before);
    }
  }

  /** A send that fails ends the loop at once: the ping is counted, nothing is checked, and the tracker is
      not alive. */
  lemma FailedSendEnds(c: Config, s: State, r: Round)
    requires s.phase == Sleeping && Legal(c, s, r) && !r.sent
    ensures var t := AfterRound(c, s, r);
      && !t.alive && t.verdict == SendFailed && t.pings == s.pings + 1 && t.checks == s.checks
      && t.pongs == s.pongs + Pongs(r.sleep) + Pongs(r.sending)
  {
    OutsideKeeps(c, s, r.sleep);
    OutsideKeeps(c, Apply(c, Exec(c, s, r.sleep), Ping), r.sending);
  }

  /** Otherwise the round pings once and checks once: with no pong for longer than interval + timeout one
      more pong is missed, and the loop ends exactly if that makes max_missed. */
  lemma CheckedRound(c: Config, s: State, r: Round)
    requires s.phase == Sleeping && s.alive && Legal(c, s, r) && r.sent
    ensures var u, t := AfterSend(c, s, r), AfterRound(c, s, r);
      var silent := u.now - u.lastPong > c.interval + c.timeout;
      && t.pings == s.pings + 1 && t.checks == s.checks + 1 && t.lastPong == u.lastPong && t.now == u.now
      && t.pongs == s.pongs + Pongs(r.sleep) + Pongs(r.sending) + Pongs(r.waiting)
      && t.missed == u.missed + (if silent then 1 else 0)
      && (t.alive <==> !(silent && t.missed >= c.maxMissed))
      && (t.alive <==> t.phase == Sleeping)
  {
    OutsideKeeps(c, s, r.sleep);
    OutsideKeeps(c, Apply(c, Exec(c, s, r.sleep), Ping), r.sending);
    OutsideKeeps(c, Apply(c, AfterPing(c, s, r), SendReturns(true)), r.waiting);
  }

  function AfterRounds(c: Config, s: State, rounds: seq<Round>): State {
    if rounds == [] then s else AfterRound(c, AfterRounds(c, s, rounds[..|rounds| - 1]), rounds[|rounds| - 1])
  }

  /** The tracker is alive at the start of each of these rounds. */
  predicate AliveBefore(c: Config, s: State, rounds: seq<Round>, n: nat)
    requires n <= |rounds|
  {
    n == 0 || (AliveBefore(c, s, rounds, n - 1) && AfterRounds(c, s, rounds[..n - 1]).alive)
  }

  /** The rounds are legal as long as the loop runs. */
  ghost predicate AllLegal(c: Config, s: State, rounds: seq<Round>) {
    forall i :: 0 <= i < |rounds| && AfterRounds(c, s, rounds[..i]).alive ==>
      Legal(c, AfterRounds(c, s, rounds[..i]), rounds[i])
  }

  /** What happens in a round, in order. */
  function EventsOf(r: Round): seq<Event> {
    r.sleep + [Ping] + r.sending + [SendReturns(r.sent)] + if r.sent then r.waiting + [Check] else []
  }

  function AllEvents(rounds: seq<Round>): seq<Event> {
    if rounds == [] then [] else AllEvents(rounds[..|rounds| - 1]) + EventsOf(rounds[|rounds| - 1])
  }

  lemma RoundIsARun(c: Config, s: State, r: Round)
    ensures AfterRound(c, s, r) == Exec(c, s, EventsOf(r))
  {
    var e := Then(c, s, r.sleep, Ping);
    ExecAppend(c, s, e, r.sending);
    e := Then(c, s, e + r.sending, SendReturns(r.sent));
    if r.sent {
      ExecAppend(c, s, e, r.waiting);
      var all := Then(c, s, e + r.waiting, Check);
      assert all == EventsOf(r);
    } else {
      assert e == EventsOf(r);
    }
  }

  /** Rounds are the runs of the machine in which these events happen, so every fact about runs holds of them. */
  lemma {:induction false} RoundsAreARun(c: Config, s: State, rounds: seq<Round>)
    ensures AfterRounds(c, s, rounds) == Exec(c, s, AllEvents(rounds))
  {
    if rounds != [] {
      var before, r := rounds[..|rounds| - 1], rounds[|rounds| - 1];
      RoundsAreARun(c, s, before);
      RoundIsARun(c, AfterRounds(c, s, before), r);
      ExecAppend(c, s, AllEvents(before), EventsOf(r));
    }
  }

  class HeartbeatManager {
    const cfg: Config

    constructor (cfg: Config)
      ensures this.cfg == cfg
    {
      this.cfg := cfg;
    }

    /** The loop is suspended while these events happen; only pongs touch the tracker. */
    method Suspend(tracker: HeartbeatTracker, now: real, events: seq<Event>) returns (later: real)
      requires tracker.Valid() && now == tracker.view.now && Outside(cfg, tracker.view, events)
      modifies tracker
      ensures tracker.Valid() && later == tracker.view.now
      ensures tracker.view == Exec(cfg, old(tracker.view), events)
      ensures tracker.view.phase == old(tracker.view).phase
    {
      later := now;
      for i := 0 to |events|
        invariant tracker.Valid() && later == tracker.view.now
        invariant tracker.view == Exec(cfg, old(tracker.view), events[..i])
        invariant tracker.view.phase == old(tracker.view).phase
      {
        assert events[..i + 1][..i] == events[..i];
        if events[i].Pong? {
          tracker.RecordPong(later);
        } else {
          later := later + events[i].dt;
          tracker.view := Apply(cfg, tracker.view, events[i]);
        }
      }
      assert events[..|events|] == events;
    }

    /** `_heartbeat_loop` in an environment given round by round; it ends when the tracker is no
        longer alive, or runs as long as the environment is described. */
    method HeartbeatLoop(tracker: HeartbeatTracker, start: real, rounds: seq<Round>) returns (done: nat)
      requires tracker.Valid() && start == tracker.view.now && tracker.view.phase == Sleeping
      requires AllLegal(cfg, tracker.view, rounds)
      modifies tracker
      ensures tracker.Valid() && done <= |rounds|
      ensures tracker.view == AfterRounds(cfg, old(tracker.view), rounds[..done])
      ensures tracker.alive ==> done == |rounds|
      ensures AliveBefore(cfg, old(tracker.view), rounds, done)
    {
      var now := start;
      done := 0;
      while tracker.alive && done < |rounds|
        invariant tracker.Valid() && done <= |rounds| && now == tracker.view.now
        invariant tracker.view == AfterRounds(cfg, old(tracker.view), rounds[..done])
        invariant tracker.alive ==> tracker.view.phase == Sleeping
        invariant AliveBefore(cfg, old(tracker.view), rounds, done)
      {
        assert rounds[..done + 1][..done] == rounds[..done];
        now := OneRound(tracker, now, rounds[done]);
        done := done + 1;
      }
    }

    method OneRound(tracker: HeartbeatTracker, start: real, r: Round) returns (now: real)
      requires tracker.Valid() && start == tracker.view.now && tracker.view.phase == Sleeping
      requires Legal(cfg, tracker.view, r)
      modifies tracker
      ensures tracker.Valid() && now == tracker.view.now
      ensures tracker.view == AfterRound(cfg, old(tracker.view), r)
      ensures tracker.alive ==> tracker.view.phase == Sleeping
      ensures tracker.pingCount == old(tracker.pingCount) + 1
      ensures tracker.alive <==> r.sent && !(now - tracker.lastPongAt > cfg.interval + cfg.timeout
                                             && tracker.missedPongs >= cfg.maxMissed)
    {
      if r.sent { CheckedRound(cfg, tracker.view, r); } else { FailedSendEnds(cfg, tracker.view, r); }
      now := Suspend(tracker, start, r.sleep);
      tracker.pingCount := tracker.pingCount + 1;
      tracker.view := Apply(cfg, tracker.view, Ping);
      now := Suspend(tracker, now, r.sending);
      if !r.sent {
        tracker.alive := false;
        tracker.view := Apply(cfg, tracker.view, SendReturns(false));
        return;
      }
      tracker.view := Apply(cfg, tracker.view, SendReturns(true));
      now := Suspend(tracker, now, r.waiting);
      if tracker.SecondsSincePong(now) > cfg.interval + cfg.timeout {
        tracker.missedPongs := tracker.missedPongs + 1;
        if tracker.missedPongs >= cfg.maxMissed { tracker.alive := false; }
      }
      tracker.view := Apply(cfg, tracker.view, Check);
    }
  }
}
