/** The heartbeat failure detector as a timed state machine.

    `_heartbeat_loop` suspends in a sleep, in a send, and in a second sleep.  A sleep lasts at
    least what was asked.  `slack` bounds what a cycle may take beyond interval + timeout: late
    wake-ups and the send together.  A pong may arrive at any moment. */
module HeartbeatModel {

  datatype Config = Config(interval: real, timeout: real, maxMissed: int, slack: real)

  datatype Phase = Sleeping | Sending | AwaitingPong(since: real) | Stopped

  datatype Verdict = Undecided | SendFailed | MissedPongs(silence: real)

  datatype State = State(
    now: real, lastPong: real, pings: nat, pongs: nat, missed: nat, alive: bool, phase: Phase,
    // history: the last check (at first, the creation), their number, how the loop ended,
    // and whether a pong came since the last check and since the last ping
    lastCheck: real, checks: nat, verdict: Verdict, heard: bool, answered: bool)

  datatype Event = Advance(dt: real) | Pong | Ping | SendReturns(ok: bool) | Check

  ghost predicate Proper(c: Config) { 0.0 <= c.interval && 0.0 <= c.timeout && 0.0 <= c.slack }

  function Cycle(c: Config): real { c.interval + c.timeout }

  function Longest(c: Config): real { Cycle(c) + c.slack }

  function Init(now: real): State {
    State(now, now, 0, 0, 0, true, Sleeping, now, 0, Undecided, false, false)
  }

  /** How far the clock may run in this phase if the cycle is to last at most interval + timeout + slack. */
  predicate InTime(c: Config, s: State, now: real) {
    match s.phase
    case Stopped => true
    case AwaitingPong(_) => now <= s.lastCheck + Cycle(c) + c.slack
    case _ => now <= s.lastCheck + c.interval + c.slack
  }

  predicate CanPing(c: Config, s: State) { s.phase == Sleeping && s.now >= s.lastCheck + c.interval }

  predicate CanCheck(c: Config, s: State) { s.phase.AwaitingPong? && s.now >= s.phase.since + c.timeout }

  function DoPong(s: State): State {
    s.(lastPong := s.now, pongs := s.pongs + 1, missed := 0, heard := true, answered := true)
  }

  function DoCheck(c: Config, s: State): State {
    var t := s.(lastCheck := s.now, checks := s.checks + 1, heard := false, phase := Sleeping);
    var silence := s.now - s.lastPong;
    if silence > Cycle(c) then
      if s.missed + 1 >= c.maxMissed
      then t.(missed := s.missed + 1, alive := false, phase := Stopped, verdict := MissedPongs(silence))
      else t.(missed := s.missed + 1)
    else t
  }

  function Apply(c: Config, s: State, e: Event): State {
    match e
    case Advance(dt) => if 0.0 <= dt && InTime(c, s, s.now + dt) then s.(now := s.now + dt) else s
    case Pong => DoPong(s)
    case Ping => if CanPing(c, s) then s.(pings := s.pings + 1, phase := Sending, answered := false) else s
    case SendReturns(ok) =>
      if s.phase != Sending then s
      else if ok then s.(phase := AwaitingPong(s.now))
      else s.(alive := false, phase := Stopped, verdict := SendFailed)
    case Check => if CanCheck(c, s) then DoCheck(c, s) else s
  }

  function Exec(c: Config, s: State, events: seq<Event>): State {
    if events == [] then s else Apply(c, Exec(c, s, events[..|events| - 1]), events[|events| - 1])
  }

  lemma {:induction false} ExecAppend(c: Config, s: State, a: seq<Event>, b: seq<Event>)
    ensures Exec(c, s, a + b) == Exec(c, Exec(c, s, a), b)
  {
    if b == [] {
      assert a + b == a;
    } else {
      ExecAppend(c, s, a, b[..|b| - 1]);
      assert (a + b)[..|a + b| - 1] == a + b[..|b| - 1];
    }
  }

  lemma ExecOne(c: Config, s: State, e: Event)
    ensures Exec(c, s, [e]) == Apply(c, s, e)
  {
    assert [e][..0] == [];
    assert Exec(c, s, [e][..0]) == s;
  }

  // ------------------------------------------------------------------
  // The invariant
  // ------------------------------------------------------------------

  /** n periods of the given length. */
  function Periods(n: int, length: real): real {
    if n <= 0 then 0.0 else Periods(n - 1, length) + length
  }

  lemma {:induction false} MorePeriods(k: int, n: int, length: real)
    requires 0.0 <= length && k <= n
    ensures Periods(k, length) <= Periods(n, length)
    decreases n - k
  {
    if k < n { MorePeriods(k, n - 1, length); }
  }

  lemma {:induction false} PeriodsIs(n: nat, length: real)
    ensures Periods(n, length) == n as real * length
  {
    if n != 0 {
      PeriodsIs(n - 1, length);
      assert n as real == (n - 1) as real + 1.0;
    }
  }

  ghost predicate TimeInv(c: Config, s: State) {
    && s.lastPong <= s.now && s.lastCheck <= s.now
    && InTime(c, s, s.now)
    && (s.phase == Sending ==> s.lastCheck + c.interval <= s.now)
    && (s.phase.AwaitingPong? ==> s.lastCheck + c.interval <= s.phase.since <= s.lastCheck + c.interval + c.slack
                                  && s.phase.since <= s.now)
    && (s.alive <==> s.phase != Stopped)
    && (s.alive <==> s.verdict == Undecided)
  }

  /** Every missed pong is a whole cycle of silence ... */
  ghost predicate SilenceInv(c: Config, s: State) {
    && (s.missed > 0 && s.alive ==> s.lastCheck - s.lastPong > Periods(s.missed, Cycle(c)))
    && (s.verdict.MissedPongs? ==> s.verdict.silence > Periods(c.maxMissed, Cycle(c)))
    && (s.alive ==> s.missed == 0 || s.missed < c.maxMissed)
  }

  /** ... and silence is not overlooked for longer than a cycle. */
  ghost predicate PromptInv(c: Config, s: State) {
    s.alive ==> s.lastCheck <= s.lastPong + Cycle(c) + Periods(s.missed, Longest(c))
  }

  ghost predicate Inv(c: Config, s: State) { TimeInv(c, s) && SilenceInv(c, s) && PromptInv(c, s) }

  lemma InitInv(c: Config, now: real)
    requires Proper(c)
    ensures Inv(c, Init(now))
  {}

  lemma CheckSilence(c: Config, s: State)
    requires Proper(c) && TimeInv(c, s) && SilenceInv(c, s) && CanCheck(c, s)
    ensures SilenceInv(c, DoCheck(c, s))
    ensures s.now - s.lastPong <= Cycle(c) ==> s.missed == 0
    ensures s.now - s.lastPong > Cycle(c) ==> s.now - s.lastPong > Periods(s.missed + 1, Cycle(c))
  {
    if s.missed >= 1 { MorePeriods(1, s.missed, Cycle(c)); }
    if s.missed + 1 >= c.maxMissed { MorePeriods(c.maxMissed, s.missed + 1, Cycle(c)); }
  }

  lemma CheckPrompt(c: Config, s: State)
    requires Proper(c) && TimeInv(c, s) && PromptInv(c, s) && CanCheck(c, s)
    requires s.now - s.lastPong <= Cycle(c) ==> s.missed == 0
    ensures PromptInv(c, DoCheck(c, s))
  {}

  lemma ApplyInv(c: Config, s: State, e: Event)
    requires Proper(c) && Inv(c, s)
    ensures Inv(c, Apply(c, s, e))
  {
    match e
    case Advance(dt) =>
    case Pong =>
    case Ping =>
    case SendReturns(ok) =>
    case Check =>
      if CanCheck(c, s) {
        CheckSilence(c, s);
        CheckPrompt(c, s);
      }
  }

  lemma {:induction false} ExecInv(c: Config, s: State, events: seq<Event>)
    requires Proper(c) && Inv(c, s)
    ensures Inv(c, Exec(c, s, events))
  {
    if events != [] {
      ExecInv(c, s, events[..|events| - 1]);
      ApplyInv(c, Exec(c, s, events[..|events| - 1]), events[|events| - 1]);
    }
  }

  function Reached(c: Config, start: real, events: seq<Event>): State { Exec(c, Init(start), events) }

  lemma ReachedInv(c: Config, start: real, events: seq<Event>)
    requires Proper(c)
    ensures Inv(c, Reached(c, start, events))
  {
    InitInv(c, start);
    ExecInv(c, Init(start), events);
  }

  // ------------------------------------------------------------------
  // The detection bound
  // ------------------------------------------------------------------

  lemma SilenceAsProduct(c: Config, silence: real)
    requires Proper(c) && silence > Periods(c.maxMissed, Cycle(c))
    ensures silence > c.maxMissed as real * Cycle(c)
  {
    if c.maxMissed >= 0 {
      PeriodsIs(c.maxMissed, Cycle(c));
    } else {
      assert -(c.maxMissed as real) * Cycle(c) >= 0.0;
    }
  }

  /** A connection is marked dead by missed pongs only after silence of more than
      max_missed whole cycles. */
  lemma DeadOnlyAfterSilence(c: Config, start: real, events: seq<Event>)
    requires Proper(c)
    requires var s := Reached(c, start, events); CanCheck(c, s) && DoCheck(c, s).verdict.MissedPongs?
    ensures var s := Reached(c, start, events);
      s.now - s.lastPong > c.maxMissed as real * Cycle(c)
  {
    ReachedInv(c, start, events);
    var s := Reached(c, start, events);
    CheckSilence(c, s);
    SilenceAsProduct(c, s.now - s.lastPong);
  }

  lemma AliveNotOverdue(c: Config, s: State)
    requires Proper(c) && Inv(c, s) && 1 <= c.maxMissed && s.alive
    ensures s.now <= s.lastPong + Cycle(c) + Periods(c.maxMissed, Longest(c))
  {
    assert s.now <= s.lastCheck + Longest(c);
    assert Periods(s.missed + 1, Longest(c)) == Periods(s.missed, Longest(c)) + Longest(c);
    MorePeriods(s.missed + 1, c.maxMissed, Longest(c));
  }

  lemma ReachedNotOverdue(c: Config, start: real, events: seq<Event>)
    requires Proper(c) && 1 <= c.maxMissed && Reached(c, start, events).alive
    ensures var s := Reached(c, start, events); s.now <= s.lastPong + Cycle(c) + Periods(c.maxMissed, Longest(c))
  {
    ReachedInv(c, start, events);
    AliveNotOverdue(c, Reached(c, start, events));
  }

  /** A client whose last pong was at p is marked dead no later than p + C + m*(C+d). */
  lemma DeadInTime(c: Config, start: real, events: seq<Event>)
    requires Proper(c) && 1 <= c.maxMissed
    ensures var s := Reached(c, start, events);
      s.now > s.lastPong + Cycle(c) + c.maxMissed as real * Longest(c) ==> !s.alive
  {
    if Reached(c, start, events).alive {
      ReachedNotOverdue(c, start, events);
      PeriodsIs(c.maxMissed, Longest(c));
    }
  }

  /** Silence recorded with the verdict, in every later state too. */
  lemma VerdictSilence(c: Config, start: real, events: seq<Event>)
    requires Proper(c) && Reached(c, start, events).verdict.MissedPongs?
    ensures Reached(c, start, events).verdict.silence > c.maxMissed as real * Cycle(c)
  {
    ReachedInv(c, start, events);
    SilenceAsProduct(c, Reached(c, start, events).verdict.silence);
  }

  lemma CheckFromAwaiting(c: Config, s: State) returns (more: seq<Event>)
    requires Proper(c) && TimeInv(c, s) && s.phase.AwaitingPong?
    ensures Exec(c, s, more).checks == s.checks + 1
  {
    more := Then(c, s, [], Advance(Shortfall(s.now, s.phase.since + c.timeout)));
    more := Then(c, s, more, Check);
  }

  lemma CheckFromSending(c: Config, s: State) returns (more: seq<Event>)
    requires Proper(c) && TimeInv(c, s) && s.phase == Sending
    ensures Exec(c, s, more).checks == s.checks + 1
  {
    var rest := CheckFromAwaiting(c, Apply(c, s, SendReturns(true)));
    ExecOne(c, s, SendReturns(true));
    more := [SendReturns(true)] + rest;
    ExecAppend(c, s, [SendReturns(true)], rest);
  }

  lemma CheckFromSleeping(c: Config, s: State) returns (more: seq<Event>)
    requires Proper(c) && TimeInv(c, s) && s.phase == Sleeping
    ensures Exec(c, s, more).checks == s.checks + 1
  {
    var first := Then(c, s, [], Advance(Shortfall(s.now, s.lastCheck + c.interval)));
    first := Then(c, s, first, Ping);
    var rest := CheckFromSending(c, Exec(c, s, first));
    more := first + rest;
    ExecAppend(c, s, first, rest);
  }

  /** What the bound rests on is possible: from every reachable state a running loop can
      reach its next check in time. */
  lemma NextCheckPossible(c: Config, start: real, events: seq<Event>) returns (more: seq<Event>)
    requires Proper(c) && Reached(c, start, events).alive
    ensures Exec(c, Reached(c, start, events), more).checks == Reached(c, start, events).checks + 1
  {
    ReachedInv(c, start, events);
    var s := Reached(c, start, events);
    match s.phase
    case Sleeping => more := CheckFromSleeping(c, s);
    case Sending => more := CheckFromSending(c, s);
    case AwaitingPong(_) => more := CheckFromAwaiting(c, s);
  }

  function Shortfall(now: real, due: real): real { if now < due then due - now else 0.0 }

  lemma Then(c: Config, s: State, events: seq<Event>, e: Event) returns (more: seq<Event>)
    ensures more == events + [e] && Exec(c, s, more) == Apply(c, Exec(c, s, events), e)
  {
    more := events + [e];
    assert more[..|events|] == events;
  }

  // ------------------------------------------------------------------
  // The counters
  // ------------------------------------------------------------------

  function Pongs(events: seq<Event>): nat {
    if events == [] then 0 else Pongs(events[..|events| - 1]) + if events[|events| - 1].Pong? then 1 else 0
  }

  ghost predicate CounterInv(s: State) {
    && s.missed <= s.checks
    && s.pings == s.checks + (if s.phase == Sending || s.phase.AwaitingPong? || s.verdict == SendFailed then 1 else 0)
    && (s.phase == Stopped <==> s.verdict != Undecided)
  }

  lemma ApplyCounters(c: Config, s: State, e: Event)
    requires CounterInv(s)
    ensures CounterInv(Apply(c, s, e))
    ensures Apply(c, s, e).pongs == s.pongs + if e.Pong? then 1 else 0
  {}

  /** Every pong is counted; every ping is followed by its check before the next ping, or ends the
      loop; never more misses than checks. */
  lemma {:induction false} Counters(c: Config, start: real, events: seq<Event>)
    ensures Reached(c, start, events).pongs == Pongs(events) && CounterInv(Reached(c, start, events))
  {
    if events != [] {
      Counters(c, start, events[..|events| - 1]);
      ApplyCounters(c, Reached(c, start, events[..|events| - 1]), events[|events| - 1]);
    }
  }

  // ------------------------------------------------------------------
  // Clients that answer
  // ------------------------------------------------------------------

  /** Every check of the run finds that a pong came since the previous check. */
  ghost predicate HeardEveryCycle(c: Config, start: real, events: seq<Event>) {
    forall k :: 0 <= k < |events| && events[k] == Check ==> Reached(c, start, events[..k]).heard
  }

  /** Every check of the run finds that a pong came since the ping of its cycle. */
  ghost predicate AnsweredEveryPing(c: Config, start: real, events: seq<Event>) {
    forall k :: 0 <= k < |events| && events[k] == Check ==> Reached(c, start, events[..k]).answered
  }

  lemma {:induction false} HeardMissesLittle(c: Config, start: real, events: seq<Event>)
    requires Proper(c) && HeardEveryCycle(c, start, events) && (2 <= c.maxMissed || c.slack == 0.0)
    ensures var s := Reached(c, start, events);
      && (s.heard ==> s.missed == 0 && s.lastPong >= s.lastCheck)
      && s.missed <= (if c.slack == 0.0 then 0 else 1) && !s.verdict.MissedPongs?
  {
    if events != [] {
      var before := events[..|events| - 1];
      assert forall k :: 0 <= k <= |before| ==> before[..k] == events[..k];
      HeardMissesLittle(c, start, before);
      ReachedInv(c, start, before);
    }
  }

  /** A pong at the start of a cycle, and a check that comes late. */
  lemma LateCheckKills(c: Config, start: real) returns (events: seq<Event>)
    requires Proper(c) && c.maxMissed <= 1 && c.slack > 0.0
    ensures HeardEveryCycle(c, start, events)
    ensures Reached(c, start, events).verdict.MissedPongs?
  {
    var s := Init(start);
    events := Then(c, s, [], Pong);
    events := Then(c, s, events, Advance(c.interval));
    events := Then(c, s, events, Ping);
    events := Then(c, s, events, SendReturns(true));
    events := Then(c, s, events, Advance(c.timeout + c.slack));
    events := Then(c, s, events, Check);
    assert events[..5] == [Pong, Advance(c.interval), Ping, SendReturns(true), Advance(c.timeout + c.slack)];
  }

  /** A client that pongs once in every cycle is safe from being marked dead for missed pongs
      exactly when max_missed is at least 2 or nothing in the loop is ever late. */
  lemma RegularClientSafeIff(c: Config)
    requires Proper(c)
    ensures (forall start, events ::
               HeardEveryCycle(c, start, events) ==> !Reached(c, start, events).verdict.MissedPongs?)
            <==> (2 <= c.maxMissed || c.slack == 0.0)
  {
    if 2 <= c.maxMissed || c.slack == 0.0 {
      forall start, events | HeardEveryCycle(c, start, events) ensures !Reached(c, start, events).verdict.MissedPongs? {
        HeardMissesLittle(c, start, events);
      }
    } else {
      var events := LateCheckKills(c, 0.0);
    }
  }

  /** A client that answers every ping before the check misses nothing, if the slack is at most
      the interval. */
  lemma {:induction false} PromptClientMissesNothing(c: Config, start: real, events: seq<Event>)
    requires Proper(c) && c.slack <= c.interval && AnsweredEveryPing(c, start, events)
    ensures var s := Reached(c, start, events);
      && s.missed == 0 && !s.verdict.MissedPongs?
      && (s.phase.AwaitingPong? && s.answered ==> s.lastPong >= s.lastCheck + c.interval)
      && (s.phase == Sending && s.answered ==> s.lastPong >= s.lastCheck + c.interval)
  {
    if events != [] {
      var before := events[..|events| - 1];
      assert forall k :: 0 <= k <= |before| ==> before[..k] == events[..k];
      PromptClientMissesNothing(c, start, before);
      ReachedInv(c, start, before);
    }
  }

  lemma {:induction false} AnsweredIsHeard(c: Config, start: real, events: seq<Event>)
    ensures var s := Reached(c, start, events);
      (s.phase == Sending || s.phase.AwaitingPong?) && s.answered ==> s.heard
  {
    if events != [] { AnsweredIsHeard(c, start, events[..|events| - 1]); }
  }

  /** The ping is answered at once, and the check comes late. */
  lemma LateCheckMisses(c: Config, start: real) returns (events: seq<Event>)
    requires Proper(c) && c.slack > c.interval
    ensures AnsweredEveryPing(c, start, events)
    ensures Reached(c, start, events).missed == 1
    ensures c.maxMissed <= 1 ==> Reached(c, start, events).verdict.MissedPongs?
  {
    var s := Init(start);
    events := Then(c, s, [], Advance(c.interval));
    events := Then(c, s, events, Ping);
    events := Then(c, s, events, SendReturns(true));
    events := Then(c, s, events, Pong);
    events := Then(c, s, events, Advance(c.timeout + c.slack));
    events := Then(c, s, events, Check);
    assert events[..5] == [Advance(c.interval), Ping, SendReturns(true), Pong, Advance(c.timeout + c.slack)];
  }

  /** A client that answers every ping before the check never misses one if and only if nothing is
      later than the interval. */
  lemma PromptClientMissesNothingIff(c: Config)
    requires Proper(c)
    ensures (forall start, events :: AnsweredEveryPing(c, start, events) ==> Reached(c, start, events).missed == 0)
            <==> c.slack <= c.interval
  {
    if c.slack <= c.interval {
      forall start, events | AnsweredEveryPing(c, start, events) ensures Reached(c, start, events).missed == 0 {
        PromptClientMissesNothing(c, start, events);
      }
    } else {
      var events := LateCheckMisses(c, 0.0);
    }
  }

  /** It is safe from being marked dead for missed pongs if and only if, besides, two must be missed. */
  lemma PromptClientSafeIff(c: Config)
    requires Proper(c)
    ensures (forall start, events ::
               AnsweredEveryPing(c, start, events) ==> !Reached(c, start, events).verdict.MissedPongs?)
            <==> c.slack <= c.interval || 2 <= c.maxMissed
  {
    if c.slack <= c.interval || 2 <= c.maxMissed {
      forall start, events | AnsweredEveryPing(c, start, events)
        ensures !Reached(c, start, events).verdict.MissedPongs?
      {
        if c.slack <= c.interval {
          PromptClientMissesNothing(c, start, events);
        } else {
          AnsweredMissesLittle(c, start, events);
        }
      }
    } else {
      var events := LateCheckMisses(c, 0.0);
    }
  }

  lemma {:induction false} AnsweredMissesLittle(c: Config, start: real, events: seq<Event>)
    requires Proper(c) && AnsweredEveryPing(c, start, events) && 2 <= c.maxMissed
    ensures var s := Reached(c, start, events);
      && (s.heard ==> s.missed == 0 && s.lastPong >= s.lastCheck)
      && s.missed <= 1 && !s.verdict.MissedPongs?
  {
    if events != [] {
      var before := events[..|events| - 1];
      assert forall k :: 0 <= k <= |before| ==> before[..k] == events[..k];
      AnsweredMissesLittle(c, start, before);
      AnsweredIsHeard(c, start, before);
      ReachedInv(c, start, before);
    }
  }
}
