/** `ReconnectPolicy`: capped exponential backoff with jitter, over the reals. */
module Reconnect {

  /** `draw` below is what `random.random()` returns. */
  predicate IsDraw(draw: real) { 0.0 <= draw < 1.0 }

  datatype ReconnectPolicy = ReconnectPolicy(
    initialDelay: real, maxDelay: real, multiplier: real, jitterFraction: real, maxAttempts: int)
  {
    function Uncapped(attempt: nat): real { initialDelay * Pow(multiplier, attempt) }

    /** The delay before jitter. */
    function Raw(attempt: nat): real {
      if Uncapped(attempt) < maxDelay then Uncapped(attempt) else maxDelay
    }

    function DelayFor(attempt: nat, draw: real): real { Jittered(Raw(attempt), jitterFraction, draw) }

    predicate ShouldRetry(attempt: int) { maxAttempts == 0 || attempt < maxAttempts }

    ghost predicate Growing() { 0.0 < initialDelay <= maxDelay && 1.0 <= multiplier }

    ghost predicate JitterIsFraction() { 0.0 <= jitterFraction <= 1.0 }
  }

  function Jittered(raw: real, fraction: real, draw: real): real {
    var jitter := raw * fraction * (draw * 2.0 - 1.0);
    if raw + jitter < 0.0 then 0.0 else raw + jitter
  }

  function Pow(x: real, n: nat): real {
    if n == 0 then 1.0 else Pow(x, n - 1) * x
  }

  // ------------------------------------------------------------------
  // Products of reals
  // ------------------------------------------------------------------

  lemma Distribute(a: real, b: real, c: real)
    ensures a * (b + c) == a * b + a * c
    ensures a * (b - c) == a * b - a * c
  {}

  lemma Positive(a: real, b: real)
    requires 0.0 <= a && 0.0 <= b
    ensures 0.0 <= a * b
  {}

  lemma Associate(a: real, b: real, c: real)
    ensures a * (b * c) == a * b * c
  {}

  /** x added n times. */
  function Times(n: nat, x: real): real {
    if n == 0 then 0.0 else Times(n - 1, x) + x
  }

  lemma {:induction false} TimesIs(n: nat, x: real)
    ensures Times(n, x) == n as real * x
  {
    if n != 0 {
      TimesIs(n - 1, x);
      assert n as real == (n - 1) as real + 1.0;
      Distribute(x, (n - 1) as real, 1.0);
    }
  }

  lemma {:induction false} MoreTimes(m: nat, n: nat, x: real)
    requires 0.0 <= x && m <= n
    ensures Times(m, x) <= Times(n, x)
    decreases n
  {
    if m < n { MoreTimes(m, n - 1, x); }
  }

  // ------------------------------------------------------------------
  // Saturation
  // ------------------------------------------------------------------

  lemma TimesAtLeastOne(a: real, x: real)
    requires 0.0 <= a && 1.0 <= x
    ensures a <= a * x
  {
    assert a * x - a == a * (x - 1.0) >= 0.0;
  }

  lemma {:induction false} PowGrows(x: real, m: nat, n: nat)
    requires 1.0 <= x && m <= n
    ensures 1.0 <= Pow(x, m) <= Pow(x, n)
    decreases n
  {
    if n != 0 {
      if m < n { PowGrows(x, m, n - 1); } else { PowGrows(x, m - 1, n - 1); }
      TimesAtLeastOne(Pow(x, n - 1), x);
    }
  }

  lemma Scaled(a: real, x: real, y: real)
    requires 0.0 < a
    ensures x <= y ==> a * x <= a * y
  {
    if x <= y { assert a * (y - x) >= 0.0; }
  }

  lemma UncappedGrows(p: ReconnectPolicy, m: nat, n: nat)
    requires p.Growing() && m <= n
    ensures 0.0 < p.initialDelay <= p.Uncapped(m) <= p.Uncapped(n)
  {
    PowGrows(p.multiplier, 0, m);
    PowGrows(p.multiplier, m, n);
    Scaled(p.initialDelay, 1.0, Pow(p.multiplier, m));
    Scaled(p.initialDelay, Pow(p.multiplier, m), Pow(p.multiplier, n));
  }

  /** Before jitter the delay never decreases; it is initial * multiplier^n below the cap, and
      the cap for ever once it has been reached. */
  lemma RawSchedule(p: ReconnectPolicy, m: nat, n: nat)
    requires p.Growing() && m <= n
    ensures p.initialDelay <= p.Raw(m) <= p.Raw(n) <= p.maxDelay
    ensures p.Raw(n) < p.maxDelay ==> p.Raw(m) == p.Uncapped(m) && p.Raw(n) == p.Uncapped(n)
    ensures p.Raw(m) == p.maxDelay ==> p.Raw(n) == p.maxDelay
  {
    UncappedGrows(p, m, n);
  }

  /** The value of the first delay, and of each one from the one before. */
  lemma ScheduleSteps(p: ReconnectPolicy, n: nat)
    ensures p.Uncapped(0) == p.initialDelay && p.Uncapped(n + 1) == p.Uncapped(n) * p.multiplier
    ensures p.Raw(n) <= p.Uncapped(n) && p.Raw(n) <= p.maxDelay && (p.Raw(n) == p.Uncapped(n) || p.Raw(n) == p.maxDelay)
    ensures p.Growing() ==>
      && p.Raw(0) == p.initialDelay
      && p.Raw(n + 1) == if p.Raw(n) * p.multiplier < p.maxDelay then p.Raw(n) * p.multiplier else p.maxDelay
  {
    Associate(p.initialDelay, Pow(p.multiplier, n), p.multiplier);
    assert p.initialDelay * 1.0 == p.initialDelay;
    if p.Growing() {
      UncappedGrows(p, n, n + 1);
      TimesAtLeastOne(p.maxDelay, p.multiplier);
    }
  }

  lemma BernoulliStep(d: real, p: real, nd: real)
    requires 0.0 <= d && 0.0 <= nd && p >= 1.0 + nd
    ensures p * (1.0 + d) >= 1.0 + nd + d
  {
    Distribute(p, 1.0, d);
    Distribute(d, p, 1.0 + nd);
    Distribute(d, 1.0, nd);
    Positive(d, p - (1.0 + nd));
    Positive(d, nd);
  }

  lemma {:induction false} Bernoulli(x: real, n: nat)
    requires 1.0 <= x
    ensures Pow(x, n) >= 1.0 + Times(n, x - 1.0)
  {
    if n != 0 {
      Bernoulli(x, n - 1);
      MoreTimes(0, n - 1, x - 1.0);
      BernoulliStep(x - 1.0, Pow(x, n - 1), Times(n - 1, x - 1.0));
      assert 1.0 + (x - 1.0) == x;
    }
  }

  lemma EnoughAttempts(initial: real, cap: real, growth: real, n: real)
    requires 0.0 < initial && 0.0 < growth && n >= (cap / initial - 1.0) / growth
    ensures initial * (1.0 + n * growth) >= cap
  {
    var q := (cap / initial - 1.0) / growth;
    assert q * growth == cap / initial - 1.0;
    assert (n - q) * growth >= 0.0;
    assert 1.0 + n * growth >= cap / initial;
    assert initial * (cap / initial) == cap;
    Scaled(initial, cap / initial, 1.0 + n * growth);
  }

  /** With multiplier > 1 the cap is reached by attempt ceil((max/initial - 1) / (multiplier - 1)). */
  lemma SaturatesBy(p: ReconnectPolicy, n: nat)
    requires p.Growing() && 1.0 < p.multiplier
    requires n as real >= (p.maxDelay / p.initialDelay - 1.0) / (p.multiplier - 1.0)
    ensures p.Raw(n) == p.maxDelay
  {
    Bernoulli(p.multiplier, n);
    TimesIs(n, p.multiplier - 1.0);
    EnoughAttempts(p.initialDelay, p.maxDelay, p.multiplier - 1.0, n as real);
    Scaled(p.initialDelay, 1.0 + n as real * (p.multiplier - 1.0), Pow(p.multiplier, n));
  }

  // ------------------------------------------------------------------
  // Jitter
  // ------------------------------------------------------------------

  lemma JitteredBounds(raw: real, j: real, draw: real)
    requires 0.0 <= raw && 0.0 <= j <= 1.0 && IsDraw(draw)
    ensures raw * (1.0 - j) <= Jittered(raw, j, draw) <= raw * (1.0 + j)
    ensures Jittered(raw, j, draw) == raw + raw * j * (draw * 2.0 - 1.0) >= 0.0
  {
    var u := draw * 2.0 - 1.0;
    Positive(raw, j);
    Positive(raw, 1.0 - j);
    Distribute(raw, 1.0, j);
    Bounded(raw * j, u);
  }

  lemma Bounded(a: real, u: real)
    requires 0.0 <= a && -1.0 <= u <= 1.0
    ensures -a <= a * u <= a
  {
    Positive(a, u + 1.0);
    Positive(a, 1.0 - u);
    Distribute(a, u, 1.0);
    Distribute(a, 1.0, u);
  }

  /** The lowest draw takes the whole jitter off, the middle one leaves the delay as it is, and between
      draws the delay moves in proportion. */
  lemma JitterByDraw(p: ReconnectPolicy, n: nat, u: real, v: real)
    requires p.Growing() && p.JitterIsFraction() && IsDraw(u) && IsDraw(v)
    ensures p.DelayFor(n, 0.0) == p.Raw(n) * (1.0 - p.jitterFraction)
    ensures p.DelayFor(n, 0.5) == p.Raw(n)
    ensures p.DelayFor(n, u) - p.DelayFor(n, v) == 2.0 * p.Raw(n) * p.jitterFraction * (u - v)
  {
    RawSchedule(p, n, n);
    var raw, j := p.Raw(n), p.jitterFraction;
    JitteredBounds(raw, j, 0.0);
    JitteredBounds(raw, j, 0.5);
    JitteredBounds(raw, j, u);
    JitteredBounds(raw, j, v);
    Distribute(raw, 1.0, j);
    Distribute(raw * j, u * 2.0 - 1.0, v * 2.0 - 1.0);
    Associate(raw * j, 2.0, u - v);
  }

  /** Every possible delay lies within the jitter fraction of the unjittered one. */
  lemma JitterEnvelope(p: ReconnectPolicy, n: nat, draw: real)
    requires p.Growing() && p.JitterIsFraction() && IsDraw(draw)
    ensures p.Raw(n) * (1.0 - p.jitterFraction) <= p.DelayFor(n, draw) <= p.Raw(n) * (1.0 + p.jitterFraction)
  {
    RawSchedule(p, n, n);
    JitteredBounds(p.Raw(n), p.jitterFraction, draw);
  }

  /** Whatever is drawn, the next delay is no shorter. */
  ghost predicate NeverShrinks(p: ReconnectPolicy, n: nat) {
    forall u, v :: IsDraw(u) && IsDraw(v) ==> p.DelayFor(n, u) <= p.DelayFor(n + 1, v)
  }

  lemma UncappedStep(p: ReconnectPolicy, n: nat)
    requires p.Growing() && p.Raw(n + 1) < p.maxDelay
    ensures p.Raw(n + 1) == p.Raw(n) * p.multiplier && 0.0 < p.Raw(n)
  {
    RawSchedule(p, n, n + 1);
    assert Pow(p.multiplier, n + 1) == Pow(p.multiplier, n) * p.multiplier;
  }

  lemma EnvelopesOrdered(raw: real, next: real, m: real, j: real)
    requires 0.0 < raw && m * (1.0 - j) >= 1.0 + j && next == raw * m
    ensures raw * (1.0 + j) <= next * (1.0 - j)
  {
    Scaled(raw, 1.0 + j, m * (1.0 - j));
    Associate(raw, m, 1.0 - j);
  }

  /** A draw so close to 1 that even the lowest draw of the next attempt gives less. */
  lemma CloseDraw(low: real, j: real) returns (u: real)
    requires 0.0 <= low < 1.0 + j && 0.0 <= j <= 1.0
    ensures IsDraw(u) && low < 1.0 + j * (u * 2.0 - 1.0)
  {
    var half := (1.0 + j - low) / 2.0;
    u := 1.0 - half / 2.0;
    assert u * 2.0 - 1.0 == 1.0 - half;
    Distribute(j, 1.0, half);
    Positive(half, 1.0 - j);
    Distribute(half, 1.0, j);
  }

  lemma LowestBelow(raw: real, next: real, m: real, j: real, w: real)
    requires 0.0 < raw && m * (1.0 - j) < 1.0 + j * w && next == raw * m
    ensures next * (1.0 - j) < raw + raw * j * w
  {
    var low, high := m * (1.0 - j), 1.0 + j * w;
    assert raw * (high - low) > 0.0;
    Distribute(raw, high, low);
    Distribute(raw, 1.0, j * w);
    Associate(raw, m, 1.0 - j);
    Associate(raw, j, w);
  }

  lemma LowestDraw(raw: real, j: real)
    requires 0.0 <= raw && 0.0 <= j <= 1.0
    ensures Jittered(raw, j, 0.0) == raw * (1.0 - j)
  {
    JitteredBounds(raw, j, 0.0);
    Distribute(raw, 1.0, j);
  }

  lemma ShrinkingDraw(raw: real, next: real, m: real, j: real) returns (u: real)
    requires 0.0 < raw && 1.0 <= m && 0.0 <= j <= 1.0 && m * (1.0 - j) < 1.0 + j && next == raw * m
    ensures IsDraw(u) && next * (1.0 - j) < raw + raw * j * (u * 2.0 - 1.0)
  {
    Positive(m, 1.0 - j);
    u := CloseDraw(m * (1.0 - j), j);
    LowestBelow(raw, next, m, j, u * 2.0 - 1.0);
  }

  lemma AtMost(p: ReconnectPolicy, n: nat, draw: real, bound: real)
    requires p.Growing() && p.JitterIsFraction() && IsDraw(draw)
    requires p.Raw(n) * (1.0 + p.jitterFraction) <= bound
    ensures p.DelayFor(n, draw) <= bound
  {
    JitterEnvelope(p, n, draw);
  }

  lemma AtLeast(p: ReconnectPolicy, n: nat, draw: real, bound: real)
    requires p.Growing() && p.JitterIsFraction() && IsDraw(draw)
    requires p.Raw(n) * (1.0 - p.jitterFraction) >= bound
    ensures p.DelayFor(n, draw) >= bound
  {
    JitterEnvelope(p, n, draw);
  }

  lemma DelaysOrdered(p: ReconnectPolicy, n: nat, u: real, v: real, mid: real)
    requires p.Growing() && p.JitterIsFraction() && IsDraw(u) && IsDraw(v)
    requires p.Raw(n) * (1.0 + p.jitterFraction) <= mid <= p.Raw(n + 1) * (1.0 - p.jitterFraction)
    ensures p.DelayFor(n, u) <= p.DelayFor(n + 1, v)
  {
    AtMost(p, n, u, mid);
    AtLeast(p, n + 1, v, mid);
  }

  lemma DelaysDisordered(p: ReconnectPolicy, n: nat, u: real)
    requires p.Growing() && p.JitterIsFraction() && IsDraw(u)
    requires p.Raw(n + 1) * (1.0 - p.jitterFraction) < p.Raw(n) + p.Raw(n) * p.jitterFraction * (u * 2.0 - 1.0)
    ensures p.DelayFor(n, u) > p.DelayFor(n + 1, 0.0)
  {
    RawSchedule(p, n, n + 1);
    JitteredBounds(p.Raw(n), p.jitterFraction, u);
    LowestDraw(p.Raw(n + 1), p.jitterFraction);
  }

  /** Below the cap, successive delays never shrink, whatever is drawn, exactly when
      multiplier * (1 - jitter) >= 1 + jitter. */
  lemma NeverShrinksIff(p: ReconnectPolicy, n: nat)
    requires p.Growing() && p.JitterIsFraction() && p.Raw(n + 1) < p.maxDelay
    ensures NeverShrinks(p, n) <==> p.multiplier * (1.0 - p.jitterFraction) >= 1.0 + p.jitterFraction
  {
    var m, j := p.multiplier, p.jitterFraction;
    UncappedStep(p, n);
    if m * (1.0 - j) >= 1.0 + j {
      EnvelopesOrdered(p.Raw(n), p.Raw(n + 1), m, j);
      forall u, v | IsDraw(u) && IsDraw(v) ensures p.DelayFor(n, u) <= p.DelayFor(n + 1, v) {
        DelaysOrdered(p, n, u, v, p.Raw(n) * (1.0 + j));
      }
    } else {
      var u := ShrinkingDraw(p.Raw(n), p.Raw(n + 1), m, j);
      DelaysDisordered(p, n, u);
      assert IsDraw(0.0);
    }
  }

  // ------------------------------------------------------------------
  // A whole run of attempts
  // ------------------------------------------------------------------

  /** Attempts 0, 1, ... each allowed by `should_retry`, with what was drawn for each. */
  ghost predicate Attempts(p: ReconnectPolicy, draws: seq<real>) {
    forall i :: 0 <= i < |draws| ==> IsDraw(draws[i]) && p.ShouldRetry(i)
  }

  function TotalWait(p: ReconnectPolicy, draws: seq<real>): real {
    if draws == [] then 0.0
    else TotalWait(p, draws[..|draws| - 1]) + p.DelayFor(|draws| - 1, draws[|draws| - 1])
  }

  lemma {:induction false} WaitPerAttempt(p: ReconnectPolicy, draws: seq<real>, longest: real)
    requires forall i :: 0 <= i < |draws| ==> p.DelayFor(i, draws[i]) <= longest
    ensures TotalWait(p, draws) <= Times(|draws|, longest)
  {
    if draws != [] { WaitPerAttempt(p, draws[..|draws| - 1], longest); }
  }

  lemma LongestDelay(p: ReconnectPolicy, n: nat, draw: real)
    requires p.Growing() && p.JitterIsFraction() && IsDraw(draw)
    ensures p.DelayFor(n, draw) <= p.maxDelay * (1.0 + p.jitterFraction)
  {
    RawSchedule(p, n, n);
    JitterEnvelope(p, n, draw);
    Scaled(1.0 + p.jitterFraction, p.Raw(n), p.maxDelay);
  }

  lemma WaitWithin(p: ReconnectPolicy, draws: seq<real>, longest: real, n: nat)
    requires forall i :: 0 <= i < |draws| ==> p.DelayFor(i, draws[i]) <= longest
    requires 0.0 <= longest && |draws| <= n
    ensures TotalWait(p, draws) <= n as real * longest
  {
    WaitPerAttempt(p, draws, longest);
    MoreTimes(|draws|, n, longest);
    TimesIs(n, longest);
  }

  lemma LongestWait(p: ReconnectPolicy, draws: seq<real>, longest: real)
    requires p.Growing() && p.JitterIsFraction() && Attempts(p, draws)
    requires longest == p.maxDelay * (1.0 + p.jitterFraction)
    ensures 0.0 <= longest
    ensures forall i :: 0 <= i < |draws| ==> p.DelayFor(i, draws[i]) <= longest
  {
    Positive(p.maxDelay, 1.0 + p.jitterFraction);
    forall i | 0 <= i < |draws| ensures p.DelayFor(i, draws[i]) <= longest { LongestDelay(p, i, draws[i]); }
  }

  /** Which runs of attempts `should_retry` allows: those of at most max_attempts attempts, and all of
      them if max_attempts is 0. */
  lemma AttemptsIff(p: ReconnectPolicy, draws: seq<real>)
    requires forall i :: 0 <= i < |draws| ==> IsDraw(draws[i])
    ensures Attempts(p, draws) <==> draws == [] || p.maxAttempts == 0 || |draws| <= p.maxAttempts
  {
    if draws != [] && Attempts(p, draws) { assert p.ShouldRetry(|draws| - 1); }
  }

  lemma AttemptsBounded(p: ReconnectPolicy, draws: seq<real>)
    requires Attempts(p, draws) && p.maxAttempts != 0
    ensures |draws| <= if p.maxAttempts < 0 then 0 else p.maxAttempts
  {
    if draws != [] { assert p.ShouldRetry(|draws| - 1) && p.ShouldRetry(0); }
  }

  /** A bounded policy bounds the number of attempts and, by max_attempts times the longest
      possible delay, the total wait. */
  lemma TotalWaitBounded(p: ReconnectPolicy, draws: seq<real>, longest: real)
    requires p.Growing() && p.JitterIsFraction() && Attempts(p, draws) && 0 < p.maxAttempts
    requires longest == p.maxDelay * (1.0 + p.jitterFraction)
    ensures |draws| <= p.maxAttempts
    ensures TotalWait(p, draws) <= p.maxAttempts as real * longest
  {
    AttemptsBounded(p, draws);
    LongestWait(p, draws, longest);
    WaitWithin(p, draws, longest, p.maxAttempts);
  }
}
