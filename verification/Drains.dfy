/** `drain` without concurrent access to the queue: what one call delivers, and what
    a sequence of calls delivers whatever the batch sizes. */
module Drains {
  import opened SendQueueModel

  function Min(a: nat, b: nat): nat { if a < b then a else b }

  /** The number of sends that complete before the first failure among the first n. */
  function SucceedingPrefix(ok: nat -> bool, n: nat): (k: nat)
    ensures k <= n && (forall j: nat :: j < k ==> ok(j)) && (k < n ==> !ok(k))
  {
    if n == 0 then 0
    else
      var k := SucceedingPrefix(ok, n - 1);
      if k == n - 1 && ok(k) then n else k
  }

  /** `t` is `s` after k completed sends: the head of the queue moved to the end of the deliveries. */
  ghost predicate Sent<T>(s: State<T>, t: State<T>, k: nat) {
    && |t.q.items| + k == |s.q.items|
    && t.h.delivered + t.q.items == s.h.delivered + s.q.items
    && Popped(t) + t.q.items == Popped(s) + s.q.items
    && t.q == s.q.(items := t.q.items, stats := s.q.stats.(sent := s.q.stats.sent + k))
    && t.h == s.h.(removed := t.h.removed, delivered := t.h.delivered)
  }

  /** `u` is `t` after a send that failed: its message is gone. */
  ghost predicate Lost<T>(t: State<T>, u: State<T>) {
    && t.q.items != []
    && Popped(u) == Popped(t) + [t.q.items[0]]
    && u.q == t.q.(items := t.q.items[1..], stats := t.q.stats.(errors := t.q.stats.errors + 1))
    && u.h == t.h.(removed := u.h.removed, failed := t.h.failed + [t.q.items[0]])
  }

  lemma SendOne<T>(s: State<T>)
    requires s.q.items != []
    ensures Sent(s, Apply(Apply(s, Pop), Finish(s.q.items[0], Delivered)), 1)
    ensures Lost(s, Apply(Apply(s, Pop), Finish(s.q.items[0], Failed)))
  {
    Reassociate(s.h.delivered, s.q.items);
    Reassociate(Popped(s), s.q.items);
    ReadLog(s.h.removed, Removed(s.q.items[0], false));
    assert s.q.sending + multiset{s.q.items[0]} - multiset{s.q.items[0]} == s.q.sending;
  }

  lemma SentTwice<T>(s: State<T>, t: State<T>, u: State<T>, a: nat, b: nat)
    requires Sent(s, t, a) && Sent(t, u, b)
    ensures Sent(s, u, a + b)
  {}

  /** A whole call of `drain` whose k-th send completes if `ok(k)` and raises otherwise. */
  ghost predicate DrainCall<T(!new)>(s: State<T>, u: State<T>, batch: nat, ok: nat -> bool) {
    var n := Min(batch, |s.q.items|);
    var k := SucceedingPrefix(ok, n);
    if k == n then Sent(s, u, k) else exists t :: Sent(s, t, k) && Lost(t, u)
  }

  lemma StopsEmpty<T(!new)>(s: State<T>, u: State<T>, batch: nat, ok: nat -> bool, k: nat)
    requires Sent(s, u, k) && k <= batch && (k == batch || u.q.items == [])
    requires forall j: nat :: j < k ==> ok(j)
    ensures DrainCall(s, u, batch, ok) && k == SucceedingPrefix(ok, Min(batch, |s.q.items|))
  {}

  lemma StopsLost<T(!new)>(s: State<T>, t: State<T>, u: State<T>, batch: nat, ok: nat -> bool, k: nat)
    requires Sent(s, t, k) && Lost(t, u) && k < batch && !ok(k)
    requires forall j: nat :: j < k ==> ok(j)
    ensures DrainCall(s, u, batch, ok) && k == SucceedingPrefix(ok, Min(batch, |s.q.items|))
  {}

  lemma Shift<T>(a: seq<T>, b: seq<T>, c: seq<T>, d: seq<T>)
    requires a + b == c + d && |b| <= |d|
    ensures b == d[|d| - |b|..] && a == c + d[..|d| - |b|]
  {
    assert a == (c + d)[..|a|] && b == (c + d)[|a|..];
  }

  lemma SentSlices<T>(s: State<T>, t: State<T>, k: nat)
    requires Sent(s, t, k)
    ensures t.q.items == s.q.items[k..]
    ensures t.h.delivered == s.h.delivered + s.q.items[..k] && Popped(t) == Popped(s) + s.q.items[..k]
  {
    Shift(t.h.delivered, t.q.items, s.h.delivered, s.q.items);
    Shift(Popped(t), t.q.items, Popped(s), s.q.items);
  }

  /** One call delivers the longest succeeding prefix of the first min(batch, depth) messages,
      and removes it together with at most one message whose send failed. */
  lemma DrainDeliversPrefix<T(!new)>(s: State<T>, u: State<T>, batch: nat, ok: nat -> bool, k: nat)
    requires DrainCall(s, u, batch, ok)
    requires k <= Min(batch, |s.q.items|) && (forall j: nat :: j < k ==> ok(j))
    requires k < Min(batch, |s.q.items|) ==> !ok(k)
    ensures var gone := if k < Min(batch, |s.q.items|) then k + 1 else k;
      && u.q.items == s.q.items[gone..]
      && Popped(u) == Popped(s) + s.q.items[..gone]
      && u.h.delivered == s.h.delivered + s.q.items[..k]
      && u.h.failed == s.h.failed + s.q.items[k..gone]
      && u.q.stats == s.q.stats.(sent := s.q.stats.sent + k, errors := s.q.stats.errors + gone - k)
      && u.q == s.q.(items := u.q.items, stats := u.q.stats)
      && u.h == s.h.(removed := u.h.removed, delivered := u.h.delivered, failed := u.h.failed)
  {
    var n := Min(batch, |s.q.items|);
    assert SucceedingPrefix(ok, n) == k;
    if k == n {
      SentSlices(s, u, k);
    } else {
      var t :| Sent(s, t, k) && Lost(t, u);
      SentSlices(s, t, k);
      assert s.q.items[..k] + [s.q.items[k]] == s.q.items[..k + 1];
    }
  }

  predicate Always(i: nat) { true }

  /** Consecutive calls of `drain`, one per batch size, whose sends all complete. */
  ghost predicate Drains<T(!new)>(states: seq<State<T>>, batches: seq<nat>) {
    && |states| == |batches| + 1
    && forall i :: 0 <= i < |batches| ==> DrainCall(states[i], states[i + 1], batches[i], Always)
  }

  function Sum(batches: seq<nat>): nat {
    if batches == [] then 0 else Sum(batches[..|batches| - 1]) + batches[|batches| - 1]
  }

  lemma DrainAlways<T(!new)>(s: State<T>, u: State<T>, batch: nat)
    requires DrainCall(s, u, batch, Always)
    ensures Sent(s, u, Min(batch, |s.q.items|))
  {
    assert forall i: nat :: Always(i);
  }

  lemma BatchStep<T(!new)>(s: State<T>, t: State<T>, u: State<T>, sum: nat, batch: nat)
    requires Sent(s, t, Min(sum, |s.q.items|)) && DrainCall(t, u, batch, Always)
    ensures Sent(s, u, Min(sum + batch, |s.q.items|))
  {
    DrainAlways(t, u, batch);
    SentTwice(s, t, u, Min(sum, |s.q.items|), Min(batch, |t.q.items|));
  }

  /** With sends that never fail only the sum of the batch sizes matters. */
  lemma {:induction false} BatchSizesDoNotMatter<T(!new)>(states: seq<State<T>>, batches: seq<nat>)
    requires Drains(states, batches)
    ensures Sent(states[0], states[|batches|], Min(Sum(batches), |states[0].q.items|))
  {
    var n := |batches|;
    if n != 0 {
      BatchSizesDoNotMatter(states[..n], batches[..n - 1]);
      BatchStep(states[0], states[n - 1], states[n], Sum(batches[..n - 1]), batches[n - 1]);
    }
  }

  /** Enough drains deliver exactly the queue, in order. */
  lemma DrainsDeliverQueue<T(!new)>(states: seq<State<T>>, batches: seq<nat>)
    requires Drains(states, batches) && Sum(batches) >= |states[0].q.items|
    ensures var s, t := states[0], states[|batches|];
      && t.q.items == [] && t.h.delivered == s.h.delivered + s.q.items
      && t.h.failed == s.h.failed && t.q.stats.sent == s.q.stats.sent + |s.q.items|
  {
    BatchSizesDoNotMatter(states, batches);
  }
}
