/** Drop rates per connection and over all connections. */
module DropRates {
  import opened SendQueueModel
  import opened MapSums

  function Traffic(s: SendStats): nat { s.queued + s.dropped }

  /** `SendStats.drop_rate`. */
  function DropRate(s: SendStats): real {
    if Traffic(s) == 0 then 0.0 else s.dropped as real / Traffic(s) as real
  }

  function Queued(s: SendStats): nat { s.queued }
  function Dropped(s: SendStats): nat { s.dropped }
  function SentOf(s: SendStats): nat { s.sent }

  function Column(stats: map<string, SendStats>, field: SendStats -> nat): map<string, nat> {
    map id | id in stats :: field(stats[id])
  }

  /** The rate `global_stats` reports, from its two totals. */
  function OverallRate(queued: nat, dropped: nat): real {
    dropped as real / Max(1, queued + dropped) as real
  }

  lemma ColumnUpdate(stats: map<string, SendStats>, id: string, x: SendStats, field: SendStats -> nat)
    ensures Sum(Column(stats[id := x], field))
            == Sum(Column(stats, field)) + field(x) - if id in stats then field(stats[id]) else 0
  {
    SumUpdate(Column(stats, field), id, field(x));
    assert Column(stats[id := x], field) == Column(stats, field)[id := field(x)];
  }

  /** No connection, no totals; and a connection that comes or whose counters move changes the totals by
      just that. */
  lemma TotalsFollow(stats: map<string, SendStats>, id: string, x: SendStats)
    ensures Sum(Column(map[], Queued)) == Sum(Column(map[], Dropped)) == Sum(Column(map[], SentOf)) == 0
    ensures var was, now := if id in stats then stats[id] else SendStats(0, 0, 0, 0, 0), stats[id := x];
      && Sum(Column(now, Queued)) - Sum(Column(stats, Queued)) == x.queued - was.queued
      && Sum(Column(now, Dropped)) - Sum(Column(stats, Dropped)) == x.dropped - was.dropped
      && Sum(Column(now, SentOf)) - Sum(Column(stats, SentOf)) == x.sent - was.sent
  {
    ColumnUpdate(stats, id, x, Queued);
    ColumnUpdate(stats, id, x, Dropped);
    ColumnUpdate(stats, id, x, SentOf);
  }

  lemma Share(dropped: nat, total: nat, rate: real)
    requires dropped <= total && rate == if total == 0 then 0.0 else dropped as real / total as real
    ensures rate * total as real == dropped as real
  {
    if total > 0 {
      var d, t := dropped as real, total as real;
      assert t > 0.0 && d / t * t == d;
    }
  }

  /** A rate is the share of the dropped messages, per connection and over all of them. */
  lemma RatesAreShares(s: SendStats, queued: nat, dropped: nat)
    ensures DropRate(s) * (s.queued + s.dropped) as real == s.dropped as real
    ensures OverallRate(queued, dropped) * (queued + dropped) as real == dropped as real
    ensures s.queued + s.dropped == 0 ==> DropRate(s) == 0.0
    ensures queued + dropped == 0 ==> OverallRate(queued, dropped) == 0.0
  {
    Share(s.dropped, s.queued + s.dropped, DropRate(s));
    Share(dropped, queued + dropped, OverallRate(queued, dropped));
  }

  /** If u is at least v in sum, it is so at some key of positive weight, provided it vanishes elsewhere. */
  lemma {:induction false} SomeReaches(u: map<string, nat>, v: map<string, nat>, weight: map<string, nat>)
    returns (id: string)
    requires u.Keys == v.Keys == weight.Keys
    requires forall k :: k in weight && weight[k] == 0 ==> u[k] == 0
    requires Sum(u) >= Sum(v) && Sum(weight) > 0
    ensures id in weight && weight[id] > 0 && u[id] >= v[id]
    decreases |weight|
  {
    var k :| k in weight.Keys;
    SumPick(u, k);
    SumPick(v, k);
    SumPick(weight, k);
    if weight[k] > 0 && u[k] >= v[k] {
      id := k;
    } else {
      if Sum(weight - {k}) == 0 { SumVanishes(u - {k}, weight - {k}); }
      id := SomeReaches(u - {k}, v - {k}, weight - {k});
    }
  }

  lemma SumVanishes(u: map<string, nat>, weight: map<string, nat>)
    requires u.Keys == weight.Keys && Sum(weight) == 0
    requires forall k :: k in weight && weight[k] == 0 ==> u[k] == 0
    ensures Sum(u) == 0
  {
    forall k | k in u ensures u[k] == 0 { SumPick(weight, k); }
    SumZero(u);
  }

  lemma CrossMultiply(a: nat, b: nat, c: nat, d: nat)
    requires b > 0 && d > 0 && a * d >= b * c
    ensures a as real / b as real >= c as real / d as real
  {
    var x, y, bd := a as real / b as real, c as real / d as real, (b * d) as real;
    assert bd == b as real * d as real;
    assert x * bd == a as real * d as real == (a * d) as real;
    assert y * bd == c as real * b as real == (b * c) as real;
    if x < y { assert x * bd < y * bd; }
  }

  /** The mediant inequality on both sides, without division. */
  lemma Mediant(part: map<string, nat>, whole: map<string, nat>, p: nat, w: nat) returns (lo: string, hi: string)
    requires part.Keys == whole.Keys && forall k :: k in part ==> part[k] <= whole[k]
    requires p == Sum(part) && w == Sum(whole) > 0
    ensures lo in whole && whole[lo] > 0 && p * whole[lo] >= w * part[lo]
    ensures hi in whole && whole[hi] > 0 && part[hi] * w >= whole[hi] * p
  {
    SumScale(part, w);
    SumScale(whole, p);
    hi := SomeReaches(Scale(part, w), Scale(whole, p), whole);
    lo := SomeReaches(Scale(whole, p), Scale(part, w), whole);
  }

  lemma RateOfSums(stats: map<string, SendStats>, queued: nat, dropped: nat) returns (lo: string, hi: string)
    requires queued == Sum(Column(stats, Queued)) && dropped == Sum(Column(stats, Dropped))
    requires queued + dropped > 0
    ensures lo in stats && Traffic(stats[lo]) > 0 && DropRate(stats[lo]) <= OverallRate(queued, dropped)
    ensures hi in stats && Traffic(stats[hi]) > 0 && OverallRate(queued, dropped) <= DropRate(stats[hi])
  {
    var drops, traffic := Column(stats, Dropped), Column(stats, Traffic);
    SumAdd(Column(stats, Queued), drops, traffic);
    lo, hi := Mediant(drops, traffic, dropped, queued + dropped);
    CrossMultiply(dropped, queued + dropped, stats[lo].dropped, Traffic(stats[lo]));
    CrossMultiply(stats[hi].dropped, Traffic(stats[hi]), dropped, queued + dropped);
  }

  /** The overall rate is between the smallest and the largest rate of the connections that
      have traffic, and 0 when none has. */
  lemma OverallRateIsMediant(stats: map<string, SendStats>)
    ensures var rate := OverallRate(Sum(Column(stats, Queued)), Sum(Column(stats, Dropped)));
      if exists id :: id in stats && Traffic(stats[id]) > 0 then
        && (exists lo :: lo in stats && Traffic(stats[lo]) > 0 && DropRate(stats[lo]) <= rate)
        && (exists hi :: hi in stats && Traffic(stats[hi]) > 0 && rate <= DropRate(stats[hi]))
      else rate == 0.0
  {
    var queued, dropped := Sum(Column(stats, Queued)), Sum(Column(stats, Dropped));
    if id :| id in stats && Traffic(stats[id]) > 0 {
      SumPick(Column(stats, Queued), id);
      SumPick(Column(stats, Dropped), id);
      var lo, hi := RateOfSums(stats, queued, dropped);
    } else {
      assert forall id :: id in stats ==> Traffic(stats[id]) == 0;
      SumZero(Column(stats, Dropped));
    }
  }
}
