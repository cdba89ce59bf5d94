/**
  The values the planner recomputes on every read: the number of days in
  the curriculum, the completion percentage and the revenue total of a
  horizon.
 */
module Metrics {
  import opened Wrappers
  import opened Content

  /**
    `phases.reduce((sum, p) => sum + p.days.length, 0)`: a left fold, so the
    total of a list is the total of all but its last phase plus the length
    of the last phase's day list.
   */
  function TotalDays(phases: seq<Phase>): (total: nat)
    ensures total == |AllDays(phases)|
  {
    if |phases| == 0 then 0
    else TotalDays(phases[..|phases| - 1]) + |phases[|phases| - 1].days|
  }

  /** Never more distinct day identifiers than days, and exactly as many when all are distinct. */
  lemma DayIdsBound(phases: seq<Phase>)
    ensures |AllDayIds(phases)| <= TotalDays(phases)
    ensures DistinctIds(AllDays(phases)) ==> |AllDayIds(phases)| == TotalDays(phases)
  {
    if DistinctIds(AllDays(phases)) {
      IdSetDistinct(AllDays(phases));
    }
  }

  /** `streams.reduce((sum, stream) => sum + stream[month], 0)`, a left fold over the streams. */
  function TotalRevenue(streams: seq<RevenueStream>, h: Horizon): (total: nat)
    ensures forall k :: 0 <= k < |streams| ==> Sample(streams[k], h) <= total
  {
    if |streams| == 0 then 0
    else TotalRevenue(streams[..|streams| - 1], h) + Sample(streams[|streams| - 1], h)
  }

  /** The total of two lists of streams laid end to end is the sum of their totals. */
  lemma {:induction false} TotalRevenueConcat(a: seq<RevenueStream>, b: seq<RevenueStream>, h: Horizon)
    ensures TotalRevenue(a + b, h) == TotalRevenue(a, h) + TotalRevenue(b, h)
  {
    if |b| > 0 {
      var front := b[..|b| - 1];
      assert (a + b)[..|a + b| - 1] == a + front;
      TotalRevenueConcat(a, front, h);
    } else {
      assert a + b == a;
    }
  }

  /** The sum of the samples at a horizon, taken head first: a reference for the left fold. */
  function SumSamples(streams: seq<RevenueStream>, h: Horizon): nat
  {
    if |streams| == 0 then 0
    else Sample(streams[0], h) + SumSamples(streams[1..], h)
  }

  /** The left fold adds up every stream's sample exactly once: it equals the head-first sum. */
  lemma {:induction false} TotalRevenueSum(streams: seq<RevenueStream>, h: Horizon)
    ensures TotalRevenue(streams, h) == SumSamples(streams, h)
  {
    if |streams| > 0 {
      TotalRevenueSum(streams[1..], h);
      TotalRevenueConcat([streams[0]], streams[1..], h);
      assert [streams[0]] + streams[1..] == streams;
      assert [streams[0]][..0] == [];
    }
  }

  /** Adding a stream adds exactly its sample, so the total never decreases. */
  lemma TotalRevenueAppend(streams: seq<RevenueStream>, s: RevenueStream, h: Horizon)
    ensures TotalRevenue(streams + [s], h) == TotalRevenue(streams, h) + Sample(s, h)
    ensures TotalRevenue(streams + [s], h) >= TotalRevenue(streams, h)
  {
  }

  /** Euclidean division brackets its dividend; it gives the rounding bounds of `Progress`. */
  lemma DivBounds(x: nat, m: nat)
    requires m > 0
    ensures m * (x / m) <= x < m * (x / m + 1)
  {
  }

  /**
    `Math.round(done / total * 100)` on exact rationals: the nearest whole
    percentage, halves rounded up. With no days at all JavaScript yields
    NaN (or Infinity), which is modelled as no percentage.
   */
  function Progress(done: nat, total: nat): (r: Option<nat>)
    ensures r.Some? <==> total > 0
    ensures r.Some? ==> 2 * total * r.value <= 200 * done + total < 2 * total * (r.value + 1)
  {
    if total == 0 then None
    else
      DivBounds(200 * done + total, 2 * total);
      Some((200 * done + total) / (2 * total))
  }

  /** No completions read as 0 percent, all days completed as 100, and never more than 100. */
  lemma ProgressRange(done: nat, total: nat)
    requires 0 < total
    requires done <= total
    ensures Progress(done, total).value <= 100
    ensures done == 0 ==> Progress(done, total) == Some(0)
    ensures done == total ==> Progress(done, total) == Some(100)
  {
    var r := Progress(done, total).value;
    if r > 100 {
      assert 2 * total * r >= 2 * total * 101 by {
        MulMono(2 * total, 101, r);
      }
      assert false;
    }
    if done == 0 && r > 0 {
      assert 2 * total * r >= 2 * total * 1 by {
        MulMono(2 * total, 1, r);
      }
      assert false;
    }
    if done == total && r < 100 {
      assert 2 * total * (r + 1) <= 2 * total * 100 by {
        MulMono(2 * total, r + 1, 100);
      }
      assert false;
    }
  }

  /** Multiplying by a natural keeps order; it compares the products in `ProgressRange`. */
  lemma MulMono(c: nat, a: nat, b: nat)
    requires a <= b
    ensures c * a <= c * b
  {
  }
}
