/**
  The dataset the planner ships with, reduced to what its logic reads: four
  phases of 7, 7, 7 and 9 days numbered 1 to 30, and five revenue streams.
  The day titles and content buckets are opaque text and are left empty.
 */
module Shipped {
  import opened Wrappers
  import opened Content
  import opened Metrics
  import opened Plan
  import opened Completion

  /** `n` consecutive days numbered from `first`. */
  function DayRun(first: nat, n: nat): (days: seq<Day>)
    ensures |days| == n
    ensures forall k :: 0 <= k < n ==> days[k].id == first + k
  {
    seq(n, (k: int) requires 0 <= k < n => Day(first + k, "", [], [], []))
  }

  /** A run has distinct identifiers, exactly those from `first` to `first + n - 1`. */
  lemma DayRunIds(first: nat, n: nat)
    ensures DistinctIds(DayRun(first, n))
    ensures forall x :: x in IdSet(DayRun(first, n)) <==> first <= x < first + n
  {
    var days := DayRun(first, n);
    forall x | first <= x < first + n ensures x in IdSet(days) {
      assert days[x - first].id == x;
    }
  }

  /** Consecutive runs laid end to end form one longer run. */
  lemma DayRunConcat(first: nat, n: nat, m: nat)
    ensures DayRun(first, n) + DayRun(first + n, m) == DayRun(first, n + m)
  {
  }

  /** Four phases of 7, 7, 7 and 9 days; day `k` of phase `p` (from 0) is day `7 * p + k + 1`. */
  function Phases(): (ps: seq<Phase>)
    ensures |ps| == 4
    ensures |ps[0].days| == 7 && |ps[1].days| == 7 && |ps[2].days| == 7 && |ps[3].days| == 9
    ensures forall p, k :: 0 <= p < |ps| && 0 <= k < |ps[p].days| ==> ps[p].days[k].id == 7 * p + k + 1
  {
    [
      Phase(1, "WEEK 1", "Foundation + OpenClaw Setup", DayRun(1, 7)),
      Phase(2, "WEEK 2", "AI Strategy Development + Backtesting", DayRun(8, 7)),
      Phase(3, "WEEK 3", "AI Bot Competition + Natural Selection", DayRun(15, 7)),
      Phase(4, "WEEK 4", "Scaling, Monetization + AI Product Launch", DayRun(22, 9))
    ]
  }

  /** Five revenue streams, each projected no lower at a later horizon. */
  function Streams(): (ss: seq<RevenueStream>)
    ensures |ss| == 5
    ensures forall i :: 0 <= i < |ss| ==> ss[i].month1 <= ss[i].month3 <= ss[i].month6
  {
    [
      RevenueStream("Trading Profits", 150, 450, 900),
      RevenueStream("Binance Affiliate", 50, 280, 680),
      RevenueStream("Telegram Premium", 145, 790, 1980),
      RevenueStream("Bot Skill Sales", 95, 380, 760),
      RevenueStream("Dashboard SaaS", 0, 237, 790)
    ]
  }

  lemma AllDaysStep(ps: seq<Phase>, k: nat)
    requires k < |ps|
    ensures AllDays(ps[..k + 1]) == AllDays(ps[..k]) + ps[k].days
    ensures TotalDays(ps[..k + 1]) == TotalDays(ps[..k]) + |ps[k].days|
  {
    assert ps[..k + 1][..k] == ps[..k];
  }

  lemma TotalRevenueStep(s: seq<RevenueStream>, k: nat, h: Horizon)
    requires k < |s|
    ensures TotalRevenue(s[..k + 1], h) == TotalRevenue(s[..k], h) + Sample(s[k], h)
  {
    assert s[..k + 1][..k] == s[..k];
  }

  /** The shipped curriculum is the run of days 1 to 30. */
  lemma ShippedAllDays()
    ensures AllDays(Phases()) == DayRun(1, 30)
  {
    var ps := Phases();
    assert ps[..0] == [];
    AllDaysStep(ps, 0);
    AllDaysStep(ps, 1);
    AllDaysStep(ps, 2);
    AllDaysStep(ps, 3);
    assert ps[..4] == ps;
    DayRunConcat(1, 7, 7);
    DayRunConcat(1, 14, 7);
    DayRunConcat(1, 21, 9);
  }

  /** The shipped curriculum has 30 days. */
  lemma ShippedTotalDays()
    ensures TotalDays(Phases()) == 30
  {
    ShippedAllDays();
  }

  /** Every shipped day identifier is distinct, and they are exactly 1 to 30. */
  lemma ShippedDayIds()
    ensures DistinctIds(AllDays(Phases()))
    ensures forall x :: x in AllDayIds(Phases()) <==> 1 <= x <= 30
  {
    ShippedAllDays();
    DayRunIds(1, 30);
  }

  /** The revenue totals of the shipped streams at each horizon. */
  lemma ShippedRevenue()
    ensures TotalRevenue(Streams(), Month1) == 440
    ensures TotalRevenue(Streams(), Month3) == 2137
    ensures TotalRevenue(Streams(), Month6) == 5110
  {
    var s := Streams();
    assert s[..0] == [];
    assert s[..5] == s;
    forall h | true
      ensures TotalRevenue(s, h) ==
        Sample(s[0], h) + Sample(s[1], h) + Sample(s[2], h) + Sample(s[3], h) + Sample(s[4], h)
    {
      TotalRevenueStep(s, 0, h);
      TotalRevenueStep(s, 1, h);
      TotalRevenueStep(s, 2, h);
      TotalRevenueStep(s, 3, h);
      TotalRevenueStep(s, 4, h);
    }
  }

  /**
    Open day 5 in the first phase, then switch to the second phase: the day
    of the first phase is no longer shown.
   */
  method CrossPhaseScenario() returns (shown: Option<Day>)
    ensures shown == None
  {
    var plan := new TradingPlan(Phases());
    plan.SelectPhase(0);
    assert plan.phases[0].days[4].id == 5;
    plan.ClickDay(5);
    assert plan.CurrentDay().Some?;
    plan.SelectPhase(1);
    shown := plan.CurrentDay();
  }

  /** Marking days 1, 2 and 3 from nothing done gives three done days. */
  lemma FirstThreeDone()
    ensures Toggle(Toggle(Toggle({}, 1), 2), 3) == {1, 2, 3}
  {
  }

  /** Three done days out of the shipped thirty read as 10 percent. */
  lemma ThreeOfThirty()
    ensures Metrics.Progress(|{1, 2, 3}|, TotalDays(Phases())) == Some(10)
  {
    ShippedTotalDays();
  }

  /** Open and mark days 1, 2 and 3 of the shipped curriculum: 3 of 30 days is 10 percent. */
  method ProgressScenario() returns (percent: Option<nat>)
    ensures percent == Some(10)
  {
    var plan := new TradingPlan(Phases());
    DayRunIds(1, 7);
    assert plan.phases[0].days == DayRun(1, 7);
    plan.ClickDay(1);
    plan.ToggleComplete(1);
    plan.ClickDay(2);
    plan.ToggleComplete(2);
    plan.ClickDay(3);
    plan.ToggleComplete(3);
    FirstThreeDone();
    ThreeOfThirty();
    percent := plan.Progress();
  }
}
