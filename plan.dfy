/**
  The planner's state and the user actions that change it: which phase is
  shown, which of its days is open, which tab of the open day is shown,
  which auxiliary panels are visible and which days are marked done.
  Each action is one atomic transition.
 */
module Plan {
  import opened Wrappers
  import opened Content
  import Metrics
  import opened Completion

  /** The open day after a click on day `d`: closed if `d` was the open day, else `d`. */
  function DayClick(open: Option<nat>, d: nat): (r: Option<nat>)
    ensures r == None <==> open == Some(d)
    ensures r.Some? ==> r.value == d
  {
    if open == Some(d) then None else Some(d)
  }

  /** Clicking the same day twice from a closed state leaves it closed. */
  lemma DayClickTwice(d: nat)
    ensures DayClick(DayClick(None, d), d) == None
  {
  }

  class TradingPlan {
    /** The curriculum, fixed for the lifetime of the planner. */
    const phases: seq<Phase>

    var activePhase: nat
    var activeDay: Option<nat>
    var activeTab: Tab
    var completedDays: set<nat>
    var showRevenue: bool
    var showBotChart: bool
    var showSecurity: bool

    /**
      The shown phase exists, the open day (if any) is a day of the shown
      phase, and only days of the curriculum are marked done.
     */
    ghost predicate Valid()
      reads this
    {
      && 0 < |phases|
      && activePhase < |phases|
      && (activeDay.Some? ==> activeDay.value in IdSet(phases[activePhase].days))
      && completedDays <= AllDayIds(phases)
    }

    /** The defaults: first phase, no open day, learning tab, nothing done, all panels hidden. */
    constructor (phases: seq<Phase>)
      requires 0 < |phases|
      ensures Valid()
      ensures this.phases == phases
      ensures activePhase == 0 && activeDay == None && activeTab == ForLearning
      ensures completedDays == {}
      ensures !showRevenue && !showBotChart && !showSecurity
    {
      this.phases := phases;
      activePhase := 0;
      activeDay := None;
      activeTab := ForLearning;
      completedDays := {};
      showRevenue := false;
      showBotChart := false;
      showSecurity := false;
    }

    /**
      The open day's record, looked up by identifier in the shown phase.
      In a valid state there is one exactly when a day is open.
     */
    function CurrentDay(): (r: Option<Day>)
      reads this
      requires Valid()
      ensures r.Some? <==> activeDay.Some?
      ensures r.Some? ==> r.value in phases[activePhase].days && r.value.id == activeDay.value
      ensures r.Some? && DistinctIds(phases[activePhase].days) ==>
        forall k :: 0 <= k < |phases[activePhase].days| && phases[activePhase].days[k].id == activeDay.value ==>
          phases[activePhase].days[k] == r.value
    {
      if activeDay.None? then None
      else
        var days := phases[activePhase].days;
        FindDayDistinct(days);
        FindDay(days, activeDay.value)
    }

    /** The completion percentage; in a valid state it is at most 100. */
    function Progress(): (r: Option<nat>)
      reads this
      requires Valid()
      ensures r == Metrics.Progress(|completedDays|, Metrics.TotalDays(phases))
      ensures r.Some? ==> r.value <= 100
    {
      var total := Metrics.TotalDays(phases);
      Metrics.DayIdsBound(phases);
      SubsetSize(completedDays, AllDayIds(phases));
      if total > 0 then
        Metrics.ProgressRange(|completedDays|, total);
        Metrics.Progress(|completedDays|, total)
      else
        Metrics.Progress(|completedDays|, total)
    }

    /** A phase pill: show phase `i` and close the open day. */
    method SelectPhase(i: nat)
      requires Valid()
      requires i < |phases|
      modifies this
      ensures Valid()
      ensures activePhase == i && activeDay == None
      ensures CurrentDay() == None
      ensures activeTab == old(activeTab) && completedDays == old(completedDays)
      ensures showRevenue == old(showRevenue) && showBotChart == old(showBotChart)
      ensures showSecurity == old(showSecurity)
    {
      activePhase := i;
      activeDay := None;
    }

    /** A day button of the shown phase: close it if it is open, else open it. */
    method ClickDay(d: nat)
      requires Valid()
      requires d in IdSet(phases[activePhase].days)
      modifies this
      ensures Valid()
      ensures activeDay == DayClick(old(activeDay), d)
      ensures activePhase == old(activePhase) && activeTab == old(activeTab)
      ensures completedDays == old(completedDays)
      ensures showRevenue == old(showRevenue) && showBotChart == old(showBotChart)
      ensures showSecurity == old(showSecurity)
    {
      var isActive := activeDay == Some(d);
      activeDay := if isActive then None else Some(d);
    }

    /** A tab button of the open day's panel: show tab `t`. */
    method SelectTab(t: Tab)
      requires Valid()
      requires activeDay.Some?
      modifies this
      ensures Valid()
      ensures activeTab == t
      ensures activePhase == old(activePhase) && activeDay == old(activeDay)
      ensures completedDays == old(completedDays)
      ensures showRevenue == old(showRevenue) && showBotChart == old(showBotChart)
      ensures showSecurity == old(showSecurity)
    {
      activeTab := t;
    }

    /** The revenue button: flip the revenue panel and nothing else. */
    method ToggleRevenue()
      requires Valid()
      modifies this
      ensures Valid()
      ensures showRevenue == !old(showRevenue)
      ensures showBotChart == old(showBotChart) && showSecurity == old(showSecurity)
      ensures activePhase == old(activePhase) && activeDay == old(activeDay)
      ensures activeTab == old(activeTab) && completedDays == old(completedDays)
    {
      showRevenue := !showRevenue;
    }

    /** The bot race button: flip the competition panel and nothing else. */
    method ToggleBotChart()
      requires Valid()
      modifies this
      ensures Valid()
      ensures showBotChart == !old(showBotChart)
      ensures showRevenue == old(showRevenue) && showSecurity == old(showSecurity)
      ensures activePhase == old(activePhase) && activeDay == old(activeDay)
      ensures activeTab == old(activeTab) && completedDays == old(completedDays)
    {
      showBotChart := !showBotChart;
    }

    /** The security button: flip the security panel and nothing else. */
    method ToggleSecurity()
      requires Valid()
      modifies this
      ensures Valid()
      ensures showSecurity == !old(showSecurity)
      ensures showRevenue == old(showRevenue) && showBotChart == old(showBotChart)
      ensures activePhase == old(activePhase) && activeDay == old(activeDay)
      ensures activeTab == old(activeTab) && completedDays == old(completedDays)
    {
      showSecurity := !showSecurity;
    }

    /**
      The mark-done button of the open day: copy the set of done days and
      flip the membership of `d` in the copy.
     */
    method ToggleComplete(d: nat)
      requires Valid()
      requires activeDay == Some(d)
      modifies this
      ensures Valid()
      ensures completedDays == Toggle(old(completedDays), d)
      ensures activePhase == old(activePhase) && activeDay == old(activeDay)
      ensures activeTab == old(activeTab)
      ensures showRevenue == old(showRevenue) && showBotChart == old(showBotChart)
      ensures showSecurity == old(showSecurity)
    {
      ghost var k :| 0 <= k < |phases[activePhase].days| && phases[activePhase].days[k].id == d;
      assert d in AllDayIds(phases);
      var next := completedDays;
      if d in next {
        next := next - {d};
      } else {
        next := next + {d};
      }
      completedDays := next;
    }
  }

  /** A subset is never larger than the set that holds it. */
  lemma {:induction false} SubsetSize(a: set<nat>, b: set<nat>)
    requires a <= b
    ensures |a| <= |b|
  {
    if a != {} {
      var x :| x in a;
      SubsetSize(a - {x}, b - {x});
    }
  }
}
