/**
  The immutable curriculum the planner reads: phases of days, revenue
  streams, the three content tabs of a day and the three revenue horizons.
  The text of a day is opaque to the planner; only identifiers, list
  lengths and the numeric revenue samples take part in its logic.
 */
module Content {
  import opened Wrappers

  /** One curriculum day: its identifier and its three content buckets. */
  datatype Day = Day(
    id: nat,
    title: string,
    learning: seq<string>,
    executing: seq<string>,
    examples: seq<string>)

  /** One phase (a "week") and its ordered list of days. */
  datatype Phase = Phase(id: nat, week: string, title: string, days: seq<Day>)

  /** A revenue projection with one sample per horizon (the display colour is left out). */
  datatype RevenueStream = RevenueStream(name: string, month1: nat, month3: nat, month6: nat)

  /** The content tabs of an open day. */
  datatype Tab = ForLearning | ForExecuting | RealExamples

  /** The revenue horizons. */
  datatype Horizon = Month1 | Month3 | Month6

  /**
    The key of a tab as the program spells it: the name of the day's
    property that holds the tab's bucket (here the fields `learning`,
    `executing` and `examples`).
   */
  function TabKey(t: Tab): string
  {
    match t
    case ForLearning => "for_learning"
    case ForExecuting => "for_executing"
    case RealExamples => "real_examples"
  }

  /** Reads a tab key back; any string other than the three keys is not a tab. */
  function ParseTab(key: string): (r: Option<Tab>)
    ensures r.Some? ==> TabKey(r.value) == key
  {
    if key == "for_learning" then Some(ForLearning)
    else if key == "for_executing" then Some(ForExecuting)
    else if key == "real_examples" then Some(RealExamples)
    else None
  }

  /** Every tab key reads back as its own tab, so the three keys are distinct. */
  lemma ParseTabKey(t: Tab)
    ensures ParseTab(TabKey(t)) == Some(t)
  {
  }

  /** The property name under which a stream keeps the sample of a horizon. */
  function HorizonKey(h: Horizon): string
  {
    match h
    case Month1 => "month1"
    case Month3 => "month3"
    case Month6 => "month6"
  }

  /** Reads a horizon key back; any string other than the three keys is not a horizon. */
  function ParseHorizon(key: string): (r: Option<Horizon>)
    ensures r.Some? ==> HorizonKey(r.value) == key
  {
    if key == "month1" then Some(Month1)
    else if key == "month3" then Some(Month3)
    else if key == "month6" then Some(Month6)
    else None
  }

  /** Every horizon key reads back as its own horizon. */
  lemma ParseHorizonKey(h: Horizon)
    ensures ParseHorizon(HorizonKey(h)) == Some(h)
  {
  }

  /** The sample of a stream at a horizon: the field named by the horizon's key (`stream[month]`). */
  function Sample(s: RevenueStream, h: Horizon): (v: nat)
    ensures HorizonKey(h) == "month1" ==> v == s.month1
    ensures HorizonKey(h) == "month3" ==> v == s.month3
    ensures HorizonKey(h) == "month6" ==> v == s.month6
  {
    match h
    case Month1 => s.month1
    case Month3 => s.month3
    case Month6 => s.month6
  }

  /** No two days of the list share an identifier. */
  ghost predicate DistinctIds(days: seq<Day>)
  {
    forall i, j :: 0 <= i < j < |days| ==> days[i].id != days[j].id
  }

  /**
    `days.find(d => d.day === id)`: the first day of the list whose
    identifier is `id`, or nothing when no day has it.
   */
  function FindDay(days: seq<Day>, id: nat): (r: Option<Day>)
    ensures r.Some? <==> exists k :: 0 <= k < |days| && days[k].id == id
    ensures r.Some? ==>
      exists k :: 0 <= k < |days| && days[k] == r.value && days[k].id == id &&
        forall j :: 0 <= j < k ==> days[j].id != id
  {
    if |days| == 0 then None
    else if days[0].id == id then Some(days[0])
    else
      var r := FindDay(days[1..], id);
      assert forall k :: 0 < k < |days| ==> days[k] == days[1..][k - 1];
      r
  }

  /** With distinct identifiers the lookup of any day's identifier finds exactly that day. */
  lemma FindDayDistinct(days: seq<Day>)
    ensures DistinctIds(days) ==>
      forall k :: 0 <= k < |days| ==> FindDay(days, days[k].id) == Some(days[k])
  {
  }

  /** The set of identifiers of a list of days. */
  function IdSet(days: seq<Day>): (ids: set<nat>)
    ensures forall x :: x in ids <==> exists k :: 0 <= k < |days| && days[k].id == x
    ensures |ids| <= |days|
  {
    if |days| == 0 then {}
    else
      var rest := IdSet(days[1..]);
      assert forall k :: 0 < k < |days| ==> days[k] == days[1..][k - 1];
      {days[0].id} + rest
  }

  /** With distinct identifiers a list of days has exactly as many identifiers as days. */
  lemma {:induction false} IdSetDistinct(days: seq<Day>)
    requires DistinctIds(days)
    ensures |IdSet(days)| == |days|
  {
    if |days| > 0 {
      var tail := days[1..];
      assert DistinctIds(tail) by {
        forall i, j | 0 <= i < j < |tail| ensures tail[i].id != tail[j].id {
          assert tail[i] == days[i + 1] && tail[j] == days[j + 1];
        }
      }
      IdSetDistinct(tail);
      assert days[0].id !in IdSet(tail);
    }
  }

  /** All days of all phases, phase after phase in declaration order. */
  function AllDays(phases: seq<Phase>): (all: seq<Day>)
    ensures forall d :: d in all <==> exists p :: 0 <= p < |phases| && d in phases[p].days
  {
    if |phases| == 0 then []
    else
      var front := phases[..|phases| - 1];
      var rest := AllDays(front);
      assert forall p :: 0 <= p < |phases| - 1 ==> phases[p] == front[p];
      rest + phases[|phases| - 1].days
  }

  /** The identifiers of every day in the content store. */
  function AllDayIds(phases: seq<Phase>): (ids: set<nat>)
    ensures forall x :: x in ids <==>
      exists p, k :: 0 <= p < |phases| && 0 <= k < |phases[p].days| && phases[p].days[k].id == x
  {
    AllDaysIdentifiers(phases);
    IdSet(AllDays(phases))
  }

  lemma AllDaysIdentifiers(phases: seq<Phase>)
    ensures forall x :: x in IdSet(AllDays(phases)) <==>
      exists p, k :: 0 <= p < |phases| && 0 <= k < |phases[p].days| && phases[p].days[k].id == x
  {
    var all := AllDays(phases);
    forall x | x in IdSet(all)
      ensures exists p, k :: 0 <= p < |phases| && 0 <= k < |phases[p].days| && phases[p].days[k].id == x
    {
      var i :| 0 <= i < |all| && all[i].id == x;
      assert all[i] in all;
      var p :| 0 <= p < |phases| && all[i] in phases[p].days;
      var k :| 0 <= k < |phases[p].days| && phases[p].days[k] == all[i];
    }
    forall p, k | 0 <= p < |phases| && 0 <= k < |phases[p].days|
      ensures phases[p].days[k].id in IdSet(all)
    {
      assert phases[p].days[k] in phases[p].days;
      assert phases[p].days[k] in all;
    }
  }
}
