/**
 * The scenario analyzer of the dashboard page (src/app/page.tsx): the rows
 * handed to the chart, the goal month of each scenario, and the immutable
 * update made by an expense slider.
 */
module Frontend {
  import opened Wrappers
  import Backend

  // ---------------------------------------------------------------------------
  // chartData

  /**
   * One row of `chartData`. `None` is JavaScript's `undefined`, which is what
   * indexing past the end of a shorter optimistic or conservative array yields.
   */
  datatype ChartPoint = ChartPoint(month: nat, base: real, optimistic: Option<real>, conservative: Option<real>)

  /** `a[i]` in JavaScript. */
  function At(a: seq<real>, i: int): (r: Option<real>)
    ensures r.None? <==> i < 0 || i >= |a|
    ensures r.Some? ==> r.value == a[i]
  {
    if 0 <= i < |a| then Some(a[i]) else None
  }

  /** `base.map((_, idx) => ({month: idx + 1, base, optimistic, conservative}))`, or `[]` without a forecast. */
  function ChartData(forecast: Option<Backend.ForecastResponse>): (rows: seq<ChartPoint>)
    ensures forecast.None? ==> rows == []
    ensures forecast.Some? ==> |rows| == |forecast.value.scenarios.base|
    ensures forall i :: 0 <= i < |rows| ==> rows[i].month == i + 1
  {
    match forecast
    case None => []
    case Some(f) =>
      var s := f.scenarios;
      seq(|s.base|, idx requires 0 <= idx < |s.base| =>
        ChartPoint(idx + 1, s.base[idx], At(s.optimistic, idx), At(s.conservative, idx)))
  }

  /** The three columns the chart's lines read back out of the rows, when every cell is defined. */
  function Unzip(rows: seq<ChartPoint>): (r: Option<Backend.Scenarios>)
    ensures r.Some? ==> |r.value.base| == |r.value.optimistic| == |r.value.conservative| == |rows|
  {
    if forall i :: 0 <= i < |rows| ==> rows[i].optimistic.Some? && rows[i].conservative.Some? then
      Some(Backend.Scenarios(
        seq(|rows|, i requires 0 <= i < |rows| => rows[i].base),
        seq(|rows|, i requires 0 <= i < |rows| => rows[i].optimistic.value),
        seq(|rows|, i requires 0 <= i < |rows| => rows[i].conservative.value)))
    else
      None
  }

  /** For equal-length series, row `i` is month `i + 1` holding the three values at index `i`. */
  lemma ChartDataAligned(f: Backend.ForecastResponse)
    requires |f.scenarios.base| == |f.scenarios.optimistic| == |f.scenarios.conservative|
    ensures var rows, s := ChartData(Some(f)), f.scenarios;
      && |rows| == |s.base|
      && forall i :: 0 <= i < |rows| ==>
           rows[i] == ChartPoint(i + 1, s.base[i], Some(s.optimistic[i]), Some(s.conservative[i]))
  {
  }

  /**
   * The rows hold exactly the three series if and only if the series have the
   * same length: a longer optimistic or conservative series is cut to the length
   * of the base series, a shorter one leaves undefined cells.
   */
  lemma ChartRoundTrip(f: Backend.ForecastResponse)
    ensures var s := f.scenarios;
      Unzip(ChartData(Some(f))) == Some(s) <==> |s.base| == |s.optimistic| == |s.conservative|
  {
    var s, rows := f.scenarios, ChartData(Some(f));
    if |s.base| == |s.optimistic| == |s.conservative| {
      var u := Unzip(rows);
      assert u.Some?;
      assert u.value.base == s.base;
      assert u.value.optimistic == s.optimistic;
      assert u.value.conservative == s.conservative;
    } else if |s.optimistic| < |s.base| {
      assert rows[|s.optimistic|].optimistic == None;
    } else if |s.conservative| < |s.base| {
      assert rows[|s.conservative|].conservative == None;
    }
  }

  /**
   * For series of any lengths, row `i` of the chart holds the base value at `i`
   * and the optimistic and conservative values at `i` where those series reach
   * that far; past the end of a shorter series the cell is undefined.
   */
  lemma ChartDataShortSeries(f: Backend.ForecastResponse, i: nat)
    requires i < |f.scenarios.base|
    ensures var row, s := ChartData(Some(f))[i], f.scenarios;
      && row.month == i + 1
      && row.base == s.base[i]
      && (i < |s.optimistic| ==> row.optimistic == Some(s.optimistic[i]))
      && (i < |s.conservative| ==> row.conservative == Some(s.conservative[i]))
      && (row.optimistic.None? <==> i >= |s.optimistic|)
      && (row.conservative.None? <==> i >= |s.conservative|)
  {
  }

  // ---------------------------------------------------------------------------
  // Goal months

  /** `Array.prototype.findIndex`: the first index whose element satisfies `p`, or -1. */
  function FindIndex<T>(a: seq<T>, p: T -> bool): (r: int)
    ensures -1 <= r < |a|
    ensures 0 <= r ==> p(a[r]) && forall j :: 0 <= j < r ==> !p(a[j])
    ensures r == -1 ==> forall j :: 0 <= j < |a| ==> !p(a[j])
    decreases |a|
  {
    if a == [] then -1
    else if p(a[0]) then 0
    else
      var k := FindIndex(a[1..], p);
      if k == -1 then -1 else k + 1
  }

  /**
   * `series?.findIndex((s) => s >= targetSavings) + 1 || null`. A missing
   * series gives `undefined + 1`, which is NaN; not found gives `-1 + 1`, which
   * is 0; both are falsy and become `null`. A hit at index 0 gives the truthy 1.
   */
  function GoalMonthOf(series: Option<seq<real>>, targetSavings: real): (r: Option<nat>)
    ensures series.None? ==> r.None?
    ensures series.Some? ==> Backend.IsGoalMonth(series.value, targetSavings, r)
  {
    match series
    case None => None
    case Some(s) =>
      var month := FindIndex(s, x => x >= targetSavings) + 1;
      if month == 0 then None else Some(month)
  }

  /** The page's expression and the backend's `goal_month` give the same month on the same series. */
  lemma GoalMonthMatchesBackend(s: seq<real>, targetSavings: real, r: Option<nat>)
    requires Backend.IsGoalMonth(s, targetSavings, r)
    ensures GoalMonthOf(Some(s), targetSavings) == r
  {
  }

  /** Reaching the goal in the first month is month 1, not "not reached". */
  lemma FirstMonthIsReached(s: seq<real>, targetSavings: real)
    requires |s| > 0 && s[0] >= targetSavings
    ensures GoalMonthOf(Some(s), targetSavings) == Some(1)
  {
  }

  datatype GoalMonths = GoalMonths(base: Option<nat>, optimistic: Option<nat>, conservative: Option<nat>)

  /** `baseGoalMonth`, `optimisticGoalMonth` and `conservativeGoalMonth`. */
  function ScenarioGoalMonths(forecast: Option<Backend.ForecastResponse>, targetSavings: real): (g: GoalMonths)
    ensures forecast.None? ==> g == GoalMonths(None, None, None)
    ensures forecast.Some? ==> var s := forecast.value.scenarios;
      && Backend.IsGoalMonth(s.base, targetSavings, g.base)
      && Backend.IsGoalMonth(s.optimistic, targetSavings, g.optimistic)
      && Backend.IsGoalMonth(s.conservative, targetSavings, g.conservative)
  {
    match forecast
    case None => GoalMonths(None, None, None)
    case Some(f) =>
      GoalMonths(
        GoalMonthOf(Some(f.scenarios.base), targetSavings),
        GoalMonthOf(Some(f.scenarios.optimistic), targetSavings),
        GoalMonthOf(Some(f.scenarios.conservative), targetSavings))
  }

  /** Each scenario's goal month depends on its own series only. */
  lemma GoalMonthsIndependent(f1: Backend.ForecastResponse, f2: Backend.ForecastResponse, targetSavings: real)
    ensures var g1, g2 := ScenarioGoalMonths(Some(f1), targetSavings), ScenarioGoalMonths(Some(f2), targetSavings);
      && (f1.scenarios.base == f2.scenarios.base ==> g1.base == g2.base)
      && (f1.scenarios.optimistic == f2.scenarios.optimistic ==> g1.optimistic == g2.optimistic)
      && (f1.scenarios.conservative == f2.scenarios.conservative ==> g1.conservative == g2.conservative)
  {
  }

  // ---------------------------------------------------------------------------
  // Expense slider

  /** `{ ...expenses, [key]: v }`: a new map in which only `key` has changed. */
  function SetExpense(expenses: map<string, real>, key: string, v: real): (r: map<string, real>)
    ensures r.Keys == expenses.Keys + {key}
    ensures key in expenses ==> r.Keys == expenses.Keys
    ensures key in r && r[key] == v
    ensures forall k :: k in expenses && k != key ==> r[k] == expenses[k]
  {
    expenses[key := v]
  }

  /** Moving one slider changes the total the backend projects by exactly the change of that category. */
  lemma SetExpenseTotal(expenses: map<string, real>, key: string, v: real)
    ensures var previous := if key in expenses then expenses[key] else 0.0;
      Backend.TotalExpenses(SetExpense(expenses, key, v)) == Backend.TotalExpenses(expenses) - previous + v
  {
    UpdateThenRemove(expenses, key, v);
    Backend.TotalRemove(expenses[key := v], key);
    if key in expenses {
      Backend.TotalRemove(expenses, key);
    } else {
      RemoveAbsent(expenses, key);
    }
  }

  lemma UpdateThenRemove(m: map<string, real>, key: string, v: real)
    ensures m[key := v] - {key} == m - {key}
  {
  }

  lemma RemoveAbsent(m: map<string, real>, key: string)
    requires key !in m
    ensures m - {key} == m
  {
  }
}
