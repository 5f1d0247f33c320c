/**
 * The projection service of backend/main.py: the expense total, the three
 * monthly scenario lists built by the month loop, their cumulative series,
 * the first-goal-month scan and the summary figures of the POST /forecast
 * endpoint.
 *
 * Money is idealised `real` arithmetic; Python's IEEE floats are not modelled,
 * and `Pow` is exact real exponentiation.
 */
module Backend {
  import opened Wrappers

  /** Request body: monthly salary and monthly expenses per category. */
  datatype FinanceInput = FinanceInput(salary: real, expenses: map<string, real>)

  /** The four base-scenario horizons of the response's `summary` object. */
  datatype Summary = Summary(monthly: real, yearly: real, twoYears: real, fiveYears: real)

  /** One list per scenario, in month order. */
  datatype Scenarios = Scenarios(base: seq<real>, optimistic: seq<real>, conservative: seq<real>)

  datatype ForecastResponse = ForecastResponse(summary: Summary, scenarios: Scenarios, recommendation: string)

  /** The projection horizon the endpoint asks for (the default of `months`). */
  const DefaultMonths: int := 60

  const Recommendation: string := "Consider saving more on discretionary expenses."

  // ---------------------------------------------------------------------------
  // The expense total

  /** The sum of the values of an expense map; the order of summation is irrelevant (see TotalRemove). */
  ghost function TotalExpenses(m: map<string, real>): (r: real)
    ensures |m| == 0 ==> r == 0.0
    ensures (forall k :: k in m ==> m[k] >= 0.0) ==> r >= 0.0
    decreases |m|
  {
    if |m| == 0 then 0.0
    else
      var k :| k in m;
      assert (m - {k}).Keys == m.Keys - {k};
      m[k] + TotalExpenses(m - {k})
  }

  /** Unfolds one step of the total, naming the entry it takes out. */
  lemma TotalUnfold(m: map<string, real>) returns (j: string)
    requires |m| > 0
    ensures j in m && TotalExpenses(m) == m[j] + TotalExpenses(m - {j})
  {
    j :| j in m && TotalExpenses(m) == m[j] + TotalExpenses(m - {j});
  }

  lemma RemoveSize(m: map<string, real>, j: string)
    requires j in m
    ensures |m - {j}| == |m| - 1
  {
  }

  /** Any entry can be taken out first: the total does not depend on the order of the values. */
  lemma {:induction false} TotalRemove(m: map<string, real>, k: string)
    requires k in m
    ensures TotalExpenses(m) == m[k] + TotalExpenses(m - {k})
    decreases |m|, 1
  {
    var j := TotalUnfold(m);
    if j != k {
      TotalSwap(m, j, k);
    }
  }

  lemma {:induction false} TotalSwap(m: map<string, real>, j: string, k: string)
    requires j in m && k in m && j != k
    requires TotalExpenses(m) == m[j] + TotalExpenses(m - {j})
    ensures TotalExpenses(m) == m[k] + TotalExpenses(m - {k})
    decreases |m|, 0
  {
    var mj, mk := m - {j}, m - {k};
    RemoveSize(m, j);
    RemoveSize(m, k);
    assert mj - {k} == mk - {j};
    assert mj[k] == m[k] && mk[j] == m[j];
    TotalRemove(mj, k);
    TotalRemove(mk, j);
  }

  /** `sum(expenses.values())`: adds the values one by one, in whatever order the map yields them. */
  method SumExpenses(expenses: map<string, real>) returns (total: real)
    ensures total == TotalExpenses(expenses)
  {
    total := 0.0;
    var rest := expenses;
    while rest != map[]
      invariant total + TotalExpenses(rest) == TotalExpenses(expenses)
      decreases |rest|
    {
      var k :| k in rest;
      TotalRemove(rest, k);
      assert (rest - {k}).Keys == rest.Keys - {k};
      total := total + rest[k];
      rest := rest - {k};
    }
  }

  // ---------------------------------------------------------------------------
  // Monthly amounts per scenario

  /** Idealised `x ** n` on reals. */
  function Pow(x: real, n: nat): (r: real)
    ensures n == 0 ==> r == 1.0
    ensures x == 1.0 ==> r == 1.0
  {
    if n == 0 then 1.0 else x * Pow(x, n - 1)
  }

  /** A larger growth factor never compounds to less, and neither compounds below 1. */
  lemma {:induction false} PowMonotone(x: real, y: real, n: nat)
    requires 1.0 <= y <= x
    ensures 1.0 <= Pow(y, n) <= Pow(x, n)
  {
    if n > 0 {
      PowMonotone(x, y, n - 1);
      var a, b := Pow(x, n - 1), Pow(y, n - 1);
      MulMonotoneBoth(x, y, a, b);
      MulMonotoneBoth(y, 1.0, b, 1.0);
    }
  }

  /** Base scenario: the plain monthly surplus. */
  function BaseMonthly(salary: real, total: real): (r: real)
    ensures r + total == salary
  {
    salary - total
  }

  /** Optimistic scenario: salary grows 0.3% and expenses 0.2% per month, compounded. */
  function OptimisticMonthly(salary: real, total: real, month: nat): (r: real)
    ensures month == 0 ==> r == BaseMonthly(salary, total)
  {
    salary * Pow(1.003, month) - total * Pow(1.002, month)
  }

  /** Conservative scenario: salary flat, expenses grow 0.5% per month, compounded. */
  function ConservativeMonthly(salary: real, total: real, month: nat): (r: real)
    ensures month == 0 ==> r == BaseMonthly(salary, total)
  {
    salary - total * Pow(1.005, month)
  }

  /** How many iterations `range(1, months + 1)` makes. */
  function MonthCount(months: int): (n: nat)
    ensures months >= 0 ==> n == months
    ensures months <= 0 ==> n == 0
  {
    if months < 0 then 0 else months
  }

  /** The three monthly lists, entry `i` being month `i + 1`. */
  function MonthlyPlan(salary: real, total: real, months: int): (p: Scenarios)
    ensures |p.base| == |p.optimistic| == |p.conservative| == MonthCount(months)
  {
    var n := MonthCount(months);
    Scenarios(
      seq(n, i => BaseMonthly(salary, total)),
      seq(n, i requires 0 <= i => OptimisticMonthly(salary, total, i + 1)),
      seq(n, i requires 0 <= i => ConservativeMonthly(salary, total, i + 1)))
  }

  // ---------------------------------------------------------------------------
  // Cumulative series

  /** Left-to-right sum, as Python's `sum` (starting from 0). */
  function Sum(s: seq<real>): (r: real)
    ensures |s| == 1 ==> r == s[0]
  {
    if s == [] then 0.0 else Sum(s[..|s| - 1]) + s[|s| - 1]
  }

  /** `[sum(m[:i+1]) for i in range(len(m))]`. */
  function Cumulative(m: seq<real>): (c: seq<real>)
    ensures |c| == |m|
  {
    seq(|m|, i requires 0 <= i < |m| => Sum(m[..i + 1]))
  }

  /** `c` is the running total of `m`. */
  ghost predicate IsPrefixSums(c: seq<real>, m: seq<real>)
  {
    && |c| == |m|
    && (|m| > 0 ==> c[0] == m[0])
    && forall i :: 0 <= i < |m| - 1 ==> c[i + 1] == c[i] + m[i + 1]
  }

  ghost predicate NonDecreasing(s: seq<real>)
  {
    forall i, j :: 0 <= i <= j < |s| ==> s[i] <= s[j]
  }

  lemma CumulativeIsPrefixSums(m: seq<real>)
    ensures IsPrefixSums(Cumulative(m), m)
  {
    var c := Cumulative(m);
    if |m| > 0 {
      assert m[..1][..0] == [];
      assert c[0] == Sum(m[..1]) == m[0];
    }
    forall i | 0 <= i < |m| - 1
      ensures c[i + 1] == c[i] + m[i + 1]
    {
      assert m[..i + 2][..i + 1] == m[..i + 1];
    }
  }

  /** The running-total recurrence has exactly one solution: the cumulative series. */
  lemma PrefixSumsUnique(c: seq<real>, m: seq<real>)
    requires IsPrefixSums(c, m)
    ensures c == Cumulative(m)
  {
    CumulativeIsPrefixSums(m);
    var d := Cumulative(m);
    forall i | 0 <= i < |m|
      ensures c[i] == d[i]
    {
      PrefixSumsAgree(c, d, m, i);
    }
  }

  lemma {:induction false} PrefixSumsAgree(c: seq<real>, d: seq<real>, m: seq<real>, i: nat)
    requires IsPrefixSums(c, m) && IsPrefixSums(d, m)
    requires i < |m|
    ensures c[i] == d[i]
  {
    if i > 0 {
      PrefixSumsAgree(c, d, m, i - 1);
    }
  }

  lemma {:induction false} SumConstant(d: real, n: nat)
    ensures Sum(seq(n, i => d)) == n as real * d
  {
    if n > 0 {
      assert seq(n, i => d)[..n - 1] == seq(n - 1, i => d);
      SumConstant(d, n - 1);
    }
  }

  /** Summing entrywise-smaller entries gives a smaller sum. */
  lemma {:induction false} SumPointwise(a: seq<real>, b: seq<real>)
    requires |a| == |b|
    requires forall i :: 0 <= i < |a| ==> a[i] <= b[i]
    ensures Sum(a) <= Sum(b)
  {
    if a != [] {
      SumPointwise(a[..|a| - 1], b[..|b| - 1]);
    }
  }

  /** The cumulative series of non-negative amounts never decreases. */
  lemma CumulativeNonDecreasing(m: seq<real>)
    requires forall i :: 0 <= i < |m| ==> m[i] >= 0.0
    ensures NonDecreasing(Cumulative(m))
  {
    var c := Cumulative(m);
    CumulativeIsPrefixSums(m);
    forall i, j | 0 <= i <= j < |c|
      ensures c[i] <= c[j]
    {
      CumulativeStep(c, m, i, j);
    }
  }

  lemma {:induction false} CumulativeStep(c: seq<real>, m: seq<real>, i: nat, j: nat)
    requires IsPrefixSums(c, m)
    requires forall k :: 0 <= k < |m| ==> m[k] >= 0.0
    requires i <= j < |m|
    ensures c[i] <= c[j]
  {
    if i < j {
      CumulativeStep(c, m, i, j - 1);
    }
  }

  /** Cumulative series of entrywise-ordered lists stay ordered month by month. */
  lemma CumulativePointwise(a: seq<real>, b: seq<real>)
    requires |a| == |b|
    requires forall i :: 0 <= i < |a| ==> a[i] <= b[i]
    ensures forall i :: 0 <= i < |a| ==> Cumulative(a)[i] <= Cumulative(b)[i]
  {
    forall i | 0 <= i < |a|
      ensures Cumulative(a)[i] <= Cumulative(b)[i]
    {
      SumPointwise(a[..i + 1], b[..i + 1]);
    }
  }

  // ---------------------------------------------------------------------------
  // Properties of the projections

  /** In one month: conservative <= base <= optimistic, for non-negative expenses within the salary. */
  lemma MonthlyOrdering(salary: real, total: real, month: nat)
    requires 0.0 <= total <= salary
    ensures ConservativeMonthly(salary, total, month) <= BaseMonthly(salary, total)
    ensures BaseMonthly(salary, total) <= OptimisticMonthly(salary, total, month)
  {
    PowMonotone(1.005, 1.005, month);
    PowMonotone(1.003, 1.002, month);
    var ps, pe, pc := Pow(1.003, month), Pow(1.002, month), Pow(1.005, month);
    var gs, ge, gc := ps - 1.0, pe - 1.0, pc - 1.0;
    MulMonotone(total, gc, 0.0);
    assert total * gc >= 0.0;
    MulMonotoneBoth(salary, total, gs, ge);
    assert salary * ps == salary * gs + salary;
    assert total * pe == total * ge + total;
    assert total * pc == total * gc + total;
    assert OptimisticMonthly(salary, total, month) == salary * ps - total * pe;
    assert ConservativeMonthly(salary, total, month) == salary - total * pc;
  }

  /**
   * The last entry of the cumulative series is the sum of all the monthly
   * amounts, so the five-year summary figure is the whole sum and the
   * monthly one is the first amount.
   */
  lemma CumulativeLastIsTotal(m: seq<real>)
    requires |m| > 0
    ensures Cumulative(m)[|m| - 1] == Sum(m)
    ensures SelectSummary(Cumulative(m)).Some?
    ensures SelectSummary(Cumulative(m)).value.fiveYears == Sum(m)
    ensures SelectSummary(Cumulative(m)).value.monthly == m[0]
  {
    assert m[..|m|] == m;
    assert m[..1] == [m[0]];
  }

  lemma MulMonotoneBoth(x: real, y: real, a: real, b: real)
    requires x >= y >= 0.0 && a >= b >= 0.0
    ensures x * a >= y * b
  {
    MulMonotone(a, x, y);
    MulMonotone(y, a, b);
    assert a * x == x * a && a * y == y * a;
  }

  lemma MulMonotone(a: real, x: real, y: real)
    requires a >= 0.0 && x >= y
    ensures a * x >= a * y
  {
  }

  /** After month `i + 1` the base scenario has saved `i + 1` monthly surpluses. */
  lemma BaseClosedForm(salary: real, total: real, months: int)
    ensures var c := Cumulative(MonthlyPlan(salary, total, months).base);
      forall i :: 0 <= i < |c| ==> c[i] == (i + 1) as real * (salary - total)
  {
    var base := MonthlyPlan(salary, total, months).base;
    assert forall k :: 0 <= k < |base| ==> base[k] == salary - total;
    CumulativeOfConstant(base, salary - total);
  }

  /** A constant monthly amount `d` accumulates to `(i + 1) * d` after month `i + 1`. */
  lemma CumulativeOfConstant(m: seq<real>, d: real)
    requires forall k :: 0 <= k < |m| ==> m[k] == d
    ensures forall i :: 0 <= i < |m| ==> Cumulative(m)[i] == (i + 1) as real * d
  {
    forall i | 0 <= i < |m|
      ensures Cumulative(m)[i] == (i + 1) as real * d
    {
      assert m[..i + 1] == seq(i + 1, k => d);
      SumConstant(d, i + 1);
    }
  }

  /** With no deficit the base series never decreases. */
  lemma BaseNonDecreasing(salary: real, total: real, months: int)
    requires salary >= total
    ensures NonDecreasing(Cumulative(MonthlyPlan(salary, total, months).base))
  {
    CumulativeNonDecreasing(MonthlyPlan(salary, total, months).base);
  }

  /**
   * With non-negative expenses not above the salary, month by month the
   * conservative series is at most the base series, which is at most the
   * optimistic series.
   */
  lemma ScenarioOrdering(salary: real, total: real, months: int)
    requires 0.0 <= total <= salary
    ensures var p := MonthlyPlan(salary, total, months);
      var b, o, c := Cumulative(p.base), Cumulative(p.optimistic), Cumulative(p.conservative);
      forall i :: 0 <= i < MonthCount(months) ==> c[i] <= b[i] <= o[i]
  {
    var p := MonthlyPlan(salary, total, months);
    forall i | 0 <= i < MonthCount(months)
      ensures p.conservative[i] <= p.base[i] <= p.optimistic[i]
    {
      MonthlyOrdering(salary, total, i + 1);
    }
    CumulativePointwise(p.conservative, p.base);
    CumulativePointwise(p.base, p.optimistic);
  }

  // ---------------------------------------------------------------------------
  // generate_projections

  /** Builds the three monthly lists in a loop, then their cumulative series. */
  method GenerateProjections(salary: real, expenses: map<string, real>, months: int := DefaultMonths)
    returns (baseCum: seq<real>, optimisticCum: seq<real>, conservativeCum: seq<real>)
    ensures |baseCum| == |optimisticCum| == |conservativeCum| == MonthCount(months)
    ensures var p := MonthlyPlan(salary, TotalExpenses(expenses), months);
      && baseCum == Cumulative(p.base)
      && optimisticCum == Cumulative(p.optimistic)
      && conservativeCum == Cumulative(p.conservative)
      && IsPrefixSums(baseCum, p.base)
      && IsPrefixSums(optimisticCum, p.optimistic)
      && IsPrefixSums(conservativeCum, p.conservative)
  {
    var totalExpenses := SumExpenses(expenses);
    var base, optimistic, conservative := [], [], [];
    var month := 1;
    while month <= months
      invariant 1 <= month <= MonthCount(months) + 1
      invariant |base| == month - 1
      invariant PlanPrefix(salary, totalExpenses, base, optimistic, conservative)
    {
      var baseMonthly := BaseMonthly(salary, totalExpenses);
      var optimisticMonthly := OptimisticMonthly(salary, totalExpenses, month);
      var conservativeMonthly := ConservativeMonthly(salary, totalExpenses, month);
      PlanPrefixStep(salary, totalExpenses, base, optimistic, conservative);
      base := base + [baseMonthly];
      optimistic := optimistic + [optimisticMonthly];
      conservative := conservative + [conservativeMonthly];
      month := month + 1;
    }
    PlanFromLists(salary, totalExpenses, months, base, optimistic, conservative);
    baseCum := Cumulative(base);
    optimisticCum := Cumulative(optimistic);
    conservativeCum := Cumulative(conservative);
    PlanCumulative(salary, totalExpenses, months);
  }

  /** The three lists hold the amounts of the first `|base|` months. */
  ghost predicate PlanPrefix(salary: real, total: real, base: seq<real>, optimistic: seq<real>, conservative: seq<real>)
  {
    && |base| == |optimistic| == |conservative|
    && (forall i :: 0 <= i < |base| ==> base[i] == BaseMonthly(salary, total))
    && (forall i :: 0 <= i < |optimistic| ==> optimistic[i] == OptimisticMonthly(salary, total, i + 1))
    && (forall i :: 0 <= i < |conservative| ==> conservative[i] == ConservativeMonthly(salary, total, i + 1))
  }

  /** One more iteration of the month loop appends the next month's three amounts. */
  lemma PlanPrefixStep(salary: real, total: real, base: seq<real>, optimistic: seq<real>, conservative: seq<real>)
    requires PlanPrefix(salary, total, base, optimistic, conservative)
    ensures var month := |base| + 1;
      PlanPrefix(salary, total,
        base + [BaseMonthly(salary, total)],
        optimistic + [OptimisticMonthly(salary, total, month)],
        conservative + [ConservativeMonthly(salary, total, month)])
  {
  }

  /** Lists holding the monthly amounts of every month are the monthly plan. */
  lemma PlanFromLists(salary: real, total: real, months: int, base: seq<real>, optimistic: seq<real>, conservative: seq<real>)
    requires |base| == MonthCount(months)
    requires PlanPrefix(salary, total, base, optimistic, conservative)
    ensures MonthlyPlan(salary, total, months) == Scenarios(base, optimistic, conservative)
  {
  }

  /** What the cumulative series of a monthly plan satisfy. */
  lemma PlanCumulative(salary: real, total: real, months: int)
    ensures var p := MonthlyPlan(salary, total, months);
      && IsPrefixSums(Cumulative(p.base), p.base)
      && IsPrefixSums(Cumulative(p.optimistic), p.optimistic)
      && IsPrefixSums(Cumulative(p.conservative), p.conservative)
      && forall i :: 0 <= i < MonthCount(months) ==> Cumulative(p.base)[i] == (i + 1) as real * (salary - total)
  {
    var p := MonthlyPlan(salary, total, months);
    CumulativeIsPrefixSums(p.base);
    CumulativeIsPrefixSums(p.optimistic);
    CumulativeIsPrefixSums(p.conservative);
    BaseClosedForm(salary, total, months);
  }

  // ---------------------------------------------------------------------------
  // goal_month

  /**
   * `r` is the 1-based month of the first entry of `p` that is at least `t`,
   * or `None` when no entry is.
   */
  ghost predicate IsGoalMonth(p: seq<real>, t: real, r: Option<nat>)
  {
    match r
    case None => forall i :: 0 <= i < |p| ==> p[i] < t
    case Some(m) => 1 <= m <= |p| && p[m - 1] >= t && forall j :: 0 <= j < m - 1 ==> p[j] < t
  }

  /** Scans the series in order and stops at the first entry that reaches the target. */
  method GoalMonth(projections: seq<real>, target: real) returns (r: Option<nat>)
    ensures IsGoalMonth(projections, target, r)
    ensures r.None? <==> forall i :: 0 <= i < |projections| ==> projections[i] < target
  {
    var idx := 0;
    while idx < |projections|
      invariant 0 <= idx <= |projections|
      invariant forall j :: 0 <= j < idx ==> projections[j] < target
    {
      if projections[idx] >= target {
        return Some(idx + 1);
      }
      idx := idx + 1;
    }
    return None;
  }

  /** The goal month is determined by the series and the target alone. */
  lemma GoalMonthUnique(p: seq<real>, t: real, r1: Option<nat>, r2: Option<nat>)
    requires IsGoalMonth(p, t, r1) && IsGoalMonth(p, t, r2)
    ensures r1 == r2
  {
  }

  /**
   * A higher target is reached no earlier than a lower one: reaching `t2`
   * implies reaching `t1`, and not sooner.
   */
  lemma GoalMonthMonotone(p: seq<real>, t1: real, t2: real, r1: Option<nat>, r2: Option<nat>)
    requires t1 <= t2
    requires IsGoalMonth(p, t1, r1) && IsGoalMonth(p, t2, r2)
    ensures r2.Some? ==> r1.Some? && r1.value <= r2.value
  {
  }

  /** On a non-decreasing series the goal, once reached, stays reached. */
  lemma GoalStaysReached(p: seq<real>, t: real, m: nat)
    requires NonDecreasing(p)
    requires IsGoalMonth(p, t, Some(m))
    ensures forall j :: m - 1 <= j < |p| ==> p[j] >= t
  {
  }

  // ---------------------------------------------------------------------------
  // The /forecast endpoint

  /** The cumulative savings after `h` months, or after the last month when the series is shorter. */
  function SavingsAfter(cum: seq<real>, h: nat): real
    requires 1 <= h && cum != []
  {
    cum[(if h <= |cum| then h else |cum|) - 1]
  }

  /** The `summary` dict; `None` when `base_cum[0]` would raise IndexError on an empty series. */
  function SelectSummary(baseCum: seq<real>): (r: Option<Summary>)
    ensures r.None? <==> baseCum == []
    ensures r.Some? ==> r.value == Summary(
      SavingsAfter(baseCum, 1), SavingsAfter(baseCum, 12),
      SavingsAfter(baseCum, 24), SavingsAfter(baseCum, |baseCum|))
  {
    if baseCum == [] then None
    else
      var last := baseCum[|baseCum| - 1];
      Some(Summary(
        baseCum[0],
        if |baseCum| > 11 then baseCum[11] else last,
        if |baseCum| > 23 then baseCum[23] else last,
        last))
  }

  /** POST /forecast: sixty months of projections and the summary of the base series. */
  method Forecast(data: FinanceInput) returns (response: ForecastResponse)
    ensures var d := data.salary - TotalExpenses(data.expenses);
      response.summary == Summary(d, 12.0 * d, 24.0 * d, 60.0 * d)
    ensures var s := response.scenarios;
      |s.base| == |s.optimistic| == |s.conservative| == DefaultMonths
    ensures var p := MonthlyPlan(data.salary, TotalExpenses(data.expenses), DefaultMonths);
      && IsPrefixSums(response.scenarios.base, p.base)
      && IsPrefixSums(response.scenarios.optimistic, p.optimistic)
      && IsPrefixSums(response.scenarios.conservative, p.conservative)
    ensures response.recommendation == Recommendation
  {
    var baseCum, optimisticCum, conservativeCum := GenerateProjections(data.salary, data.expenses);
    BaseClosedForm(data.salary, TotalExpenses(data.expenses), DefaultMonths);
    var summary := SelectSummary(baseCum);
    response := ForecastResponse(
      summary.value,
      Scenarios(baseCum, optimisticCum, conservativeCum),
      Recommendation);
  }
}
