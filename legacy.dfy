/**
 * The earlier single-figure service (financial-twin/backend/main.py): monthly
 * salary and one monthly expense figure in, twelve months of savings out.
 */
module LegacyBackend {
  import Backend

  datatype FinanceInput = FinanceInput(salary: real, expenses: real)

  /** The whole response: a single field. */
  datatype SavingsResponse = SavingsResponse(savings: real)

  /** What is left of the salary each month. */
  function MonthlySavings(data: FinanceInput): (m: real)
    ensures m + data.expenses == data.salary
  {
    data.salary - data.expenses
  }

  /** POST /forecast: a year of monthly savings. */
  function Forecast(data: FinanceInput): (r: SavingsResponse)
    ensures r.savings == 12.0 * MonthlySavings(data)
    ensures r.savings == 0.0 <==> data.salary == data.expenses
    ensures r.savings < 0.0 <==> data.expenses > data.salary
    ensures r.savings > 0.0 <==> data.salary > data.expenses
  {
    var monthlySavings := MonthlySavings(data);
    var yearlySavings := monthlySavings * 12.0;
    SavingsResponse(yearlySavings)
  }

  /**
   * The later service's yearly summary figure equals this service's savings
   * when the single expense figure is the total of the expense categories.
   */
  lemma YearlyAgreesWithLaterService(salary: real, expenses: map<string, real>)
    ensures var cum := Backend.Cumulative(Backend.MonthlyPlan(salary, Backend.TotalExpenses(expenses), Backend.DefaultMonths).base);
      var summary := Backend.SelectSummary(cum);
      && summary.Some?
      && summary.value.yearly == Forecast(FinanceInput(salary, Backend.TotalExpenses(expenses))).savings
  {
    Backend.BaseClosedForm(salary, Backend.TotalExpenses(expenses), Backend.DefaultMonths);
  }
}
