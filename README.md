# Financial Health Twin — savings projection model in Dafny

This project models the savings-projection core of the Financial Health Twin
application:

- the projection service (`backend/main.py`). It totals the monthly expenses
  and builds three monthly surplus lists over 60 months: base, optimistic and
  conservative. It turns each list into a cumulative savings series, picks four
  summary horizons out of the base series, and finds the first month in which
  a series reaches a savings target;
- the dashboard page (`src/app/page.tsx`). It zips the three series into chart
  rows, computes each scenario's goal month with `findIndex(...) + 1 || null`,
  and updates one expense category immutably when a slider moves;
- the earlier single-figure service (`financial-twin/backend/main.py`), which
  returns twelve months of `salary - expenses`.

Money is idealised `real` arithmetic. The compounding factors of the
optimistic and conservative scenarios use an exact real power `Pow`, which is
not float-exact.

Files and modules:

| file | module | models |
|---|---|---|
| `wrappers.dfy` | `Wrappers` | `Option` (`None` for Python's `None` and JavaScript's `null`) |
| `backend.dfy` | `Backend` | `backend/main.py` |
| `frontend.dfy` | `Frontend` | `src/app/page.tsx` |
| `legacy.dfy` | `LegacyBackend` | `financial-twin/backend/main.py` |

How the parts connect:

- `Backend.IsGoalMonth` is the meaning of a goal month: the 1-based month of
  the first entry at or above the target, or `None` when no entry is.
- The backend's loop `Backend.GoalMonth` and the page's expression
  `Frontend.GoalMonthOf` are both proved to satisfy it.
- `Backend.GoalMonthUnique` shows that only one value satisfies it, so the two
  always agree (`Frontend.GoalMonthMatchesBackend`).
- The slider update is tied to the backend's expense total
  (`Frontend.SetExpenseTotal`).
- The earlier service's figure is tied to the later service's yearly summary
  (`LegacyBackend.YearlyAgreesWithLaterService`).

What the code actually does, which the model follows:

- Series of unequal length are not rejected by the chart code. The rows follow
  the base series. A longer optimistic or conservative series is cut short. A
  shorter one leaves `undefined` cells, modelled as `None`.
  `Frontend.ChartRoundTrip` proves that the rows reproduce the three series
  exactly when, and only when, the lengths are equal.
- `findIndex(...) + 1` is 0 only when nothing is found, so `|| null` turns
  only "not reached" into `null`; a hit at index 0 gives month 1
  (`Frontend.FirstMonthIsReached`).
- The projections are computed in `backend/main.py` (`generate_projections`).
- Nothing checks that the salary or the expenses are non-negative or finite.
  The only checks on the input are pydantic's type check of the
  `FinanceInput` body (backend/main.py:16-18, not modelled) and the older
  page's guard against empty fields (financial-twin/src/app/page.tsx:16, not
  modelled). The model therefore accepts any real salary and expense values.

## Model

| member | source | states |
|---|---|---|
| `Backend.TotalExpenses` | backend/main.py:24 | the sum of the expense values: 0 for an empty map, non-negative when every value is |
| `Backend.TotalRemove` | backend/main.py:24 | any entry can be summed first, so the total does not depend on dict order |
| `Backend.SumExpenses` | backend/main.py:24 | adding the values one at a time in any order yields the expense total |
| `Backend.Pow` | backend/main.py:31-32 | `x ** n` for a whole exponent: 1 for exponent 0, 1 for base 1 |
| `Backend.BaseMonthly` | backend/main.py:30 | the base surplus plus the total expenses is the salary |
| `Backend.OptimisticMonthly` | backend/main.py:31 | salary compounded at 0.3% less expenses compounded at 0.2%; at month 0 it equals the base surplus |
| `Backend.ConservativeMonthly` | backend/main.py:32 | flat salary less expenses compounded at 0.5%; at month 0 it equals the base surplus |
| `Backend.MonthCount` | backend/main.py:29 | `range(1, months + 1)` runs `months` times, and not at all for months <= 0 |
| `Backend.MonthlyPlan` | backend/main.py:29-35 | the three monthly lists all have as many entries as the loop has iterations |
| `Backend.Sum` | backend/main.py:38-40 | Python's `sum` of a list; a one-entry list sums to that entry |
| `Backend.Cumulative` | backend/main.py:38-40 | the list comprehension of prefix sums has one entry per monthly amount |
| `Backend.CumulativeLastIsTotal` | backend/main.py:38-58 | the last cumulative entry is the sum of every monthly amount; for a non-empty list the summary exists, its five-year figure is that sum and its monthly figure is the first amount |
| `Backend.CumulativeOfConstant` | backend/main.py:30-38 | a constant monthly amount d accumulates to (i+1)·d after month i+1 |
| `Backend.PowMonotone` | backend/main.py:31-32 | compounding a larger monthly factor gives at least as much, and never less than 1 |
| `Backend.MonthlyOrdering` | backend/main.py:30-32 | with 0 <= expenses <= salary, each month: conservative <= base <= optimistic |
| `Backend.PlanFromLists` | backend/main.py:29-35 | lists holding each month's three amounts, `months` entries long, are exactly the monthly plan |
| `Backend.CumulativeIsPrefixSums` | backend/main.py:38-40 | the cumulative series has the list's length, starts with its first amount and adds the next amount each month |
| `Backend.PrefixSumsUnique` | backend/main.py:38-40 | any series obeying that running-total recurrence is the cumulative series |
| `Backend.CumulativeNonDecreasing` | backend/main.py:38-40 | the cumulative series of non-negative amounts never decreases |
| `Backend.CumulativePointwise` | backend/main.py:38-40 | entrywise-ordered monthly lists give entrywise-ordered cumulative series |
| `Backend.BaseClosedForm` | backend/main.py:30-38 | base savings after month i+1 are (i+1) times (salary - total expenses) |
| `Backend.BaseNonDecreasing` | backend/main.py:30-38 | with salary >= total expenses the base series never decreases |
| `Backend.ScenarioOrdering` | backend/main.py:29-40 | with 0 <= expenses <= salary, conservative <= base <= optimistic in every month |
| `Backend.PlanCumulative` | backend/main.py:38-40 | the three cumulative series are running totals of their lists; the base one has the closed form |
| `Backend.PlanPrefixStep` | backend/main.py:29-35 | one pass of the month loop appends month n+1's base, optimistic and conservative amounts to lists holding months 1..n |
| `Backend.GenerateProjections` | backend/main.py:23-42 | three series of exactly `months` entries (none for months <= 0); each is the cumulative series, and the running total, of its scenario's monthly amounts |
| `Backend.GoalMonth` | backend/main.py:44-48 | the 1-based month of the first entry >= target, within 1..len; `None` if and only if no entry reaches it (including the empty list) |
| `Backend.GoalMonthUnique` | backend/main.py:44-48 | the goal month is a function of the series and the target |
| `Backend.GoalMonthMonotone` | backend/main.py:44-48 | reaching a higher target implies reaching a lower one, no later (for any series) |
| `Backend.GoalStaysReached` | backend/main.py:44-48 | on a non-decreasing series every month from the goal month on is at or above the target |
| `Backend.SelectSummary` | backend/main.py:54-59 | monthly, yearly, 2-year and 5-year figures are the savings after 1, 12, 24 and all months, each capped at the last month; `None` (IndexError) for an empty series |
| `Backend.Forecast` | backend/main.py:50-71 | summary = (d, 12d, 24d, 60d) for d = salary - total expenses; three 60-month running-total series; the fixed recommendation |
| `Frontend.At` | src/app/page.tsx:63-64 | JavaScript indexing of an array: the entry at an index inside it, undefined (`None`) exactly at an index outside it |
| `Frontend.ChartData` | src/app/page.tsx:59-66 | no rows without a forecast; otherwise one row per base entry, row i being month i+1 |
| `Frontend.ChartDataAligned` | src/app/page.tsx:59-66 | for equal-length series, row i holds month i+1 and the three values at index i |
| `Frontend.ChartDataShortSeries` | src/app/page.tsx:61-64 | row i holds month i+1 and base[i]; its optimistic cell holds optimistic[i] when i is inside that series and is undefined exactly when i is at or past the end of it; the same for conservative |
| `Frontend.ChartRoundTrip` | src/app/page.tsx:59-66 | the rows' columns give back the three series if and only if they have equal length |
| `Frontend.FindIndex` | src/app/page.tsx:69 | the first index satisfying the predicate, or -1 when none does |
| `Frontend.GoalMonthOf` | src/app/page.tsx:68-75 | null for a missing series; otherwise the 1-based first month >= target, null when there is none |
| `Frontend.GoalMonthMatchesBackend` | src/app/page.tsx:68-75 | the page's goal month equals the backend `goal_month` on the same series and target |
| `Frontend.FirstMonthIsReached` | src/app/page.tsx:68-69 | a hit at index 0 is month 1, distinct from "not reached" |
| `Frontend.ScenarioGoalMonths` | src/app/page.tsx:68-75 | all null without a forecast; each scenario's goal month is that of its own series |
| `Frontend.GoalMonthsIndependent` | src/app/page.tsx:68-75 | a scenario's goal month does not depend on the other two series |
| `Frontend.SetExpense` | src/app/page.tsx:107-108 | the key gets the new value, the key set is unchanged for an existing key, every other entry is unchanged |
| `Frontend.SetExpenseTotal` | src/app/page.tsx:107-108 | the expense total changes by exactly new value minus old value |
| `LegacyBackend.MonthlySavings` | financial-twin/backend/main.py:24 | what remains of the salary after the monthly expenses |
| `LegacyBackend.Forecast` | financial-twin/backend/main.py:24-26 | one field, `savings`, twelve monthly savings: zero iff salary = expenses, negative iff expenses > salary |
| `LegacyBackend.YearlyAgreesWithLaterService` | financial-twin/backend/main.py:24-25 | equals the later service's yearly summary when expenses are the category total |

## Left out

- HTTP and wiring are not modelled: the FastAPI app, CORS middleware and pydantic models of both services, and the page's `fetch`/`useEffect` round trip with its last-response-wins order. The model takes the decoded request and response as values.
- `base_goal`, `optimistic_goal` and `conservative_goal` are declared in `FinanceInput` but never read, so they are not carried. `goal_month` is never called by the endpoint; it is modelled on its own.
- IEEE floating point is not modelled. `**` is an exact real power, so the optimistic and conservative amounts are idealised.
- Rendering is not modelled: recharts, `toFixed(2)`, Tailwind markup and the reference lines. The export buttons have no handlers, and the imported file-saver, jsPDF and html2canvas are never used.
- The salary and target sliders replace a whole number state and hold no logic.
- The page's optional chaining on `scenarios` inside a present response is not modelled. The response type declares it present, and so does the model. For the goal months, `Frontend.GoalMonthOf` takes the series as an `Option` and covers a missing series (`undefined + 1` is NaN, which `|| null` turns into `null`); `Frontend.ScenarioGoalMonths` only passes it a missing series when there is no forecast. A response missing the optimistic or conservative list, which would throw in `chartData`, is not modelled.
- financial-twin/src/app/page.tsx is not part of this model. It is a form and a fetch whose only check is that the inputs are not empty.
- Backend.TotalExpenses: the order in which Python's `sum` visits the dict is not modelled. The total is proved to be the same in every order (Backend.TotalRemove).
