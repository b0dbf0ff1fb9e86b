# Expense aggregation engine — a Dafny model

This project models the aggregation engine of a personal expense tracker. It takes the ledger, which is the list of expense rows (`date`, `amount`, `category`, `note`) in the order they were appended. From it the engine computes four things:

- the total spent (`get_total_spent`);
- the amount spent per category (`category_summary`);
- the amount spent per day (`daily_spending`);
- two insights (`get_insights`): the category spent most on, and the total.

Modelling choices:

- A row is the datatype `Expense`. `date`, `category` and `note` are strings, and `amount` is an exact `real`.
- The ledger is a `seq<Expense>`. The operations take it by value and have no `modifies` clause, so none of them can change it. They read only `amount`, `category` and `date`.
- A Python dict is a `map` plus the sequence of its keys in insertion order. The order matters in two places: `sum(d.values())` walks it, and `max(d, key=d.get)` uses it to break ties.
- Both grouping routines run the same loop, `d[k] = d.get(k, 0) + amount`. It is modelled once, as the method `GroupTotals`, keyed by a `GroupBy` selector. The methods `CategorySummary` and `DailySpending` instantiate it.
- The loop is proved equal to the recursive functions `Summary` (the dict) and `KeyOrder` (its insertion order). Lemmas then relate these to reference definitions: `Keys`, the set of keys that occur, and `Matching`, the rows carrying a given key.
- `get_insights` returns structured `Insight` values instead of formatted text. The arg-max follows Python's `max`: it walks the keys in insertion order (the order in which each category first appears) and replaces the current best only on a strictly greater value. So among tied categories, the one that appeared first wins.

## Model

| member | source | states |
|---|---|---|
| `ExpenseLogic.TotalSpent` | expense_logic.py:38-39 | The total is 0 for an empty ledger. It is non-negative when every amount is non-negative. |
| `ExpenseLogic.TotalSpentAppend` | expense_logic.py:38-39 | The total of two ledgers joined together is the sum of their totals, so the order of summation does not matter. |
| `ExpenseLogic.SummaryKeys` | expense_logic.py:42-46 | The keys of a grouping are exactly the keys that occur in the ledger. No absent key appears and none is zero-filled. |
| `ExpenseLogic.SummaryValues` | expense_logic.py:44-45 | For every key k, `d.get(k, 0)` equals the sum of the amounts of the rows whose key is k. |
| `ExpenseLogic.MatchingAbsent` | expense_logic.py:44-45 | A key that does not occur in the ledger has no matching rows. |
| `ExpenseLogic.KeyOrderSpec` | expense_logic.py:44-45 | The dict's insertion order lists each occurring key exactly once, and nothing else. |
| `ExpenseLogic.KeyOrderFirstAppearance` | expense_logic.py:44-45 | If key a comes before key b in insertion order, some prefix of the ledger already contains a but not yet b. |
| `ExpenseLogic.Conservation` | expense_logic.py:38-53 | The values of the category grouping and of the date grouping, summed in insertion order, each equal the total spent. |
| `ExpenseLogic.PositiveAmountsPositiveTotals` | app.py:33-35 | When every amount is positive (the caller's guard before appending), every group total is positive. |
| `ExpenseLogic.HighestFromFirstMax` | expense_logic.py:60-61 | The key that `max` picks over the category summary in insertion order is the highest category. |
| `ExpenseLogic.HighestCategoryUnique` | expense_logic.py:61 | The tie-break is deterministic: at most one category is the highest category. |
| `ExpenseLogic.GroupTotals` | expense_logic.py:42-53 | The accumulation loop produces the dict the grouping functions specify. Its keys are the occurring keys. Each value is the sum for its key. The insertion order is distinct and covers the keys. The values add up to the total. |
| `ExpenseLogic.CategorySummary` | expense_logic.py:42-46 | The keys are exactly the categories that occur. Each value is the summed amount for its category. The insertion order lists each key once, and is empty exactly when the ledger is. |
| `ExpenseLogic.DailySpending` | expense_logic.py:49-53 | The keys are exactly the dates that occur. Each value is the summed amount for its date. The insertion order lists each key once, and is empty exactly when the ledger is. |
| `ExpenseLogic.MaxKey` | expense_logic.py:61 | Returns the first key in order whose value is at least every other key's value. Every earlier key has a strictly smaller value. |
| `ExpenseLogic.GetInsights` | expense_logic.py:56-66 | Returns no insights exactly when the ledger is empty. Otherwise it returns exactly two, in this order. The first names a category that occurs, whose sum is at least every category's sum, and which appeared first among the tied maxima. The second carries the total spent. |
| `ExpenseScenarios.ScenarioA` | expense_logic.py:38-53 | For Food 100 and Travel 50 on one day: the total is 150, the categories are {Food: 100, Travel: 50}, and the days are {day: 150}. |
| `ExpenseScenarios.SummaryB` | expense_logic.py:42-46 | For Food 200 three times and then Travel 10: the categories are {Food: 600, Travel: 10}, in the order Food, Travel. |
| `ExpenseScenarios.ScenarioB` | expense_logic.py:56-66 | For the same ledger, the highest category is Food and nothing else, and the total is 610. |
| `ExpenseScenarios.InsightsB` | expense_logic.py:56-66 | For the same ledger, `get_insights` returns exactly [most spent on Food, total 610]. |

## Left out

- File storage: `initialize_file`, `add_expense` and `read_expenses` (expense_logic.py:8-34) are file and CSV I/O through a library outside the model. The ledger is taken as a given sequence of rows in append order. Nothing is claimed about the CSV encoding.
- Date stamping with the current clock (expense_logic.py:17): `date` is an opaque string supplied with each row.
- Parsing the amount with `float(...)`, and its failure on non-numeric text (expense_logic.py:32): this is library parsing. Amounts arrive already numeric.
- Floating-point summation: Python floats round and their addition is not associative. The model uses exact reals, so its totals are the mathematically exact sums.
- Insight text: the `.2f` formatting and the currency glyph (expense_logic.py:64-65) are not modelled. An insight is a structured value.
- The user interface in app.py: widgets, the pie chart, the line chart, `budget - total_spent` and sorting the daily totals for display. These are presentation built on libraries outside the model. The `amount > 0` guard appears only as the precondition of `PositiveAmountsPositiveTotals`.
- `CategorySummary`, `DailySpending`: their contracts do not restate conservation (the values add up to the total). That fact is stated by `GroupTotals`, which they call, and by the lemma `Conservation`.
- `MaxKey` requires a non-empty key sequence. Python's `max` raises on an empty one, but `get_insights` only calls it after checking that the ledger is non-empty.
