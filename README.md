# Group-and-sum scripts, modelled in Dafny

This project models three small pandas scripts. Each one reads records, groups
them by a key and sums an amount per key:

- **Sales dashboard** (`Sales-Dashboard/sales_dashboard.py`). It loads `sales.csv`, or the
  six-row sample written when the file is missing. It then computes the total sales, the sums by
  region, by product and by date, the running total over dates, and the top product and top region.
- **Budget-versus-actual analyzer** (`Budget-Expense-Analyzer/budget_expense_analyzer.py`).
  - It prompts for a non-negative budget for each of five fixed categories.
  - It reads transactions until the date prompt gets `done`. Only those with a known category and
    an amount that is not negative are kept.
  - It sums the spending per category and lines it up against the budget over the union of both
    sets of labels, with missing values read as 0.
  - It computes variance = actual − budget and picks out the over-budget rows.
- **Expense tracker** (`Expense-Tracker/expense_tracker.py`). A ledger is kept in memory and
  mirrored to `expenses.csv`. A menu adds an expense ("1"), lists the ledger ("2"), shows the total
  per category ("3") or quits ("4").

How pandas and Python are modelled:

- `groupby(key)[col].sum()` is `GroupBy.GroupBySum`. Its result is a `Series`: a duplicate-free
  index in ascending key order, plus a map from key to sum.
- The key order is Python's string comparison, `Ordering.Below`.
- `cumsum` is `SalesDashboard.CumSum`.
- `idxmax` is `SalesDashboard.IdxMax`. It picks the first label with the largest value.
- The console is a sequence of `Console.Line`s. Each line is its text plus what `float()` makes of
  it (`None` when `float()` raises `ValueError`).
- Running out of lines is `input()` raising `EOFError`. It is a distinct outcome of every loop.
- Amounts are exact `real`s.

Form of each script in the model:

- The sales script is straight-line expressions. It is modelled by pure functions (`Summarise`).
- In the analyzer, the budget loop and the transaction loop are methods with loops: `PromptAmount`,
  `EnterBudget` and `EnterTransactions`. Each is proved equal to a recursive specification
  function (`NextAmount`, `BudgetFrom`, `TransactionsFrom`). The report steps are pure functions.
  The method `RunAnalyzer` calls the loops in turn and is proved equal to the non-recursive
  function `Session`, which chains the specification functions and the report.
- The tracker is a class, `ExpenseTracker.Tracker`. Its `expenses` field is the module-level ledger
  that `add_expense` reassigns. Its ghost field `file` is what `expenses.csv` holds. Its menu loop
  `RunMenu` is proved equal to the function `MenuFrom`.

The two interactive scripts validate amounts differently:

- The analyzer rejects a negative amount (`Budget-Expense-Analyzer/budget_expense_analyzer.py:43`)
  and asks again or drops the transaction.
- The tracker's `add_expense` has no `< 0` test (`Expense-Tracker/expense_tracker.py:20`). It
  checks only that `float()` accepts the answer, so `NewExpense` accepts negative amounts too.
- In the tracker, an amount that does not parse drops the whole record and returns to the menu.

## Model

| member | source | states |
|---|---|---|
| GroupBy.GroupBySum | Sales-Dashboard/sales_dashboard.py:35-37 | the grouping's labels are exactly the keys that occur, each once, in ascending order; each label's value is the sum of the amounts of the rows carrying it |
| GroupBy.GroupSum | Sales-Dashboard/sales_dashboard.py:35-37 | the per-key sums: one entry per key that occurs, holding the sum of that key's amounts |
| GroupBy.Index | Sales-Dashboard/sales_dashboard.py:35-37 | the index of a grouping ascends strictly and holds exactly the keys that occur |
| GroupBy.Accumulate | Sales-Dashboard/sales_dashboard.py:35-37 | adding rows one by one to running per-key sums opens every new key and adds exactly that key's amounts to it |
| GroupBy.GroupBySumConserves | Sales-Dashboard/sales_dashboard.py:34-36 | the group sums add up to the sum of the whole amount column: no row is lost or counted twice |
| GroupBy.SumOverCoveringKeys | Budget-Expense-Analyzer/budget_expense_analyzer.py:53-57 | summing per-key sums over any duplicate-free list of labels that covers every key gives the total of all rows, which is what reading the actual column over the union of labels does |
| Ordering.Insert | Sales-Dashboard/sales_dashboard.py:35 | inserting a key into an ascending, duplicate-free index keeps it ascending and adds exactly that key |
| Ordering.InsertAll | Sales-Dashboard/sales_dashboard.py:35 | sorting the keys of a grouping gives an ascending index with exactly those keys |
| Ordering.SortedUnion | Budget-Expense-Analyzer/budget_expense_analyzer.py:54-57 | the union of two indexes is ascending, without repeats, and holds exactly the labels of either |
| Ordering.SortedUnique | Budget-Expense-Analyzer/budget_expense_analyzer.py:54-57 | two ascending duplicate-free indexes with the same labels are equal, so the table's row order is determined |
| Ordering.BelowTotal | Sales-Dashboard/sales_dashboard.py:35 | Python's string order is total: of two different strings one sorts first |
| Ordering.BelowTransitive | Sales-Dashboard/sales_dashboard.py:35 | Python's string order is transitive |
| SalesDashboard.ProjectTotal | Sales-Dashboard/sales_dashboard.py:34 | the amounts of the table reduced to any grouping column add up to `df["Sales"].sum()` |
| SalesDashboard.GroupSumsConserveTotal | Sales-Dashboard/sales_dashboard.py:34-37 | the sums by region, by product and by date each add up to `total_sales` |
| SalesDashboard.GroupKeysAndSums | Sales-Dashboard/sales_dashboard.py:35-37 | a label is in a grouping exactly when some row carries it in that column; its value is the sum of Sales over those rows; the labels ascend |
| SalesDashboard.CumSum | Sales-Dashboard/sales_dashboard.py:38 | entry `i` of `cumsum()` is the sum of the first `i + 1` values |
| SalesDashboard.CumSumSteps | Sales-Dashboard/sales_dashboard.py:38 | each entry of the running total is the previous entry plus the current value, and the last entry is the sum of all values |
| SalesDashboard.CumSumMonotone | Sales-Dashboard/sales_dashboard.py:38 | with no negative value, the running total never decreases |
| SalesDashboard.CumulativeIsRunningTotal | Sales-Dashboard/sales_dashboard.py:34-38 | `sales_cumulative` is the running total of the daily sums, and its last entry equals `total_sales` |
| SalesDashboard.CumulativeNonDecreasing | Sales-Dashboard/sales_dashboard.py:37-38 | when no sale is negative, `sales_cumulative` never decreases |
| SalesDashboard.FirstMax | Sales-Dashboard/sales_dashboard.py:41-42 | the position found holds a largest value, and every earlier position holds a strictly smaller one |
| SalesDashboard.IdxMax | Sales-Dashboard/sales_dashboard.py:41-42 | there is no label exactly when the series is empty; otherwise the label's value is at least every other value, and every label before it in the index has a strictly smaller value |
| SalesDashboard.TopIsFirstMaximum | Sales-Dashboard/sales_dashboard.py:41-42 | `top_region` and `top_product` exist exactly when the table has a row; each has the largest sum of its grouping, and every label that sorts before it has a strictly smaller sum |
| SalesDashboard.FirstMaximumOf | Sales-Dashboard/sales_dashboard.py:41-42 | on an ascending index, `idxmax` gives a largest label with every label that sorts before it strictly smaller |
| SalesDashboard.SampleDashboard | Sales-Dashboard/sales_dashboard.py:19-42 | without `sales.csv`, the table has six rows; the total is 3450; the top region is South with 1350; the top product is Product A with 1600; the running total ends at 3450 |
| SalesDashboard.SampleRegion | Sales-Dashboard/sales_dashboard.py:21-42 | on the sample rows, South is the top region, with 1350 |
| SalesDashboard.SampleProduct | Sales-Dashboard/sales_dashboard.py:21-41 | on the sample rows, Product A is the top product, with 1600 |
| SalesDashboard.SampleCumulative | Sales-Dashboard/sales_dashboard.py:21-38 | on the sample rows, the running total over dates is not empty and ends at 3450 |
| SalesDashboard.SampleTotal | Sales-Dashboard/sales_dashboard.py:21-34 | the sample's Sales column sums to 3450 |
| SalesDashboard.SampleRegionSums | Sales-Dashboard/sales_dashboard.py:21-35 | the sample's sums by region are North 1050, South 1350, East 450, West 600, and no other region |
| SalesDashboard.SampleProductSums | Sales-Dashboard/sales_dashboard.py:21-36 | the sample's sums by product are Product A 1600, Product B 1250, Product C 600, and no other product |
| BudgetAnalyzer.NextAmount | Budget-Expense-Analyzer/budget_expense_analyzer.py:20-28 | one budget prompt takes the first line that parses to a number that is not negative; every line before it is rejected; without such a line the input runs out |
| BudgetAnalyzer.PromptAmount | Budget-Expense-Analyzer/budget_expense_analyzer.py:20-28 | the re-prompting loop returns what `NextAmount` describes |
| BudgetAnalyzer.BudgetFrom | Budget-Expense-Analyzer/budget_expense_analyzer.py:19-28 | the budget loop gives every category a key, and no value is negative; entries of other keys are kept; a category not repeated later gets the first acceptable amount at its prompt |
| BudgetAnalyzer.EnterBudget | Budget-Expense-Analyzer/budget_expense_analyzer.py:14-28 | the loop computes `BudgetFrom`; when it finishes, the budget's keys are exactly the five categories and no value is negative |
| BudgetAnalyzer.DoneIgnoresCase | Budget-Expense-Analyzer/budget_expense_analyzer.py:34-36 | the transaction loop stops on `done` written in any mix of upper and lower case, and on no other answer |
| BudgetAnalyzer.TransactionPass | Budget-Expense-Analyzer/budget_expense_analyzer.py:33-47 | a pass ends the loop exactly on `done`; otherwise the list is unchanged or gains one transaction at the end, and it gains one exactly when the category is known and the amount parses and is not negative; the transaction gained is the typed date, category and amount |
| BudgetAnalyzer.TransactionsFrom | Budget-Expense-Analyzer/budget_expense_analyzer.py:31-47 | the list only grows; every transaction it gains is accepted and is a date, category and amount typed on consecutive lines after the start; the loop stops right after a date line that reads `done` |
| BudgetAnalyzer.EnterTransactions | Budget-Expense-Analyzer/budget_expense_analyzer.py:31-47 | the loop computes `TransactionsFrom`, and every kept transaction has a known category and an amount that is not negative |
| BudgetAnalyzer.SummaryTable | Budget-Expense-Analyzer/budget_expense_analyzer.py:54-60 | one row per label of the budget or of the actual spending, in ascending order; a missing budget or actual reads as 0; variance is actual minus budget |
| BudgetAnalyzer.Overspend | Budget-Expense-Analyzer/budget_expense_analyzer.py:67 | a row is over budget exactly when it is in the table with a positive variance, and the table's order is kept |
| BudgetAnalyzer.Analyze | Budget-Expense-Analyzer/budget_expense_analyzer.py:50-70 | with no transaction the script fails; otherwise the over-budget list is printed exactly when some row has a positive variance |
| BudgetAnalyzer.RunAnalyzer | Budget-Expense-Analyzer/budget_expense_analyzer.py:14-70 | the script's run, budget loop then transaction loop then report, ends as `Session` says |
| BudgetAnalyzer.ActualColumnConserves | Budget-Expense-Analyzer/budget_expense_analyzer.py:53-57 | the Actual column adds up to the sum of all accepted amounts |
| BudgetAnalyzer.TableOfFive | Budget-Expense-Analyzer/budget_expense_analyzer.py:53-57 | a budget over the five categories and spending only in them give exactly the five categories as rows, in ascending order |
| BudgetAnalyzer.RowsAreTheFiveCategories | Budget-Expense-Analyzer/budget_expense_analyzer.py:37-57 | when every transaction is accepted, the report's rows are exactly the five categories, in ascending order |
| BudgetAnalyzer.SessionReportsFiveCategories | Budget-Expense-Analyzer/budget_expense_analyzer.py:14-57 | whatever was typed, a completed session reports exactly Entertainment, Food, Other, Rent and Transport, in that order |
| BudgetAnalyzer.FoodOnlyAnalysis | Budget-Expense-Analyzer/budget_expense_analyzer.py:53-70 | Food-only spending against a Food-only budget gives one row; its variance is spent less budget; the row is over budget exactly when that is positive |
| BudgetAnalyzer.OneCategoryTable | Budget-Expense-Analyzer/budget_expense_analyzer.py:54-60 | a budget and spending that both name only Food give a single Food row |
| BudgetAnalyzer.UnderBudgetScenario | Budget-Expense-Analyzer/budget_expense_analyzer.py:53-70 | a Food budget of 200 and Food expenses of 50 and 75 give actual 125 and variance −75, and nothing over budget |
| BudgetAnalyzer.OverBudgetScenario | Budget-Expense-Analyzer/budget_expense_analyzer.py:53-70 | a Food budget of 50 and a Food expense of 80 give variance 30, and Food is listed and printed as over budget |
| ExpenseTracker.ViewExpenses | Expense-Tracker/expense_tracker.py:29-35 | the notice exactly when the ledger is empty, otherwise the whole ledger |
| ExpenseTracker.SummaryByCategory | Expense-Tracker/expense_tracker.py:37-44 | the notice exactly when the ledger is empty; otherwise one ascending entry per category that occurs, holding the sum of its amounts, the entries adding up to the ledger's total |
| ExpenseTracker.NewExpense | Expense-Tracker/expense_tracker.py:15-23 | a record exists exactly when `float()` accepts the amount, negative amounts included, and it holds the four answers |
| ExpenseTracker.MenuStepCases | Expense-Tracker/expense_tracker.py:53-65 | "4" and only "4" leaves the loop; "1" reads four more lines and adds the record when the amount parses; "2" views and "3" summarises the current ledger; any other answer is an invalid choice that changes nothing; only a pass that adds a record changes the ledger |
| ExpenseTracker.MenuFromAppends | Expense-Tracker/expense_tracker.py:46-65 | over a whole run of the menu, the final ledger is the starting one with each added record appended in order; the loop was left by "4" exactly when the last event is the goodbye |
| ExpenseTracker.Tracker.constructor | Expense-Tracker/expense_tracker.py:6-10 | the ledger is the saved records when `expenses.csv` exists; otherwise it is empty, with the four columns Date, Category, Description, Amount |
| ExpenseTracker.Tracker.Save | Expense-Tracker/expense_tracker.py:12-13 | the file is rewritten with the whole ledger, and the ledger is unchanged |
| ExpenseTracker.Tracker.AddExpense | Expense-Tracker/expense_tracker.py:15-27 | when the amount parses, the record is appended last and the file then holds the whole ledger; otherwise ledger and file are unchanged |
| ExpenseTracker.Tracker.Dispatch | Expense-Tracker/expense_tracker.py:53-65 | one pass of the menu does what `MenuStep` describes and leaves the ledger it describes; a pass that adds no record leaves the saved file as it was |
| ExpenseTracker.Tracker.RunMenu | Expense-Tracker/expense_tracker.py:46-65 | the menu loop ends with the ledger, events and exit reason of `MenuFrom`, and the file still mirrors the ledger; a run that adds no record never writes the file |
| ExpenseTracker.AddedInAppend | Expense-Tracker/expense_tracker.py:46-65 | the records added over two consecutive stretches of the menu loop are those of the first followed by those of the second |

## Left out

- Charts (matplotlib) and all printing and formatting. The model records what is shown (for
  example `ExpenseTracker.Event`), not how it is rendered.
- Reading and writing CSV files and `os.path.exists`.
  - The sales script's file is a parameter: whether it exists, and its rows.
  - The tracker's file is the ghost field `Tracker.file`.
  - `df.to_csv` of the sample rows is not modelled.
- When `expenses.csv` exists, the model takes the four standard columns for it. Its header is not
  read.
- `float()` parsing (whitespace, `nan`, `inf`, exponents) is abstracted as the `asFloat` field of a
  `Line`.
- Floating-point rounding is not modelled. Sums are exact `real` arithmetic.
- `str.lower()` is modelled on the letters A to Z only. Other Unicode case mappings are not.
- pandas sorts the union of two indexes when building the budget table. The model takes that order
  to be ascending by Python string comparison, the same as a `groupby` index.
- The analyzer with no transactions: the script crashes with `KeyError` at `groupby("Category")`.
  This is modelled as the outcome `NoTransactions`, not as an exception.
- `input()` raising `EOFError` ends each script. In the model this is an outcome (`InputExhausted`,
  `EndOfInput`, `Crash`), not an exception.
- `idxmax` on an empty series raises `ValueError`. `SalesDashboard.IdxMax` returns `None` instead.
- ExpenseTracker.MenuStep: its own contract states only the bound on the next position and that a
  continuing pass is not the goodbye. The dispatch table is stated by `MenuStepCases`, so that the
  loop proofs do not carry it.
- ExpenseTracker.MenuFrom: it has no contract of its own. What it promises is stated by
  `MenuFromAppends`.
- BudgetAnalyzer.TransactionsFrom: it does not say which pass produced each transaction, nor that
  no earlier pass read `done`. Both are stated pass by pass by `TransactionPass`, and
  `TransactionsFrom` is that pass applied until it stops.
- SalesDashboard.Summarise: it has no contract of its own; it is lines 34 to 42 written out. Its
  promises are stated by `GroupSumsConserveTotal`, `GroupKeysAndSums`, `CumulativeIsRunningTotal`,
  `CumulativeNonDecreasing` and `TopIsFirstMaximum`.
- SalesDashboard.LoadData and SalesDashboard.SampleData: they have no contract of their own. What
  the script computes on the sample rows is stated by `SampleDashboard`.
- BudgetAnalyzer.Session: it has no contract of its own. `RunAnalyzer` is proved equal to it, and
  `SessionReportsFiveCategories` states what a completed session reports.
- BudgetAnalyzer.IsDone and BudgetAnalyzer.Lower: they have no contract of their own. Which
  answers end the transaction loop is stated by `DoneIgnoresCase`.
- Missing cells. The model has no missing values: every key and amount cell is filled, and saving
  then reloading a CSV file gives back the same records. pandas `groupby` drops rows whose key is
  missing (NaN), while `sum()` of the whole column keeps them. So the conservation lemmas
  (`GroupBySumConserves`, `GroupSumsConserveTotal`, `ActualColumnConserves`, the totals in
  `SummaryByCategory`) hold only for tables whose key cells are all filled. An expense saved with an
  empty category is reloaded by pandas as NaN and left out of the summary. The model reloads it as
  the empty string and counts it.
