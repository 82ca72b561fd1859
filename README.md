# Finance-Tracker money logic in Dafny

This project models the money logic of the Finance-Tracker Django app
(`finance_app`). Users record income and expense transactions, file them
under categories, set per-category budgets over date ranges, and look at a
monthly dashboard and a grouped report. The model covers:

- the `Budget` evaluation (spent, remaining, percentage spent) in `finance_app/models.py`;
- the table constraints (`unique_together`, `on_delete`, field validators, default ordering);
- the `dashboard`, `generate_report`, `expense_list`, `add_expense` and `api_summary` views;
- the form rules of `finance_app/forms.py`;
- the seeding of default categories in `finance_app/signals.py`.

Modelling choices:

- Money is integer cents. A stored amount is positive with at most 12 digits: [1, 10^12) cents. A form accepts at least 2 cents. `MinValueValidator(0.01)` compares the `Decimal` amount exactly with the float 0.01, which is slightly above one cent, so 0.01 itself fails the validator.
- Dates are `(year, month, day)` in the proleptic Gregorian calendar. `date + timedelta`, `date - timedelta(days=1)` and `replace(day=1)` are written out.
- Each ORM query is an explicit filter over a sequence of records. The requesting user is an explicit parameter.
- The percentage is an exact `real`.
- The clock (`datetime.now()`) is the parameter `today`.

Files and modules:

- `wrappers.dfy` (module `Wrappers`): Option / Result
- `calendar.dfy` (module `Calendar`): dates, month bounds of `dashboard`
- `aggregate.dfy` (module `Aggregate`): `filter(...)`, `aggregate(Sum(...)) or 0`, `.exists()`, uniqueness
- `records.dfy` (module `Records`): models, field constraints, `ordering`, transaction filters
- `budget.dfy` (module `BudgetEvaluation`): `Budget.get_spent_amount` / `get_remaining_amount` / `get_percentage_spent`
- `store.dfy` (module `Store`): tables as a class, `on_delete` rules, `create_default_categories`
- `forms.dfy` (module `Forms`): category choices, `ExpenseForm`, `BudgetForm.clean`, `ReportForm`
- `dashboard.dfy` (module `Dashboard`): `dashboard`
- `reports.dfy` (module `Reports`): `generate_report`
- `views.dfy` (module `Views`): `add_expense`, `expense_list`, `api_summary`

The generic helpers in `Aggregate` (selection, sums, permutation and
uniqueness lemmas) and the small calendar steps are the proof
infrastructure. They have no rows below.

How `generate_report` treats the report type:

- A type outside {monthly, yearly, category} fails form validation, and the form is shown again.
- The valid types `yearly` and `category` reach the render with `data` never assigned, and fail there.
- `Reports.GenerateReport` models both outcomes.

## Model

| member | source | states |
|---|---|---|
| `BudgetEvaluation.SpentIsZeroIffNothingCounts` | finance_app/models.py:53-60 | Spent sums the user's expenses in the budget's category dated in [start, end], both ends included. It is never negative and is 0 exactly when no such expense exists. |
| `BudgetEvaluation.PercentOf` | finance_app/models.py:65-68 | A zero amount gives 0 with no division. Otherwise the result is at most 100, is exactly 100 once spending reaches the amount, and below that equals spent/amount·100 exactly. It is at least 0 for a positive amount and non-negative spending. |
| `BudgetEvaluation.PercentageInRange` | finance_app/models.py:68 | For a stored budget (amount at least one cent) the percentage spent lies in [0, 100], even when spending exceeds the amount. |
| `BudgetEvaluation.RemainingAgreesWithPercentage` | finance_app/models.py:62-68 | For a positive amount, nothing remains (remaining ≤ 0) exactly when the percentage is 100. While something remains, percentage·amount = 100·(amount − remaining), i.e. the percentage is the spent share. |
| `BudgetEvaluation.EvaluationIgnoresUnrelated` | finance_app/models.py:54-58 | Transactions of another user or another category change none of spent, remaining and percentage. |
| `Records.SumOfZeroIffEmpty` | finance_app/views.py:86-90 | Every `aggregate(Sum) or 0` total is non-negative. It is 0 exactly when no transaction matches the filter. |
| `Records.SumOfIgnoresOtherUsers` | finance_app/views.py:98-102 | Another user's transactions never reach a user's totals, whatever their category names. |
| `Records.SumOfPermutation` | finance_app/views.py:70-71 | A filtered total does not depend on the order of the table. |
| `Records.IncomeExpenseSplit` | finance_app/views.py:366-370 | Income total plus expense total equals the total of all matching transactions: each transaction is counted once. |
| `Records.OrderByDateDesc` | finance_app/models.py:41 | `ordering = ['-date']` returns the same transactions (as a multiset), latest date first. |
| `Store.NullCategory` | finance_app/models.py:29 | SET_NULL keeps every transaction in place. The deleted category's transactions lose their category and nothing else. All other transactions are unchanged. |
| `Store.CascadeKeepsExactlyOthers` | finance_app/models.py:45 | CASCADE deletes exactly the budgets of the deleted category and keeps every other budget. |
| `Store.DeleteKeepsSums` | finance_app/models.py:29 | Deleting a category leaves unchanged every transaction total that does not filter on that category: income, expenses, and other categories' spending. |
| `Store.DeleteKeepsBudgetEvaluation` | finance_app/models.py:45 | Every budget that survives a category delete has the same spent, remaining and percentage as before. |
| `Store.NullKeepsTransactionsOk` | finance_app/models.py:29 | After SET_NULL, every transaction keeps its key, its validated fields, and a category that still exists or none. |
| `Store.CascadeKeepsBudgetsOk` | finance_app/models.py:44-48 | After CASCADE, the remaining budgets are still unique on (user, category, start_date, end_date), keep distinct keys and validated fields, and refer only to categories that still exist. |
| `Store.Store.DeleteCategory` | finance_app/models.py:29 | Deleting a category removes its row, nulls its transactions and cascades to its budgets. The store invariant (uniqueness, primary keys, foreign keys, validators) still holds afterwards. |
| `Store.SeededCategories` | finance_app/signals.py:7-11 | The seeded rows are exactly Groceries (expense), Rent (expense), Salary (income), in that order. All are owned by the new user and have consecutive ids from the next free one. |
| `Store.SeedingKeepsCategoriesUnique` | finance_app/models.py:13 | Seeding a user who owns no category keeps (name, user) unique. |
| `Store.SeedingKeepsIdsFresh` | finance_app/signals.py:16-17 | The seeded rows take new, distinct primary keys. |
| `Store.Store.CreateDefaultCategories` | finance_app/signals.py:13-17 | For a created user, exactly the three default rows are appended, one per loop step. An update appends nothing. Transactions and budgets are untouched, and the store invariant still holds. |
| `Forms.CategoryChoicesAreTheUsers` | finance_app/forms.py:68-69 | A form given a user offers exactly that user's categories. The same narrowing is at forms.py:30-31 and 53-54. |
| `Forms.CleanExpense` | finance_app/forms.py:42-54 | ExpenseForm accepts exactly: an amount of at least 2 cents and below 10^12 cents, a real date, and an optional category from the offered choices. Accepted data is returned unchanged. |
| `Forms.OneCentIsRejected` | finance_app/models.py:28 | An expense of 0.01 fails the amount validator, because the float limit is above one cent. An expense of 0.02 passes it. |
| `Forms.AcceptedExpenseCategoryIsOwn` | finance_app/forms.py:53-54 | An expense accepted for a user can only carry one of that user's own categories. |
| `Forms.BudgetClean` | finance_app/forms.py:71-88 | `clean` fails with the duplicate-budget error exactly when user, category, start and end are all present and another budget (not the one being edited) has the same four values. Otherwise it returns the data unchanged. It imposes no order on start and end. |
| `Forms.CleanNewBudgetKeepsUnique` | finance_app/models.py:74 | Saving a new budget that passed `clean` keeps (user, category, start_date, end_date) unique. |
| `Forms.CleanEditedBudgetKeepsUnique` | finance_app/forms.py:78-83 | Saving an edited budget that passed `clean` keeps the budget uniqueness. |
| `Forms.ResaveUnchangedBudgetPasses` | finance_app/forms.py:83 | Re-saving an existing budget unchanged passes `clean`, because the edited row is excluded. |
| `Forms.ParseReportType` | finance_app/forms.py:91-97 | Accepted report types are exactly monthly, yearly and category. Each accepted value maps back to its code. |
| `Forms.ParseReportFormat` | finance_app/forms.py:100 | Accepted formats are exactly html, json and csv. Each accepted value maps back to its code. |
| `Forms.CleanReport` | finance_app/forms.py:90-100 | The report form is valid exactly when both choices are known and both dates are present. The cleaned values are the submitted ones. |
| `Reports.Group` | finance_app/views.py:312-317 | Grouping gives strictly ordered rows, one per (year, month, is_income) present. Each row holds its group's sum. |
| `Reports.AddToGroups` | finance_app/views.py:315-316 | Adding a transaction to a report grows its own group's row by its amount, or creates that row in order. No other row changes. |
| `Reports.MonthlyReportIsGrouping` | finance_app/views.py:309-317 | The monthly report has exactly one row per distinct (year, month, is_income) among the user's transactions in [start, end]. Each row's total is that group's sum. Rows are ordered by year and then month, ascending. |
| `Reports.MonthlyReportGroups` | finance_app/views.py:309 | A group appears exactly when one of the requesting user's transactions dated in [start, end] has that year, month and flag. |
| `Reports.ReversedRangeIsEmpty` | finance_app/views.py:309 | A start date after the end date selects nothing, so the report is empty. |
| `Reports.ThreeTransactionExample` | finance_app/views.py:312-317 | Expenses of 100.00 and 50.00 in January and an income of 200.00 in February give exactly the rows (2024, 1, expense) = 150.00 and (2024, 2, income) = 200.00, in that order. |
| `Reports.GenerateReport` | finance_app/views.py:301-333 | An invalid form is shown again. A monthly report answers with its grouped rows in the requested format. Any other valid type ends in the unbound-`data` failure at the render. |
| `Calendar.MonthBounds` | finance_app/views.py:80-82 | start_of_month is day 1 of today's month. end_of_month, computed as (start + 32 days) moved to day 1, minus one day, is the last day of the same month, December and leap-year February included. The inclusive range between them holds exactly the dates of that month. |
| `Dashboard.MonthFilterIsCalendarMonth` | finance_app/views.py:86-102 | The monthly income and expense filters select exactly the user's transactions of that flag in today's calendar month. |
| `Dashboard.ReversedBudgetIsCounted` | finance_app/views.py:92-96 | A budget from 20 March back to 10 March covers no day. Both its dates fall in March, so it passes the month filter, and its whole amount counts in March's budget total. |
| `Dashboard.OverlapsIffCommonDay` | finance_app/views.py:92-96 | For a budget with start ≤ end, the filter start_date ≤ end_of_month and end_date ≥ start_of_month holds exactly when the budget's range and the month share a day. |
| `Dashboard.ChartShowsActiveCategories` | finance_app/views.py:104-122 | A category is charted exactly when it is the user's own and has an expense dated in the month or a budget overlapping the month. |
| `Dashboard.BuildCategoryData` | finance_app/views.py:105-125 | The category loop gives three parallel lists of equal length. They follow the charted categories in iteration order: name, month spending, overlapping budget total. |
| `Dashboard.LatestFirst` | finance_app/views.py:84 | `order_by('-date')[:k]` returns min(k, n) of the given rows (as a multiset), latest first. No row left out is dated after a row taken. |
| `Dashboard.RecentTransactions` | finance_app/views.py:84 | The recent list is drawn from the user's own transactions and holds five of them, or all if fewer. It is latest first, and no transaction of the user left out is dated after one shown. |
| `Dashboard.BuildDashboard` | finance_app/views.py:79-135 | The dashboard context holds the month's expense and income totals, the overlapping budget total, balance = income − expenses, the chart lists and the recent transactions. |
| `Dashboard.BalanceIsMonthIncomeMinusExpenses` | finance_app/views.py:132 | The balance is the user's income minus the user's expenses dated in today's calendar month. |
| `Views.ExpenseListIsConsistent` | finance_app/views.py:69-75 | The expense list shows exactly the user's expenses, each as often as it is stored, latest first. Its total is the sum of exactly the listed rows. |
| `Views.ApiSummaryCoversEveryTransaction` | finance_app/views.py:364-371 | Income total plus expense total counts each of the user's transactions once. Each total is 0 exactly when the user has no transaction of that kind. |
| `Views.NewExpenseAddsToExpenseTotals` | finance_app/views.py:59-62 | Saving a new expense raises every expense total that admits it by its amount and leaves every income total unchanged. |
| `Views.AddExpense` | finance_app/views.py:55-64 | A valid expense form is saved as a new transaction of the requester with is_income = false, keeping the store invariant. An invalid form changes nothing. |

## Left out

- Authentication, registration, login/logout, profile and account deletion (finance_app/views.py:34-53, 373-392): session and framework glue. The users table and the cascades from deleting a user are not modelled.
- The generic list/create/update/delete class views, pagination and flash messages: framework plumbing. The uniqueness lemmas in `Forms` cover what their budget saves rely on. These views do not restrict updates or deletes of categories and budgets to the owner; that is not modelled.
- Rendering: HTML templates, `JsonResponse`, the pandas CSV writer, the reportlab PDF of `download_report`, and `view_report`. The report outcome keeps only the chosen format and the rows.
- The GET branches of `generate_report` and `add_expense`: they render an empty form, and the default report range is today − 30 days.
- `BudgetListView`'s progress annotation and the stored `Budget.spent` column: nothing populates that column, so spent is always computed live. The `float(...)` conversions of the chart values are also left out: chart values stay exact cents.
- finance_app/templatetags/math_filters.py, the static JavaScript, urls.py, admin.py, serializers.py and the migration: they hold no money logic.
- The `transaction_type` field: no computation reads it.
- The `Report` table: no modelled flow writes or reads it.
- `PercentOf`: gives the exact quotient. Python's `Decimal` division rounds to 28 significant digits.
- `CleanExpense`: amounts are whole cents, so the rejection of a third decimal place cannot arise.
- `CleanReport`: date parsing is not modelled; an unparseable date is a missing one.
- `EndOfMonth`: years are unbounded. Python's `date` stops at 9999, so the dashboard in December 9999 raises `OverflowError`; the model instead returns the last day of that month.
- `Store.Store.CreateDefaultCategories`: requires that a created user owns no category yet, which holds for a freshly inserted user. The `IntegrityError` otherwise raised is not modelled.
- `Forms.BudgetClean`: the field validators that run before `clean` are not modelled. These include the 2-cent lower bound on the amount (see `Forms.MinFormCents`) and the required fields. A field that failed them is a missing field.
- `Reports.Group`: puts the expense group of a month before its income group. The database leaves that order open.
- Row order of `Category.objects.filter(user=...)` is the table order. No ordering is declared.
