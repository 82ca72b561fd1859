/**
 * The `dashboard` view of finance_app/views.py: this month's income and
 * expense totals and their balance, the budgets whose range meets the
 * month, the latest transactions, and the per-category chart lists.
 */
module Dashboard {
  import opened Wrappers
  import opened Calendar
  import opened Aggregate
  import opened Records

  /** The month filter of the two totals: one user, one income flag, dated in [start_of_month, end_of_month]. */
  function MonthFilter(user: UserId, isIncome: bool, today: Date): TxFilter
    requires Valid(today)
  {
    TxFilter(user, None, Some(isIncome), Some((StartOfMonth(today), EndOfMonth(today))))
  }

  /** The month filters select exactly the user's transactions of the calendar month of `today`. */
  lemma MonthFilterIsCalendarMonth(user: UserId, isIncome: bool, today: Date, t: Transaction)
    requires Valid(today) && Valid(t.date)
    ensures Matches(MonthFilter(user, isIncome, today), t) <==>
              t.user == user && t.isIncome == isIncome &&
              t.date.year == today.year && t.date.month == today.month
  {
    MonthBounds(today);
  }

  /** `start_date__lte=end_of_month, end_date__gte=start_of_month`. */
  predicate Overlaps(b: Budget, monthStart: Date, monthEnd: Date) {
    Le(b.start, monthEnd) && Le(monthStart, b.end)
  }

  /**
   * For a budget whose start is not after its end, the filter holds exactly
   * when some day lies both in the budget's range and in the month.
   */
  lemma OverlapsIffCommonDay(b: Budget, monthStart: Date, monthEnd: Date)
    requires Valid(b.start) && Valid(b.end) && Valid(monthStart) && Valid(monthEnd)
    requires Le(b.start, b.end) && Le(monthStart, monthEnd)
    ensures Overlaps(b, monthStart, monthEnd) <==>
              exists d :: Valid(d) && InRange(d, b.start, b.end) && InRange(d, monthStart, monthEnd)
  {
    if Overlaps(b, monthStart, monthEnd) {
      var d := Latest(b.start, monthStart);
      assert Valid(d) && InRange(d, b.start, b.end) && InRange(d, monthStart, monthEnd);
    }
    if exists d :: Valid(d) && InRange(d, b.start, b.end) && InRange(d, monthStart, monthEnd) {
      var d :| Valid(d) && InRange(d, b.start, b.end) && InRange(d, monthStart, monthEnd);
      LeTransitive(b.start, d, monthEnd);
      LeTransitive(monthStart, d, b.end);
    }
  }

  /**
   * `BudgetForm.clean` does not order a budget's dates, and the filter does
   * not check them either: a budget whose end precedes its start covers no
   * day at all, yet when both dates fall in the month it passes the filter
   * and its amount is counted in the month's budget total.
   */
  lemma ReversedBudgetIsCounted()
    ensures var b := Budget(1, 1, 1, 10000, Date(2024, 3, 20), Date(2024, 3, 10));
            var today := Date(2024, 3, 15);
            && (forall d :: !InRange(d, b.start, b.end))
            && BudgetedInMonth([b], 1, None, StartOfMonth(today), EndOfMonth(today)) == 10000
  {
    var b := Budget(1, 1, 1, 10000, Date(2024, 3, 20), Date(2024, 3, 10));
    var today := Date(2024, 3, 15);
    MonthBounds(today);
    assert Overlaps(b, StartOfMonth(today), EndOfMonth(today));
    assert Select([b], (b: Budget) => BudgetCounts(b, 1, None, StartOfMonth(today), EndOfMonth(today))) == [b];
  }

  /** The budgets of `user` (of one category when given) that meet the month. */
  predicate BudgetCounts(b: Budget, user: UserId, category: Option<CategoryId>, monthStart: Date, monthEnd: Date) {
    b.user == user && (category.Some? ==> b.category == category.value) && Overlaps(b, monthStart, monthEnd)
  }

  /** `Budget.objects.filter(...).aggregate(total=Sum('amount'))['total'] or 0`. */
  function BudgetedInMonth(bs: seq<Budget>, user: UserId, category: Option<CategoryId>, monthStart: Date, monthEnd: Date): int {
    Total(Select(bs, (b: Budget) => BudgetCounts(b, user, category, monthStart, monthEnd)), BudgetAmount)
  }

  /** `actual_spending` of one category: its expenses dated in the month. */
  function CategorySpending(ts: seq<Transaction>, user: UserId, c: CategoryId, monthStart: Date, monthEnd: Date): int {
    SumOf(ts, TxFilter(user, Some(c), Some(false), Some((monthStart, monthEnd))))
  }

  /** `if actual_spending > 0 or budgeted_amount > 0`. */
  function ShownInChart(ts: seq<Transaction>, bs: seq<Budget>, user: UserId, monthStart: Date, monthEnd: Date): Category -> bool {
    (c: Category) =>
      CategorySpending(ts, user, c.id, monthStart, monthEnd) > 0 ||
      BudgetedInMonth(bs, user, Some(c.id), monthStart, monthEnd) > 0
  }

  /** The categories the chart lists, in the order the user's categories are iterated. */
  function ChartCategories(cs: seq<Category>, ts: seq<Transaction>, bs: seq<Budget>, user: UserId, monthStart: Date, monthEnd: Date): seq<Category> {
    Select(CategoriesOf(cs, user), ShownInChart(ts, bs, user, monthStart, monthEnd))
  }

  /**
   * With valid amounts, a category of the user is in the chart exactly when
   * it has an expense dated in the month or a budget meeting the month.
   */
  lemma ChartShowsActiveCategories(cs: seq<Category>, ts: seq<Transaction>, bs: seq<Budget>, user: UserId, monthStart: Date, monthEnd: Date, c: Category)
    requires AmountsValid(ts)
    requires forall i :: 0 <= i < |bs| ==> ValidAmount(bs[i].amount)
    ensures c in ChartCategories(cs, ts, bs, user, monthStart, monthEnd) <==>
              c in cs && c.user == user &&
              ((exists i :: 0 <= i < |ts| && Matches(TxFilter(user, Some(c.id), Some(false), Some((monthStart, monthEnd))), ts[i])) ||
               (exists i :: 0 <= i < |bs| && BudgetCounts(bs[i], user, Some(c.id), monthStart, monthEnd)))
  {
    var own := (x: Category) => x.user == user;
    SelectMembers(cs, own);
    SelectMembers(CategoriesOf(cs, user), ShownInChart(ts, bs, user, monthStart, monthEnd));
    SumOfZeroIffEmpty(ts, TxFilter(user, Some(c.id), Some(false), Some((monthStart, monthEnd))));
    SelectedTotalZeroIff(bs, (b: Budget) => BudgetCounts(b, user, Some(c.id), monthStart, monthEnd), BudgetAmount);
  }

  /** `category_data`: three parallel lists. */
  datatype ChartData = ChartData(labels: seq<string>, expenses: seq<int>, budgets: seq<int>)

  /** The three lists run parallel to `shown`, one entry per category. */
  predicate ListsFollow(data: ChartData, shown: seq<Category>, ts: seq<Transaction>, bs: seq<Budget>, user: UserId, monthStart: Date, monthEnd: Date) {
    && |data.labels| == |shown| && |data.expenses| == |shown| && |data.budgets| == |shown|
    && forall i :: 0 <= i < |shown| ==>
         && data.labels[i] == shown[i].name
         && data.expenses[i] == CategorySpending(ts, user, shown[i].id, monthStart, monthEnd)
         && data.budgets[i] == BudgetedInMonth(bs, user, Some(shown[i].id), monthStart, monthEnd)
  }

  /** Appending one category's entries to the three lists keeps them parallel to the charted categories. */
  lemma ListsFollowExtend(data: ChartData, shown: seq<Category>, c: Category, ts: seq<Transaction>, bs: seq<Budget>,
                          user: UserId, monthStart: Date, monthEnd: Date)
    requires ListsFollow(data, shown, ts, bs, user, monthStart, monthEnd)
    ensures ListsFollow(ChartData(data.labels + [c.name],
                                  data.expenses + [CategorySpending(ts, user, c.id, monthStart, monthEnd)],
                                  data.budgets + [BudgetedInMonth(bs, user, Some(c.id), monthStart, monthEnd)]),
                        shown + [c], ts, bs, user, monthStart, monthEnd)
  {
  }

  /**
   * The loop over the user's categories that appends, for each category
   * with spending or a budget this month, its name, its spending and its
   * budgeted amount. The three lists stay parallel and follow the chart's
   * categories one for one.
   */
  method BuildCategoryData(cs: seq<Category>, ts: seq<Transaction>, bs: seq<Budget>, user: UserId, monthStart: Date, monthEnd: Date)
    returns (data: ChartData)
    ensures ListsFollow(data, ChartCategories(cs, ts, bs, user, monthStart, monthEnd), ts, bs, user, monthStart, monthEnd)
  {
    var categories := CategoriesOf(cs, user);
    var keep := ShownInChart(ts, bs, user, monthStart, monthEnd);
    var labels, expenses, budgets := [], [], [];
    for k := 0 to |categories|
      invariant ListsFollow(ChartData(labels, expenses, budgets), Select(categories[..k], keep), ts, bs, user, monthStart, monthEnd)
    {
      var category := categories[k];
      var actualSpending := CategorySpending(ts, user, category.id, monthStart, monthEnd);
      var budgetedAmount := BudgetedInMonth(bs, user, Some(category.id), monthStart, monthEnd);
      assert categories[..k + 1] == categories[..k] + [category];
      SelectAppend(categories[..k], [category], keep);
      assert keep(category) == (actualSpending > 0 || budgetedAmount > 0);
      if actualSpending > 0 || budgetedAmount > 0 {
        assert Select([category], keep) == [category];
        ListsFollowExtend(ChartData(labels, expenses, budgets), Select(categories[..k], keep), category,
                          ts, bs, user, monthStart, monthEnd);
        labels := labels + [category.name];
        expenses := expenses + [actualSpending];
        budgets := budgets + [budgetedAmount];
      } else {
        assert Select([category], keep) == [];
        assert Select(categories[..k], keep) + [] == Select(categories[..k], keep);
      }
    }
    assert categories[..|categories|] == categories;
    data := ChartData(labels, expenses, budgets);
  }

  /**
   * The first `n` rows of a latest-first ordering of `rows` are its latest:
   * no row left behind is later than any row taken.
   */
  lemma TakeIsLatest(rows: seq<Transaction>, sorted: seq<Transaction>, n: nat)
    requires DateDescending(sorted) && multiset(sorted) == multiset(rows) && n <= |sorted|
    ensures |sorted[..n]| == n && DateDescending(sorted[..n])
    ensures multiset(sorted[..n]) <= multiset(rows)
    ensures forall t, i :: t in multiset(rows) - multiset(sorted[..n]) && 0 <= i < n ==> Le(t.date, sorted[..n][i].date)
  {
    var taken, left := sorted[..n], sorted[n..];
    assert sorted == taken + left;
    assert multiset(rows) == multiset(taken) + multiset(left);
    forall t, i | t in multiset(rows) - multiset(taken) && 0 <= i < n
      ensures Le(t.date, taken[i].date)
    {
      assert t in left;
      var j :| 0 <= j < |left| && left[j] == t;
      assert sorted[n + j] == t && sorted[i] == taken[i];
    }
  }

  /** `order_by('-date')[:k]`: the `k` latest rows, latest first. */
  function LatestFirst(rows: seq<Transaction>, k: nat): (r: seq<Transaction>)
    ensures |r| == if |rows| < k then |rows| else k
    ensures DateDescending(r)
    ensures multiset(r) <= multiset(rows)
    ensures forall t, i :: t in multiset(rows) - multiset(r) && 0 <= i < |r| ==> Le(t.date, r[i].date)
  {
    var sorted := OrderByDateDesc(rows);
    assert |sorted| == |rows| by {
      assert |multiset(sorted)| == |multiset(rows)|;
    }
    var n := if |sorted| < k then |sorted| else k;
    TakeIsLatest(rows, sorted, n);
    sorted[..n]
  }

  /** `Transaction.objects.filter(user=request.user).order_by('-date')[:5]`: the user's five latest transactions. */
  function RecentTransactions(ts: seq<Transaction>, user: UserId): (r: seq<Transaction>)
    ensures |r| <= 5 && DateDescending(r)
    ensures forall i :: 0 <= i < |r| ==> r[i].user == user
    ensures |r| == if |Query(ts, TxFilter(user, None, None, None))| < 5 then |Query(ts, TxFilter(user, None, None, None))| else 5
    ensures multiset(r) <= multiset(Query(ts, TxFilter(user, None, None, None)))
    ensures forall t, i :: t in multiset(Query(ts, TxFilter(user, None, None, None))) - multiset(r) && 0 <= i < |r| ==>
              Le(t.date, r[i].date)
  {
    var mine := Query(ts, TxFilter(user, None, None, None));
    var r := LatestFirst(mine, 5);
    OwnRowsAreTheUsers(ts, user);
    forall i | 0 <= i < |r| ensures r[i].user == user {
      assert r[i] in multiset(r);
    }
    r
  }

  /** Every row the user filter selects belongs to the user. */
  lemma OwnRowsAreTheUsers(ts: seq<Transaction>, user: UserId)
    ensures forall t :: t in multiset(Query(ts, TxFilter(user, None, None, None))) ==> t.user == user
  {
    var mine := Query(ts, TxFilter(user, None, None, None));
    SelectMembers(ts, (t: Transaction) => Matches(TxFilter(user, None, None, None), t));
    forall t: Transaction | t in multiset(mine) ensures t.user == user {
      assert t in mine;
    }
  }

  /** What the dashboard page is rendered with. */
  datatype DashboardContext = DashboardContext(
    transactions: seq<Transaction>,
    totalIncome: int,
    transactionExpenses: int,
    budgetExpenses: int,
    balance: int,
    categoryData: ChartData,
    currentMonth: Date)

  /** `dashboard`, with `today` given instead of read from the clock. */
  method BuildDashboard(cs: seq<Category>, ts: seq<Transaction>, bs: seq<Budget>, user: UserId, today: Date)
    returns (ctx: DashboardContext)
    requires Valid(today)
    ensures ctx.currentMonth == Date(today.year, today.month, 1)
    ensures ctx.transactions == RecentTransactions(ts, user)
    ensures ctx.transactionExpenses == SumOf(ts, MonthFilter(user, false, today))
    ensures ctx.totalIncome == SumOf(ts, MonthFilter(user, true, today))
    ensures ctx.budgetExpenses == BudgetedInMonth(bs, user, None, StartOfMonth(today), EndOfMonth(today))
    ensures ctx.balance == ctx.totalIncome - ctx.transactionExpenses
    ensures ListsFollow(ctx.categoryData, ChartCategories(cs, ts, bs, user, StartOfMonth(today), EndOfMonth(today)),
                        ts, bs, user, StartOfMonth(today), EndOfMonth(today))
  {
    var startOfMonth := StartOfMonth(today);
    var endOfMonth := EndOfMonth(today);
    var recent := RecentTransactions(ts, user);
    var transactionExpenses := SumOf(ts, MonthFilter(user, false, today));
    var budgetExpenses := BudgetedInMonth(bs, user, None, startOfMonth, endOfMonth);
    var totalIncome := SumOf(ts, MonthFilter(user, true, today));
    var categoryData := BuildCategoryData(cs, ts, bs, user, startOfMonth, endOfMonth);
    ctx := DashboardContext(recent, totalIncome, transactionExpenses, budgetExpenses,
                            totalIncome - transactionExpenses, categoryData, startOfMonth);
  }

  /**
   * The balance is this month's income minus this month's expenses of the
   * user, where "this month" is the calendar month of `today`.
   */
  lemma BalanceIsMonthIncomeMinusExpenses(ts: seq<Transaction>, user: UserId, today: Date)
    requires Valid(today)
    requires forall i :: 0 <= i < |ts| ==> Valid(ts[i].date)
    ensures SumOf(ts, MonthFilter(user, true, today)) - SumOf(ts, MonthFilter(user, false, today)) ==
            Total(Select(ts, (t: Transaction) => t.user == user && t.isIncome && t.date.year == today.year && t.date.month == today.month), TransactionAmount)
            - Total(Select(ts, (t: Transaction) => t.user == user && !t.isIncome && t.date.year == today.year && t.date.month == today.month), TransactionAmount)
  {
    MonthBounds(today);
    SelectAgree(ts, (t: Transaction) => Matches(MonthFilter(user, true, today), t),
                    (t: Transaction) => t.user == user && t.isIncome && t.date.year == today.year && t.date.month == today.month);
    SelectAgree(ts, (t: Transaction) => Matches(MonthFilter(user, false, today), t),
                    (t: Transaction) => t.user == user && !t.isIncome && t.date.year == today.year && t.date.month == today.month);
  }
}
