/**
 * The records of finance_app/models.py: categories, transactions and
 * budgets, money as integer cents, the field constraints, the
 * `unique_together` rules, the default ordering of transactions, and the
 * AND-combined transaction filters every view builds.
 */
module Records {
  import opened Wrappers
  import opened Calendar
  import opened Aggregate

  type UserId = nat
  type CategoryId = nat
  type TransactionId = nat
  type BudgetId = nat

  /**
   * Amounts are stored in cents: `max_digits=12, decimal_places=2`, and
   * positive. The tables admit one cent; the forms' stricter lower bound
   * is `Forms.MinFormCents`.
   */
  const MinCents: int := 1
  const CentsBound: int := 1_000_000_000_000

  predicate ValidAmount(cents: int) {
    MinCents <= cents < CentsBound
  }

  datatype Category = Category(id: CategoryId, name: string, user: UserId, isIncome: bool)

  /** `category` is None once the category has been deleted (SET_NULL) or when left blank. */
  datatype Transaction = Transaction(
    id: TransactionId,
    user: UserId,
    amount: int,
    category: Option<CategoryId>,
    description: string,
    date: Date,
    isIncome: bool)

  datatype Budget = Budget(
    id: BudgetId,
    user: UserId,
    category: CategoryId,
    amount: int,
    start: Date,
    end: Date)

  function TransactionAmount(t: Transaction): int { t.amount }

  function BudgetAmount(b: Budget): int { b.amount }

  predicate ValidTransaction(t: Transaction) {
    ValidAmount(t.amount) && Valid(t.date)
  }

  predicate ValidBudget(b: Budget) {
    ValidAmount(b.amount) && Valid(b.start) && Valid(b.end)
  }

  /** The key of `unique_together = ('name', 'user')` on Category. */
  function CategoryKey(c: Category): (string, UserId) { (c.name, c.user) }

  predicate CategoriesUnique(cs: seq<Category>) {
    KeysDistinct(cs, CategoryKey)
  }

  /** The key of `unique_together = ('user', 'category', 'start_date', 'end_date')` on Budget. */
  function BudgetKey(b: Budget): (UserId, CategoryId, Date, Date) { (b.user, b.category, b.start, b.end) }

  predicate BudgetsUnique(bs: seq<Budget>) {
    KeysDistinct(bs, BudgetKey)
  }

  /** `Category.objects.filter(user=user)`. */
  function CategoriesOf(cs: seq<Category>, user: UserId): seq<Category> {
    Select(cs, (c: Category) => c.user == user)
  }

  /**
   * One AND-combined transaction filter: always the requesting user, and
   * optionally a category, an income flag and an inclusive date range.
   */
  datatype TxFilter = TxFilter(
    user: UserId,
    category: Option<CategoryId>,
    isIncome: Option<bool>,
    range: Option<(Date, Date)>)

  predicate Matches(f: TxFilter, t: Transaction) {
    && t.user == f.user
    && (f.category.Some? ==> t.category == f.category)
    && (f.isIncome.Some? ==> t.isIncome == f.isIncome.value)
    && (f.range.Some? ==> InRange(t.date, f.range.value.0, f.range.value.1))
  }

  /** `Transaction.objects.filter(...)` in table order. */
  function Query(ts: seq<Transaction>, f: TxFilter): seq<Transaction> {
    Select(ts, (t: Transaction) => Matches(f, t))
  }

  /** `Transaction.objects.filter(...).aggregate(total=Sum('amount'))['total'] or 0`. */
  function SumOf(ts: seq<Transaction>, f: TxFilter): int {
    Total(Query(ts, f), TransactionAmount)
  }

  /** Every amount in the table passes the field validators. */
  predicate AmountsValid(ts: seq<Transaction>) {
    forall i :: 0 <= i < |ts| ==> ValidAmount(ts[i].amount)
  }

  /**
   * A filtered sum is never negative and is 0 exactly when no transaction
   * matches the filter.
   */
  lemma SumOfZeroIffEmpty(ts: seq<Transaction>, f: TxFilter)
    requires AmountsValid(ts)
    ensures SumOf(ts, f) >= 0
    ensures SumOf(ts, f) == 0 <==> forall i :: 0 <= i < |ts| ==> !Matches(f, ts[i])
  {
    SelectedTotalZeroIff(ts, (t: Transaction) => Matches(f, t), TransactionAmount);
  }

  /**
   * Transactions of other users never reach a filtered sum, whatever their
   * category: adding them to the table leaves every user's sums unchanged.
   */
  lemma SumOfIgnoresOtherUsers(ts: seq<Transaction>, others: seq<Transaction>, f: TxFilter)
    requires forall i :: 0 <= i < |others| ==> others[i].user != f.user
    ensures SumOf(ts + others, f) == SumOf(ts, f)
    ensures SumOf(others + ts, f) == SumOf(ts, f)
  {
    SelectIgnores(ts, others, (t: Transaction) => Matches(f, t));
  }

  /** A filtered sum does not depend on the order of the table. */
  lemma SumOfPermutation(ts: seq<Transaction>, us: seq<Transaction>, f: TxFilter)
    requires multiset(ts) == multiset(us)
    ensures SumOf(ts, f) == SumOf(us, f)
  {
    var p := (t: Transaction) => Matches(f, t);
    SelectPermutation(ts, us, p);
    TotalPermutation(Select(ts, p), Select(us, p), TransactionAmount);
  }

  /**
   * Splitting a filter on the income flag: the income sum and the expense
   * sum together cover every matching transaction exactly once.
   */
  lemma {:induction false} IncomeExpenseSplit(ts: seq<Transaction>, f: TxFilter)
    requires f.isIncome == None
    ensures SumOf(ts, f.(isIncome := Some(true))) + SumOf(ts, f.(isIncome := Some(false))) == SumOf(ts, f)
    decreases |ts|
  {
    if ts != [] {
      IncomeExpenseSplit(ts[1..], f);
    }
  }

  // ---- Default ordering: `ordering = ['-date']` ----

  /** Later dates first. */
  predicate DateDescending(ts: seq<Transaction>) {
    forall i, j :: 0 <= i < j < |ts| ==> Le(ts[j].date, ts[i].date)
  }

  function InsertByDateDesc(t: Transaction, ts: seq<Transaction>): (r: seq<Transaction>)
    requires DateDescending(ts)
    ensures DateDescending(r)
    ensures multiset(r) == multiset(ts) + multiset{t}
    ensures |r| == |ts| + 1
    ensures r[0] == t || (ts != [] && r[0] == ts[0])
  {
    if ts == [] || Le(ts[0].date, t.date) then [t] + ts
    else
      assert ts == [ts[0]] + ts[1..];
      var rest := InsertByDateDesc(t, ts[1..]);
      assert Le(rest[0].date, ts[0].date);
      assert forall k :: 0 <= k < |rest| ==> Le(rest[k].date, ts[0].date) by {
        forall k | 0 <= k < |rest| ensures Le(rest[k].date, ts[0].date) {
          if k > 0 {
            LeTransitive(rest[k].date, rest[0].date, ts[0].date);
          }
        }
      }
      [ts[0]] + rest
  }

  /**
   * `order_by('-date')`: the same transactions, latest first. Transactions
   * of equal date keep their table order (the database leaves it open).
   */
  function OrderByDateDesc(ts: seq<Transaction>): (r: seq<Transaction>)
    ensures DateDescending(r)
    ensures multiset(r) == multiset(ts)
  {
    if ts == [] then []
    else
      assert ts == [ts[0]] + ts[1..];
      InsertByDateDesc(ts[0], OrderByDateDesc(ts[1..]))
  }
}
