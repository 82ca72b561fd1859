/**
 * The remaining money views of finance_app/views.py: `add_expense`, which
 * forces the new transaction to be the requester's expense before saving
 * it, `expense_list`, and the `api_summary` totals.
 */
module Views {
  import opened Wrappers
  import opened Calendar
  import opened Aggregate
  import opened Records
  import opened Forms
  import opened Store

  /** The user's expenses, whatever their date or category. */
  function ExpenseFilter(user: UserId): TxFilter {
    TxFilter(user, None, Some(false), None)
  }

  /** The user's income, whatever its date or category. */
  function IncomeFilter(user: UserId): TxFilter {
    TxFilter(user, None, Some(true), None)
  }

  datatype ExpenseListing = ExpenseListing(expenses: seq<Transaction>, totalExpenses: int)

  /** `expense_list`: the user's expenses latest first, and their total. */
  function ExpenseList(ts: seq<Transaction>, user: UserId): ExpenseListing {
    ExpenseListing(OrderByDateDesc(Query(ts, ExpenseFilter(user))), SumOf(ts, ExpenseFilter(user)))
  }

  /**
   * The expense list shows exactly the user's expenses, each as often as it
   * is stored, latest first, and its total is the sum of exactly the listed
   * rows (0 when there are none).
   */
  lemma ExpenseListIsConsistent(ts: seq<Transaction>, user: UserId)
    ensures DateDescending(ExpenseList(ts, user).expenses)
    ensures multiset(ExpenseList(ts, user).expenses) == multiset(Query(ts, ExpenseFilter(user)))
    ensures forall t :: t in ExpenseList(ts, user).expenses <==> t in ts && t.user == user && !t.isIncome
    ensures ExpenseList(ts, user).totalExpenses == Total(ExpenseList(ts, user).expenses, TransactionAmount)
  {
    var selected := Query(ts, ExpenseFilter(user));
    var expenses := OrderByDateDesc(selected);
    SelectMembers(ts, (t: Transaction) => Matches(ExpenseFilter(user), t));
    assert multiset(expenses) == multiset(selected);
    forall t ensures t in expenses <==> t in selected {
      assert t in expenses <==> t in multiset(expenses);
      assert t in selected <==> t in multiset(selected);
    }
    TotalPermutation(selected, expenses, TransactionAmount);
  }

  datatype Summary = Summary(totalIncome: int, totalExpenses: int)

  /** `api_summary`. */
  function ApiSummary(ts: seq<Transaction>, user: UserId): Summary {
    Summary(SumOf(ts, IncomeFilter(user)), SumOf(ts, ExpenseFilter(user)))
  }

  /**
   * The two API totals together count every transaction of the user exactly
   * once, and each is 0 exactly when the user has no transaction of that kind.
   */
  lemma ApiSummaryCoversEveryTransaction(ts: seq<Transaction>, user: UserId)
    requires AmountsValid(ts)
    ensures ApiSummary(ts, user).totalIncome + ApiSummary(ts, user).totalExpenses ==
            SumOf(ts, TxFilter(user, None, None, None))
    ensures ApiSummary(ts, user).totalIncome == 0 <==>
              forall i :: 0 <= i < |ts| ==> !(ts[i].user == user && ts[i].isIncome)
    ensures ApiSummary(ts, user).totalExpenses == 0 <==>
              forall i :: 0 <= i < |ts| ==> !(ts[i].user == user && !ts[i].isIncome)
  {
    IncomeExpenseSplit(ts, TxFilter(user, None, None, None));
    SumOfZeroIffEmpty(ts, IncomeFilter(user));
    SumOfZeroIffEmpty(ts, ExpenseFilter(user));
  }

  /**
   * Saving a new expense of `user` raises every expense sum of that user
   * that admits it by its amount, and leaves every income sum unchanged.
   */
  lemma NewExpenseAddsToExpenseTotals(ts: seq<Transaction>, e: Transaction, f: TxFilter)
    requires !e.isIncome
    ensures f.isIncome == Some(true) ==> SumOf(ts + [e], f) == SumOf(ts, f)
    ensures Matches(f, e) ==> SumOf(ts + [e], f) == SumOf(ts, f) + e.amount
  {
    var p := (t: Transaction) => Matches(f, t);
    SelectAppend(ts, [e], p);
    TotalAppend(Select(ts, p), Select([e], p), TransactionAmount);
  }

  /**
   * `add_expense` on a POST: a valid ExpenseForm is saved as a transaction
   * of the requester with `is_income` forced to false; an invalid one
   * changes nothing.
   */
  method AddExpense(store: Store, user: UserId, input: ExpenseInput) returns (r: Result<Transaction, FormError>)
    requires store.Valid()
    modifies store
    ensures store.Valid()
    ensures r.Ok? <==> CleanExpense(old(store.categories), Some(user), input).Ok?
    ensures r.Ok? ==>
              && r.value.user == user && !r.value.isIncome
              && r.value.amount == input.amount && r.value.category == input.category
              && r.value.date == input.date && r.value.description == input.description
              && store.transactions == old(store.transactions) + [r.value]
    ensures r.Err? ==> store.transactions == old(store.transactions)
    ensures r.Ok? ==> r.value.id == old(store.nextTransactionId)
    ensures store.nextTransactionId == old(store.nextTransactionId) + (if r.Ok? then 1 else 0)
    ensures store.categories == old(store.categories) && store.budgets == old(store.budgets)
    ensures store.nextCategoryId == old(store.nextCategoryId) && store.nextBudgetId == old(store.nextBudgetId)
  {
    var form := CleanExpense(store.categories, Some(user), input);
    if form.Err? {
      return Err(form.error);
    }
    // form.save(commit=False)
    var expense := Transaction(store.nextTransactionId, user, input.amount, input.category,
                               input.description, input.date, false);
    expense := expense.(user := user);
    expense := expense.(isIncome := false);
    if input.category.Some? {
      CategoryChoicesAreTheUsers(store.categories, user);
      var c :| c in CategoryChoices(store.categories, Some(user)) && c.id == input.category.value;
      assert HasCategory(store.categories, input.category.value);
    }
    AppendKeepsTransactionsOk(store.transactions, store.categories, store.nextTransactionId, expense);
    store.transactions := store.transactions + [expense];
    store.nextTransactionId := store.nextTransactionId + 1;
    r := Ok(expense);
  }
}
