/**
 * The `Budget` methods of finance_app/models.py: what has been spent
 * against a budget, what remains, and the percentage spent, all derived
 * from live transaction data (the stored `spent` column is not used).
 */
module BudgetEvaluation {
  import opened Wrappers
  import opened Calendar
  import opened Aggregate
  import opened Records

  /** The filter of `get_spent_amount`: the budget's user and category, expenses only, dated in [start, end]. */
  function SpentFilter(b: Budget): TxFilter {
    TxFilter(b.user, Some(b.category), Some(false), Some((b.start, b.end)))
  }

  /** A transaction that counts against the budget. */
  predicate CountsAgainst(b: Budget, t: Transaction) {
    t.user == b.user && t.category == Some(b.category) && !t.isIncome && Le(b.start, t.date) && Le(t.date, b.end)
  }

  /** `Budget.get_spent_amount`. */
  function Spent(b: Budget, ts: seq<Transaction>): int {
    SumOf(ts, SpentFilter(b))
  }

  /** `Budget.get_remaining_amount`: exact, in cents. */
  function Remaining(b: Budget, ts: seq<Transaction>): int {
    b.amount - Spent(b, ts)
  }

  /**
   * `0 if amount == 0 else min(100, spent / amount * 100)`, on exact
   * rationals: no division happens for a zero amount, the result never
   * exceeds 100, it is exactly 100 once the spending reaches the amount,
   * and below that it is the exact ratio.
   */
  function PercentOf(spent: int, amount: int): (p: real)
    ensures amount == 0 ==> p == 0.0
    ensures p <= 100.0
    ensures amount > 0 && spent >= 0 ==> p >= 0.0
    ensures amount > 0 ==> (p == 100.0 <==> spent >= amount)
    ensures amount > 0 && spent < amount ==> p * amount as real == 100.0 * spent as real
  {
    if amount == 0 then 0.0
    else
      var ratio := (spent as real / amount as real) * 100.0;
      if ratio < 100.0 then ratio else 100.0
  }

  /** `Budget.get_percentage_spent`. */
  function PercentageSpent(b: Budget, ts: seq<Transaction>): real {
    PercentOf(Spent(b, ts), b.amount)
  }

  /**
   * Spent is a sum over the expenses of the budget's user in the budget's
   * category dated within [start, end], both ends included; it is never
   * negative and is 0 exactly when no such expense exists.
   */
  lemma SpentIsZeroIffNothingCounts(b: Budget, ts: seq<Transaction>)
    requires AmountsValid(ts)
    ensures Spent(b, ts) >= 0
    ensures Spent(b, ts) == 0 <==> forall i :: 0 <= i < |ts| ==> !CountsAgainst(b, ts[i])
  {
    SumOfZeroIffEmpty(ts, SpentFilter(b));
    assert forall i :: 0 <= i < |ts| ==> (Matches(SpentFilter(b), ts[i]) <==> CountsAgainst(b, ts[i]));
  }

  /** For a stored budget (amount at least one cent) the percentage lies in [0, 100]. */
  lemma PercentageInRange(b: Budget, ts: seq<Transaction>)
    requires AmountsValid(ts) && ValidAmount(b.amount)
    ensures 0.0 <= PercentageSpent(b, ts) <= 100.0
  {
    SpentIsZeroIffNothingCounts(b, ts);
  }

  /**
   * Remaining and percentage tell the same story: for a positive amount
   * nothing remains exactly when the percentage is clamped at 100, and
   * otherwise remaining + spent gives back the amount.
   */
  lemma RemainingAgreesWithPercentage(b: Budget, ts: seq<Transaction>)
    requires b.amount > 0
    ensures Remaining(b, ts) <= 0 <==> PercentageSpent(b, ts) == 100.0
    ensures Remaining(b, ts) > 0 ==>
              PercentageSpent(b, ts) * b.amount as real == 100.0 * (b.amount - Remaining(b, ts)) as real
  {
  }

  /**
   * Budgets are isolated per user and per category: expenses of another
   * user, or of another category, change none of spent, remaining and
   * percentage.
   */
  lemma EvaluationIgnoresUnrelated(b: Budget, ts: seq<Transaction>, others: seq<Transaction>)
    requires forall i :: 0 <= i < |others| ==> others[i].user != b.user || others[i].category != Some(b.category)
    ensures Spent(b, ts + others) == Spent(b, ts)
    ensures Remaining(b, ts + others) == Remaining(b, ts)
    ensures PercentageSpent(b, ts + others) == PercentageSpent(b, ts)
  {
    SelectIgnores(ts, others, (t: Transaction) => Matches(SpentFilter(b), t));
  }
}
