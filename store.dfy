/**
 * The database tables of finance_app/models.py as one object whose rows the
 * operations change in place: the `unique_together` constraints and the
 * foreign keys form its invariant, deleting a category applies the
 * `on_delete` rules (SET_NULL on transactions, CASCADE on budgets), and
 * the `post_save` receiver of finance_app/signals.py seeds a new user's
 * categories.
 */
module Store {
  import opened Wrappers
  import opened Calendar
  import opened Aggregate
  import opened Records
  import opened BudgetEvaluation

  function CategoryIdOf(c: Category): CategoryId { c.id }

  function TransactionIdOf(t: Transaction): TransactionId { t.id }

  function BudgetIdOf(b: Budget): BudgetId { b.id }

  predicate HasCategory(cs: seq<Category>, id: CategoryId) {
    exists c :: c in cs && c.id == id
  }

  // ---- on_delete rules ----

  /** The category table without the deleted row. */
  function RemoveCategory(cs: seq<Category>, id: CategoryId): seq<Category> {
    Select(cs, (c: Category) => c.id != id)
  }

  /** `on_delete=models.SET_NULL`: every transaction stays, those of the deleted category lose it. */
  function NullCategory(ts: seq<Transaction>, id: CategoryId): (r: seq<Transaction>)
    ensures |r| == |ts|
    ensures forall i :: 0 <= i < |ts| ==>
              r[i] == if ts[i].category == Some(id) then ts[i].(category := None) else ts[i]
  {
    if ts == [] then []
    else
      var t := if ts[0].category == Some(id) then ts[0].(category := None) else ts[0];
      [t] + NullCategory(ts[1..], id)
  }

  /** `on_delete=models.CASCADE`: the budgets of the deleted category go with it. */
  function CascadeBudgets(bs: seq<Budget>, id: CategoryId): seq<Budget> {
    Select(bs, (b: Budget) => b.category != id)
  }

  /**
   * After the delete no budget refers to the category, and every budget of
   * another category is still there.
   */
  lemma CascadeKeepsExactlyOthers(bs: seq<Budget>, id: CategoryId)
    ensures forall b :: b in CascadeBudgets(bs, id) <==> b in bs && b.category != id
  {
    SelectMembers(bs, (b: Budget) => b.category != id);
  }

  /**
   * Any transaction sum that does not filter on the deleted category (the
   * dashboard's, the API's, the expense list's, or another category's) is
   * the same before and after the delete.
   */
  lemma {:induction false} DeleteKeepsSums(ts: seq<Transaction>, id: CategoryId, f: TxFilter)
    requires f.category != Some(id)
    ensures SumOf(NullCategory(ts, id), f) == SumOf(ts, f)
    decreases |ts|
  {
    if ts != [] {
      DeleteKeepsSums(ts[1..], id, f);
      assert NullCategory(ts, id)[1..] == NullCategory(ts[1..], id);
    }
  }

  /** Budgets that survive the delete are evaluated exactly as before. */
  lemma DeleteKeepsBudgetEvaluation(b: Budget, ts: seq<Transaction>, id: CategoryId)
    requires b.category != id
    ensures Spent(b, NullCategory(ts, id)) == Spent(b, ts)
    ensures Remaining(b, NullCategory(ts, id)) == Remaining(b, ts)
    ensures PercentageSpent(b, NullCategory(ts, id)) == PercentageSpent(b, ts)
  {
    DeleteKeepsSums(ts, id, SpentFilter(b));
  }

  // ---- signals.py ----

  /** `DEFAULT_CATEGORIES`, in order: (name, is_income). */
  const DefaultCategories: seq<(string, bool)> := [("Groceries", false), ("Rent", false), ("Salary", true)]

  /** The rows `create_default_categories` inserts for `user`, with ids from `firstId` on. */
  function SeededCategories(user: UserId, firstId: CategoryId): (r: seq<Category>)
    ensures r == [Category(firstId, "Groceries", user, false),
                  Category(firstId + 1, "Rent", user, false),
                  Category(firstId + 2, "Salary", user, true)]
  {
    seq(|DefaultCategories|, i requires 0 <= i < |DefaultCategories| =>
      Category(firstId + i, DefaultCategories[i].0, user, DefaultCategories[i].1))
  }

  /**
   * Seeding a user who owns no category yet keeps `(name, user)` unique:
   * the seeded names differ from each other and nobody else's rows share
   * the new user.
   */
  lemma SeedingKeepsCategoriesUnique(cs: seq<Category>, user: UserId, firstId: CategoryId)
    requires CategoriesUnique(cs)
    requires forall i :: 0 <= i < |cs| ==> cs[i].user != user
    ensures CategoriesUnique(cs + SeededCategories(user, firstId))
  {
    var seeded := SeededCategories(user, firstId);
    assert seeded[0].name == "Groceries" && seeded[1].name == "Rent" && seeded[2].name == "Salary";
    AppendKeepsDistinct(cs, seeded, CategoryKey);
  }

  /** The seeded rows take fresh primary keys. */
  lemma SeedingKeepsIdsFresh(cs: seq<Category>, user: UserId, firstId: CategoryId)
    requires KeysDistinct(cs, CategoryIdOf)
    requires forall i :: 0 <= i < |cs| ==> cs[i].id < firstId
    ensures KeysDistinct(cs + SeededCategories(user, firstId), CategoryIdOf)
    ensures forall i :: 0 <= i < |cs + SeededCategories(user, firstId)| ==>
              (cs + SeededCategories(user, firstId))[i].id < firstId + |DefaultCategories|
  {
    AppendKeepsDistinct(cs, SeededCategories(user, firstId), CategoryIdOf);
  }

  // ---- the table constraints, one table at a time ----

  /** Category rows: `(name, user)` unique, distinct primary keys below the next id. */
  ghost predicate CategoriesOk(cs: seq<Category>, nextId: CategoryId) {
    && CategoriesUnique(cs)
    && KeysDistinct(cs, CategoryIdOf)
    && (forall i :: 0 <= i < |cs| ==> cs[i].id < nextId)
  }

  /** Transaction rows: distinct keys, validated fields, and a category that exists when set. */
  ghost predicate TransactionsOk(ts: seq<Transaction>, cs: seq<Category>, nextId: TransactionId) {
    && KeysDistinct(ts, TransactionIdOf)
    && (forall i :: 0 <= i < |ts| ==>
          && ts[i].id < nextId
          && ValidTransaction(ts[i])
          && (ts[i].category.Some? ==> HasCategory(cs, ts[i].category.value)))
  }

  /** Budget rows: the four-column uniqueness, distinct keys, validated fields, an existing category. */
  ghost predicate BudgetsOk(bs: seq<Budget>, cs: seq<Category>, nextId: BudgetId) {
    && BudgetsUnique(bs)
    && KeysDistinct(bs, BudgetIdOf)
    && (forall i :: 0 <= i < |bs| ==>
          && bs[i].id < nextId
          && ValidBudget(bs[i])
          && HasCategory(cs, bs[i].category))
  }

  /** Removing a category row keeps the category constraints. */
  lemma RemoveKeepsCategoriesOk(cs: seq<Category>, id: CategoryId, nextId: CategoryId)
    requires CategoriesOk(cs, nextId)
    ensures CategoriesOk(RemoveCategory(cs, id), nextId)
  {
    var keep := (c: Category) => c.id != id;
    SelectMembers(cs, keep);
    SelectKeepsDistinct(cs, keep, CategoryKey);
    SelectKeepsDistinct(cs, keep, CategoryIdOf);
    var rs := RemoveCategory(cs, id);
    forall i | 0 <= i < |rs| ensures rs[i].id < nextId {
      assert rs[i] in rs;
    }
  }

  /** After SET_NULL every transaction still refers to an existing category, or to none. */
  lemma NullKeepsTransactionsOk(ts: seq<Transaction>, cs: seq<Category>, id: CategoryId, nextId: TransactionId)
    requires TransactionsOk(ts, cs, nextId)
    ensures TransactionsOk(NullCategory(ts, id), RemoveCategory(cs, id), nextId)
  {
    var keep := (c: Category) => c.id != id;
    SelectMembers(cs, keep);
    var ns := NullCategory(ts, id);
    var rs := RemoveCategory(cs, id);
    forall i, j | 0 <= i < j < |ns| ensures ns[i].id != ns[j].id {
      assert ns[i].id == ts[i].id && ns[j].id == ts[j].id;
    }
    forall i | 0 <= i < |ns| && ns[i].category.Some? ensures HasCategory(rs, ns[i].category.value) {
      var c :| c in cs && c.id == ts[i].category.value;
      assert c in rs;
    }
  }

  /** After CASCADE every remaining budget still refers to an existing category. */
  lemma CascadeKeepsBudgetsOk(bs: seq<Budget>, cs: seq<Category>, id: CategoryId, nextId: BudgetId)
    requires BudgetsOk(bs, cs, nextId)
    ensures BudgetsOk(CascadeBudgets(bs, id), RemoveCategory(cs, id), nextId)
  {
    var keep := (c: Category) => c.id != id;
    var keepBudget := (b: Budget) => b.category != id;
    SelectMembers(cs, keep);
    SelectMembers(bs, keepBudget);
    SelectKeepsDistinct(bs, keepBudget, BudgetKey);
    SelectKeepsDistinct(bs, keepBudget, BudgetIdOf);
    var ks := CascadeBudgets(bs, id);
    var rs := RemoveCategory(cs, id);
    forall i | 0 <= i < |ks| ensures ks[i].id < nextId && ValidBudget(ks[i]) && HasCategory(rs, ks[i].category) {
      assert ks[i] in ks;
      assert ks[i] in bs;
      var k :| 0 <= k < |bs| && bs[k] == ks[i];
      var c :| c in cs && c.id == bs[k].category;
      assert c in rs;
    }
  }

  /** Adding category rows never breaks a foreign key of a transaction. */
  lemma MoreCategoriesKeepTransactionsOk(ts: seq<Transaction>, cs: seq<Category>, more: seq<Category>, nextId: TransactionId)
    requires TransactionsOk(ts, cs, nextId)
    ensures TransactionsOk(ts, cs + more, nextId)
  {
    forall i | 0 <= i < |ts| && ts[i].category.Some? ensures HasCategory(cs + more, ts[i].category.value) {
      assert HasCategory(cs, ts[i].category.value);
      var c :| c in cs && c.id == ts[i].category.value;
      assert c in cs + more;
    }
  }

  /** Adding category rows never breaks a foreign key of a budget. */
  lemma MoreCategoriesKeepBudgetsOk(bs: seq<Budget>, cs: seq<Category>, more: seq<Category>, nextId: BudgetId)
    requires BudgetsOk(bs, cs, nextId)
    ensures BudgetsOk(bs, cs + more, nextId)
  {
    forall i | 0 <= i < |bs| ensures HasCategory(cs + more, bs[i].category) {
      assert HasCategory(cs, bs[i].category);
      var c :| c in cs && c.id == bs[i].category;
      assert c in cs + more;
    }
  }

  /** Appending a validated transaction with a fresh key and an existing category keeps the constraints. */
  lemma AppendKeepsTransactionsOk(ts: seq<Transaction>, cs: seq<Category>, nextId: TransactionId, t: Transaction)
    requires TransactionsOk(ts, cs, nextId)
    requires t.id == nextId && ValidTransaction(t)
    requires t.category.Some? ==> HasCategory(cs, t.category.value)
    ensures TransactionsOk(ts + [t], cs, nextId + 1)
  {
    AppendKeepsDistinct(ts, [t], TransactionIdOf);
  }

  class Store {
    var categories: seq<Category>
    var transactions: seq<Transaction>
    var budgets: seq<Budget>
    var nextCategoryId: CategoryId
    var nextTransactionId: TransactionId
    var nextBudgetId: BudgetId

    /** The table constraints: uniqueness, primary keys, foreign keys and field validators. */
    ghost predicate Valid()
      reads this
    {
      && CategoriesOk(categories, nextCategoryId)
      && TransactionsOk(transactions, categories, nextTransactionId)
      && BudgetsOk(budgets, categories, nextBudgetId)
    }

    constructor ()
      ensures Valid()
      ensures categories == [] && transactions == [] && budgets == []
      ensures nextCategoryId == 1 && nextTransactionId == 1 && nextBudgetId == 1
    {
      categories, transactions, budgets := [], [], [];
      // Django's automatic primary keys start at 1; `if self.instance.pk` in
      // BudgetForm.clean relies on no saved row having key 0.
      nextCategoryId, nextTransactionId, nextBudgetId := 1, 1, 1;
    }

    /** Deleting category `id` with its `on_delete` rules. */
    method DeleteCategory(id: CategoryId)
      requires Valid()
      modifies this
      ensures Valid()
      ensures categories == RemoveCategory(old(categories), id)
      ensures transactions == NullCategory(old(transactions), id)
      ensures budgets == CascadeBudgets(old(budgets), id)
      ensures nextCategoryId == old(nextCategoryId) && nextTransactionId == old(nextTransactionId)
      ensures nextBudgetId == old(nextBudgetId)
    {
      RemoveKeepsCategoriesOk(categories, id, nextCategoryId);
      NullKeepsTransactionsOk(transactions, categories, id, nextTransactionId);
      CascadeKeepsBudgetsOk(budgets, categories, id, nextBudgetId);
      categories, transactions, budgets :=
        RemoveCategory(categories, id), NullCategory(transactions, id), CascadeBudgets(budgets, id);
    }

    /**
     * `create_default_categories`: on the `post_save` of a newly created
     * user, insert the default categories one at a time; an update of an
     * existing user inserts nothing.
     */
    method CreateDefaultCategories(user: UserId, created: bool)
      requires Valid()
      requires created ==> forall i :: 0 <= i < |categories| ==> categories[i].user != user
      modifies this
      ensures Valid()
      ensures categories == old(categories) + (if created then SeededCategories(user, old(nextCategoryId)) else [])
      ensures nextCategoryId == old(nextCategoryId) + (if created then |DefaultCategories| else 0)
      ensures transactions == old(transactions) && budgets == old(budgets)
      ensures nextTransactionId == old(nextTransactionId) && nextBudgetId == old(nextBudgetId)
    {
      if created {
        ghost var before := categories;
        ghost var seeded := SeededCategories(user, nextCategoryId);
        SeedingKeepsCategoriesUnique(before, user, nextCategoryId);
        SeedingKeepsIdsFresh(before, user, nextCategoryId);
        MoreCategoriesKeepTransactionsOk(transactions, before, seeded, nextTransactionId);
        MoreCategoriesKeepBudgetsOk(budgets, before, seeded, nextBudgetId);
        for k := 0 to |DefaultCategories|
          invariant categories == before + seeded[..k]
          invariant nextCategoryId == old(nextCategoryId) + k
          invariant transactions == old(transactions) && budgets == old(budgets)
          invariant nextTransactionId == old(nextTransactionId) && nextBudgetId == old(nextBudgetId)
        {
          var (name, isIncome) := DefaultCategories[k];
          categories := categories + [Category(nextCategoryId, name, user, isIncome)];
          assert categories == before + seeded[..k + 1];
          nextCategoryId := nextCategoryId + 1;
        }
        assert seeded[..|DefaultCategories|] == seeded;
      }
    }
  }
}
