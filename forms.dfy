/**
 * The validation of finance_app/forms.py: the category choices offered to
 * a user, the expense form, the budget form's uniqueness check in `clean`,
 * and the report form's choice fields.
 */
module Forms {
  import opened Wrappers
  import opened Calendar
  import opened Aggregate
  import opened Records

  datatype FormError =
    | AmountOutOfRange
    | InvalidDate
    | InvalidCategoryChoice
    | MissingField
    | InvalidChoice
    | DuplicateBudget

  // ---- the category field of TransactionForm, ExpenseForm and BudgetForm ----

  /**
   * `fields['category'].queryset`: only the user's categories when the form
   * is given a user, the whole table (the field's default) otherwise.
   */
  function CategoryChoices(cs: seq<Category>, user: Option<UserId>): seq<Category> {
    if user.Some? then CategoriesOf(cs, user.value) else cs
  }

  /** A form given a user offers exactly that user's categories. */
  lemma CategoryChoicesAreTheUsers(cs: seq<Category>, user: UserId)
    ensures forall c :: c in CategoryChoices(cs, Some(user)) <==> c in cs && c.user == user
  {
    SelectMembers(cs, (c: Category) => c.user == user);
  }

  /** The category field accepts a primary key only from its queryset. */
  predicate OffersCategory(cs: seq<Category>, user: Option<UserId>, id: CategoryId) {
    exists c :: c in CategoryChoices(cs, user) && c.id == id
  }

  // ---- ExpenseForm ----

  /**
   * The least amount `MinValueValidator(0.01)` lets through a model form.
   * The validator tests `value < 0.01` with the cleaned `Decimal` on the
   * left and the float 0.01 on the right; Python compares the two exactly,
   * and the float lies slightly above one cent, so one cent is rejected
   * and two cents is the least amount accepted.
   */
  const MinFormCents: int := 2

  /** The amount field of a model form: the validator above and `max_digits=12, decimal_places=2`. */
  predicate FormAmountOk(cents: int) {
    MinFormCents <= cents < CentsBound
  }

  /** The fields of ExpenseForm: amount, optional category, date, description. */
  datatype ExpenseInput = ExpenseInput(amount: int, category: Option<CategoryId>, date: Date, description: string)

  /**
   * `ExpenseForm.is_valid()`: the model's amount validators, a real date,
   * and a category (optional) taken from the offered choices.
   */
  function CleanExpense(cs: seq<Category>, user: Option<UserId>, input: ExpenseInput): (r: Result<ExpenseInput, FormError>)
    ensures r.Ok? <==>
              FormAmountOk(input.amount) && Valid(input.date) &&
              (input.category.Some? ==> OffersCategory(cs, user, input.category.value))
    ensures r.Ok? ==> r.value == input
  {
    if !FormAmountOk(input.amount) then Err(AmountOutOfRange)
    else if !Valid(input.date) then Err(InvalidDate)
    else if input.category.Some? && !OffersCategory(cs, user, input.category.value) then Err(InvalidCategoryChoice)
    else Ok(input)
  }

  /** One cent fails the amount validator; two cents pass it. */
  lemma OneCentIsRejected(cs: seq<Category>, user: Option<UserId>, date: Date)
    requires Valid(date)
    ensures CleanExpense(cs, user, ExpenseInput(1, None, date, "")) == Err(AmountOutOfRange)
    ensures CleanExpense(cs, user, ExpenseInput(2, None, date, "")).Ok?
  {
  }

  /** An expense accepted for a user carries one of that user's own categories, if any. */
  lemma AcceptedExpenseCategoryIsOwn(cs: seq<Category>, user: UserId, input: ExpenseInput)
    requires CleanExpense(cs, Some(user), input).Ok? && input.category.Some?
    ensures exists c :: c in cs && c.user == user && c.id == input.category.value
  {
    CategoryChoicesAreTheUsers(cs, user);
  }

  // ---- BudgetForm.clean ----

  /** The cleaned fields of BudgetForm; a field that failed its own validation is missing. */
  datatype BudgetInput = BudgetInput(category: Option<CategoryId>, amount: int, start: Option<Date>, end: Option<Date>)

  /**
   * A stored budget the new data would duplicate: same user, category,
   * start and end date, and not the budget being edited.
   */
  predicate Clashes(b: Budget, user: UserId, data: BudgetInput, instance: Option<BudgetId>) {
    && b.user == user
    && data.category == Some(b.category)
    && data.start == Some(b.start)
    && data.end == Some(b.end)
    && instance != Some(b.id)
  }

  /**
   * `BudgetForm.clean`: when the user, category, start and end are all
   * present it rejects data that duplicates another budget; otherwise, and
   * when nothing clashes, it hands the data back unchanged. No order of
   * start and end is demanded.
   */
  function BudgetClean(user: Option<UserId>, data: BudgetInput, instance: Option<BudgetId>, bs: seq<Budget>): (r: Result<BudgetInput, FormError>)
    ensures r.Ok? ==> r.value == data
    ensures r.Err? ==> r.error == DuplicateBudget
    ensures r.Err? <==>
              user.Some? && data.category.Some? && data.start.Some? && data.end.Some? &&
              exists i :: 0 <= i < |bs| && Clashes(bs[i], user.value, data, instance)
  {
    if user.Some? && data.category.Some? && data.start.Some? && data.end.Some? then
      var clash := (b: Budget) => Clashes(b, user.value, data, instance);
      var existing := Select(bs, clash);
      SelectNonEmptyIff(bs, clash);
      if |existing| > 0 then Err(DuplicateBudget) else Ok(data)
    else
      Ok(data)
  }

  /** The budget row that saving complete, cleaned data produces. */
  function BudgetFrom(id: BudgetId, user: UserId, data: BudgetInput): Budget
    requires data.category.Some? && data.start.Some? && data.end.Some?
  {
    Budget(id, user, data.category.value, data.amount, data.start.value, data.end.value)
  }

  /** Creating a budget that passed `clean` never breaks `unique_together`. */
  lemma CleanNewBudgetKeepsUnique(bs: seq<Budget>, user: UserId, data: BudgetInput, id: BudgetId)
    requires BudgetsUnique(bs)
    requires data.category.Some? && data.start.Some? && data.end.Some?
    requires BudgetClean(Some(user), data, None, bs).Ok?
    ensures BudgetsUnique(bs + [BudgetFrom(id, user, data)])
  {
    var b := BudgetFrom(id, user, data);
    forall i | 0 <= i < |bs| ensures BudgetKey(bs[i]) != BudgetKey(b) {
      assert !Clashes(bs[i], user, data, None);
    }
    AppendKeepsDistinct(bs, [b], BudgetKey);
  }

  /** Editing budget `bs[j]` with data that passed `clean` never breaks `unique_together`. */
  lemma CleanEditedBudgetKeepsUnique(bs: seq<Budget>, j: nat, data: BudgetInput)
    requires BudgetsUnique(bs) && j < |bs|
    requires data.category.Some? && data.start.Some? && data.end.Some?
    requires forall i :: 0 <= i < |bs| && i != j ==> bs[i].id != bs[j].id
    requires BudgetClean(Some(bs[j].user), data, Some(bs[j].id), bs).Ok?
    ensures BudgetsUnique(bs[j := BudgetFrom(bs[j].id, bs[j].user, data)])
  {
    var b := BudgetFrom(bs[j].id, bs[j].user, data);
    var bs' := bs[j := b];
    forall i, k | 0 <= i < k < |bs'| ensures BudgetKey(bs'[i]) != BudgetKey(bs'[k]) {
      if i == j {
        assert !Clashes(bs[k], bs[j].user, data, Some(bs[j].id));
      } else if k == j {
        assert !Clashes(bs[i], bs[j].user, data, Some(bs[j].id));
      }
    }
  }

  /** Re-saving an existing budget unchanged passes `clean`: the edited row is excluded. */
  lemma ResaveUnchangedBudgetPasses(bs: seq<Budget>, j: nat)
    requires BudgetsUnique(bs) && j < |bs|
    requires forall i :: 0 <= i < |bs| && i != j ==> bs[i].id != bs[j].id
    ensures BudgetClean(Some(bs[j].user),
                        BudgetInput(Some(bs[j].category), bs[j].amount, Some(bs[j].start), Some(bs[j].end)),
                        Some(bs[j].id), bs).Ok?
  {
    var data := BudgetInput(Some(bs[j].category), bs[j].amount, Some(bs[j].start), Some(bs[j].end));
    forall i | 0 <= i < |bs| ensures !Clashes(bs[i], bs[j].user, data, Some(bs[j].id)) {
      if i < j {
        assert BudgetKey(bs[i]) != BudgetKey(bs[j]);
      } else if i > j {
        assert BudgetKey(bs[j]) != BudgetKey(bs[i]);
      }
    }
  }

  // ---- ReportForm ----

  datatype ReportType = Monthly | Yearly | CategoryBreakdown

  datatype ReportFormat = Html | Json | Csv

  /** The value each report type has among the form's choices. */
  function ReportTypeCode(t: ReportType): string {
    match t
    case Monthly => "monthly"
    case Yearly => "yearly"
    case CategoryBreakdown => "category"
  }

  function ReportFormatCode(f: ReportFormat): string {
    match f
    case Html => "html"
    case Json => "json"
    case Csv => "csv"
  }

  /** `report_type = ChoiceField(choices=REPORT_TYPES)`: one of three values. */
  function ParseReportType(s: string): (r: Option<ReportType>)
    ensures r.Some? <==> s == "monthly" || s == "yearly" || s == "category"
    ensures r.Some? ==> ReportTypeCode(r.value) == s
  {
    if s == "monthly" then Some(Monthly)
    else if s == "yearly" then Some(Yearly)
    else if s == "category" then Some(CategoryBreakdown)
    else None
  }

  /** `format = ChoiceField(...)`: one of html, json, csv. */
  function ParseReportFormat(s: string): (r: Option<ReportFormat>)
    ensures r.Some? <==> s == "html" || s == "json" || s == "csv"
    ensures r.Some? ==> ReportFormatCode(r.value) == s
  {
    if s == "html" then Some(Html)
    else if s == "json" then Some(Json)
    else if s == "csv" then Some(Csv)
    else None
  }

  /** Every choice value parses back to its choice. */
  lemma ChoiceCodesRoundTrip(t: ReportType, f: ReportFormat)
    ensures ParseReportType(ReportTypeCode(t)) == Some(t)
    ensures ParseReportFormat(ReportFormatCode(f)) == Some(f)
  {
  }

  /** The submitted report form; a date that did not parse is missing. */
  datatype ReportRequest = ReportRequest(reportType: string, start: Option<Date>, end: Option<Date>, format: string)

  datatype ReportForm = ReportForm(reportType: ReportType, start: Date, end: Date, format: ReportFormat)

  /** `ReportForm.is_valid()`: both choices known and both dates present; no order of the dates is demanded. */
  function CleanReport(req: ReportRequest): (r: Result<ReportForm, FormError>)
    ensures r.Ok? <==> ParseReportType(req.reportType).Some? && ParseReportFormat(req.format).Some?
                       && req.start.Some? && req.end.Some?
    ensures r.Ok? ==> ReportTypeCode(r.value.reportType) == req.reportType
                      && ReportFormatCode(r.value.format) == req.format
                      && Some(r.value.start) == req.start && Some(r.value.end) == req.end
  {
    match (ParseReportType(req.reportType), ParseReportFormat(req.format), req.start, req.end)
    case (Some(t), Some(f), Some(s), Some(e)) => Ok(ReportForm(t, s, e, f))
    case (None, _, _, _) => Err(InvalidChoice)
    case (_, None, _, _) => Err(InvalidChoice)
    case (_, _, _, _) => Err(MissingField)
  }
}
