/**
 * `generate_report` of finance_app/views.py: the user's transactions in
 * [start_date, end_date] grouped by (year, month, is_income), each group
 * summed, the groups ordered by year and then month. Only the monthly
 * report type assigns the data the response is built from.
 */
module Reports {
  import opened Wrappers
  import opened Calendar
  import opened Aggregate
  import opened Records
  import opened Forms

  /** `ExtractYear('date')`, `ExtractMonth('date')` and `is_income`. */
  datatype GroupKey = GroupKey(year: int, month: int, isIncome: bool)

  /** One row of the report: its group and `total=Sum('amount')`. */
  datatype ReportRow = ReportRow(key: GroupKey, total: int)

  function KeyOf(t: Transaction): GroupKey {
    GroupKey(t.date.year, t.date.month, t.isIncome)
  }

  /**
   * The order of the rows: `order_by('year', 'month')`. The database leaves
   * the two groups of one month in no particular order; this model puts
   * the expense group first.
   */
  predicate KeyBefore(a: GroupKey, b: GroupKey) {
    a.year < b.year ||
    (a.year == b.year && (a.month < b.month || (a.month == b.month && !a.isIncome && b.isIncome)))
  }

  lemma KeyBeforeTransitive(a: GroupKey, b: GroupKey, c: GroupKey)
    requires KeyBefore(a, b) && KeyBefore(b, c)
    ensures KeyBefore(a, c)
  {
  }

  /** Strictly increasing keys: ordered, and no group twice. */
  predicate Ordered(rows: seq<ReportRow>) {
    forall i, j :: 0 <= i < j < |rows| ==> KeyBefore(rows[i].key, rows[j].key)
  }

  /** The groups that have a row. */
  function RowKeys(rows: seq<ReportRow>): set<GroupKey> {
    set i | 0 <= i < |rows| :: rows[i].key
  }

  /** The groups the transactions fall into. */
  function GroupsOf(ts: seq<Transaction>): set<GroupKey> {
    set i | 0 <= i < |ts| :: KeyOf(ts[i])
  }

  /** The sum of the transactions of one group. */
  function GroupTotal(ts: seq<Transaction>, k: GroupKey): int {
    Total(Select(ts, (t: Transaction) => KeyOf(t) == k), TransactionAmount)
  }

  /** The total of group `k` among the rows, 0 if it has no row. */
  function TotalOf(rows: seq<ReportRow>, k: GroupKey): int {
    if rows == [] then 0
    else if rows[0].key == k then rows[0].total
    else TotalOf(rows[1..], k)
  }

  lemma {:induction false} TotalOfAbsent(rows: seq<ReportRow>, k: GroupKey)
    requires k !in RowKeys(rows)
    ensures TotalOf(rows, k) == 0
    decreases |rows|
  {
    if rows != [] {
      assert rows[0].key in RowKeys(rows);
      assert RowKeys(rows[1..]) <= RowKeys(rows) by {
        forall k' | k' in RowKeys(rows[1..]) ensures k' in RowKeys(rows) {
          var i :| 0 <= i < |rows[1..]| && rows[1..][i].key == k';
          assert rows[i + 1].key == k';
        }
      }
      TotalOfAbsent(rows[1..], k);
    }
  }

  lemma RowKeysCons(r: ReportRow, rows: seq<ReportRow>)
    ensures RowKeys([r] + rows) == {r.key} + RowKeys(rows)
  {
    var xs := [r] + rows;
    forall k | k in RowKeys(xs) ensures k in {r.key} + RowKeys(rows) {
      var i :| 0 <= i < |xs| && xs[i].key == k;
      if i == 0 {
        assert xs[0] == r;
      } else {
        assert xs[i] == rows[i - 1];
      }
    }
    forall k | k in RowKeys(rows) ensures k in RowKeys(xs) {
      var i :| 0 <= i < |rows| && rows[i].key == k;
      assert xs[i + 1].key == k;
    }
    assert xs[0] == r;
    assert r.key in RowKeys(xs);
  }

  /** Every later row of an ordered report has a key after the first row's. */
  lemma OrderedHead(rows: seq<ReportRow>)
    requires Ordered(rows) && rows != []
    ensures rows[0].key !in RowKeys(rows[1..])
  {
    forall i | 0 <= i < |rows[1..]| ensures rows[1..][i].key != rows[0].key {
      assert KeyBefore(rows[0].key, rows[i + 1].key);
    }
  }

  /**
   * Adding one transaction of group `k` to an ordered report: the group's
   * row grows by `amount` (or is created in its place), every other row is
   * left as it was.
   */
  function AddToGroups(rows: seq<ReportRow>, k: GroupKey, amount: int): (r: seq<ReportRow>)
    requires Ordered(rows)
    ensures Ordered(r)
    ensures r != [] && (r[0].key == k || (rows != [] && r[0].key == rows[0].key))
    ensures RowKeys(r) == RowKeys(rows) + {k}
    ensures forall k' :: TotalOf(r, k') == TotalOf(rows, k') + (if k' == k then amount else 0)
  {
    if rows == [] then
      var r := [ReportRow(k, amount)];
      assert RowKeys(r) == {k} by { RowKeysCons(ReportRow(k, amount), []); }
      r
    else if rows[0].key == k then
      var r := [rows[0].(total := rows[0].total + amount)] + rows[1..];
      RowKeysCons(rows[0], rows[1..]);
      RowKeysCons(r[0], rows[1..]);
      assert rows == [rows[0]] + rows[1..];
      assert r[1..] == rows[1..];
      r
    else if KeyBefore(k, rows[0].key) then
      var r := [ReportRow(k, amount)] + rows;
      RowKeysCons(ReportRow(k, amount), rows);
      assert k !in RowKeys(rows) by {
        if k in RowKeys(rows) {
          var i :| 0 <= i < |rows| && rows[i].key == k;
          if i > 0 {
            KeyBeforeTransitive(k, rows[0].key, rows[i].key);
          }
          assert false;
        }
      }
      TotalOfAbsent(rows, k);
      assert r[1..] == rows;
      forall j | 0 < j < |r| ensures KeyBefore(k, r[j].key) {
        if j > 1 {
          KeyBeforeTransitive(k, rows[0].key, rows[j - 1].key);
        }
      }
      r
    else
      var rest := AddToGroups(rows[1..], k, amount);
      var r := [rows[0]] + rest;
      RowKeysCons(rows[0], rows[1..]);
      RowKeysCons(rows[0], rest);
      assert rows == [rows[0]] + rows[1..];
      assert KeyBefore(rows[0].key, rest[0].key);
      forall j | 0 <= j < |rest| ensures KeyBefore(rows[0].key, rest[j].key) {
        if j > 0 {
          KeyBeforeTransitive(rows[0].key, rest[0].key, rest[j].key);
        }
      }
      assert r[1..] == rest;
      r
  }

  lemma GroupsOfCons(ts: seq<Transaction>)
    requires ts != []
    ensures GroupsOf(ts) == {KeyOf(ts[0])} + GroupsOf(ts[1..])
  {
    forall k | k in GroupsOf(ts) ensures k in {KeyOf(ts[0])} + GroupsOf(ts[1..]) {
      var i :| 0 <= i < |ts| && KeyOf(ts[i]) == k;
      if i > 0 {
        assert KeyOf(ts[1..][i - 1]) == k;
      }
    }
    forall k | k in GroupsOf(ts[1..]) ensures k in GroupsOf(ts) {
      var i :| 0 <= i < |ts[1..]| && KeyOf(ts[1..][i]) == k;
      assert KeyOf(ts[i + 1]) == k;
    }
  }

  /**
   * `.values('month', 'year', 'is_income').annotate(total=Sum('amount'))
   *  .order_by('year', 'month')`: one ordered row per group present, whose
   * total is the sum of that group.
   */
  function Group(ts: seq<Transaction>): (rows: seq<ReportRow>)
    ensures Ordered(rows)
    ensures RowKeys(rows) == GroupsOf(ts)
    ensures forall k :: TotalOf(rows, k) == GroupTotal(ts, k)
  {
    if ts == [] then
      assert GroupsOf(ts) == {};
      assert RowKeys([]) == {};
      []
    else
      GroupsOfCons(ts);
      AddToGroups(Group(ts[1..]), KeyOf(ts[0]), ts[0].amount)
  }

  /** In an ordered report, a row's own total is the total of its group. */
  lemma {:induction false} TotalOfRow(rows: seq<ReportRow>, i: nat)
    requires Ordered(rows) && i < |rows|
    ensures TotalOf(rows, rows[i].key) == rows[i].total
    decreases i
  {
    if i > 0 {
      assert KeyBefore(rows[0].key, rows[i].key);
      TotalOfRow(rows[1..], i - 1);
    }
  }

  /** An ordered report has as many rows as groups. */
  lemma {:induction false} OrderedRowCount(rows: seq<ReportRow>)
    requires Ordered(rows)
    ensures |RowKeys(rows)| == |rows|
    decreases |rows|
  {
    if rows != [] {
      OrderedRowCount(rows[1..]);
      OrderedHead(rows);
      RowKeysCons(rows[0], rows[1..]);
      assert rows == [rows[0]] + rows[1..];
    }
  }

  /** The report's filter: the user's transactions in [start, end], both kinds. */
  function ReportFilter(user: UserId, start: Date, end: Date): TxFilter {
    TxFilter(user, None, None, Some((start, end)))
  }

  /** The monthly report's data. */
  function MonthlyReport(ts: seq<Transaction>, user: UserId, start: Date, end: Date): seq<ReportRow> {
    Group(Query(ts, ReportFilter(user, start, end)))
  }

  /**
   * The monthly report has exactly one row per (year, month, is_income)
   * among the user's transactions dated in [start, end]; each row's total
   * is the sum of that group; rows go by year, then month, ascending.
   */
  lemma MonthlyReportIsGrouping(ts: seq<Transaction>, user: UserId, start: Date, end: Date)
    ensures var rows := MonthlyReport(ts, user, start, end);
            var selected := Query(ts, ReportFilter(user, start, end));
            && |rows| == |GroupsOf(selected)|
            && RowKeys(rows) == GroupsOf(selected)
            && (forall i :: 0 <= i < |rows| ==> rows[i].total == GroupTotal(selected, rows[i].key))
            && (forall i, j :: 0 <= i < j < |rows| ==>
                  rows[i].key.year < rows[j].key.year ||
                  (rows[i].key.year == rows[j].key.year && rows[i].key.month <= rows[j].key.month))
  {
    var rows := MonthlyReport(ts, user, start, end);
    var selected := Query(ts, ReportFilter(user, start, end));
    OrderedRowCount(rows);
    forall i | 0 <= i < |rows| ensures rows[i].total == GroupTotal(selected, rows[i].key) {
      TotalOfRow(rows, i);
    }
  }

  /** A group key belongs to the report exactly when one of the user's transactions in range has it. */
  lemma MonthlyReportGroups(ts: seq<Transaction>, user: UserId, start: Date, end: Date, k: GroupKey)
    ensures k in RowKeys(MonthlyReport(ts, user, start, end)) <==>
            exists i :: 0 <= i < |ts| && ts[i].user == user && InRange(ts[i].date, start, end) && KeyOf(ts[i]) == k
  {
    var f := ReportFilter(user, start, end);
    var p := (t: Transaction) => Matches(f, t);
    var selected := Query(ts, f);
    SelectMembers(ts, p);
    if k in GroupsOf(selected) {
      var j :| 0 <= j < |selected| && KeyOf(selected[j]) == k;
      assert selected[j] in ts;
    }
    if exists i :: 0 <= i < |ts| && ts[i].user == user && InRange(ts[i].date, start, end) && KeyOf(ts[i]) == k {
      var i :| 0 <= i < |ts| && ts[i].user == user && InRange(ts[i].date, start, end) && KeyOf(ts[i]) == k;
      assert ts[i] in selected;
      var j :| 0 <= j < |selected| && selected[j] == ts[i];
      assert KeyOf(selected[j]) == k;
    }
  }

  /** A reversed range (start after end) selects nothing: the report is empty. */
  lemma ReversedRangeIsEmpty(ts: seq<Transaction>, user: UserId, start: Date, end: Date)
    requires !Le(start, end)
    ensures MonthlyReport(ts, user, start, end) == []
  {
    var f := ReportFilter(user, start, end);
    forall i | 0 <= i < |ts| ensures !Matches(f, ts[i]) {
      if InRange(ts[i].date, start, end) {
        LeTransitive(start, ts[i].date, end);
      }
    }
    SelectNone(ts, (t: Transaction) => Matches(f, t));
  }

  /**
   * Two January expenses (100.00 and 50.00) and one February income
   * (200.00) make two rows: January's expenses, 150.00, then February's
   * income, 200.00.
   */
  lemma ThreeTransactionExample(user: UserId)
    ensures var ts := [
              Transaction(1, user, 10000, None, "", Date(2024, 1, 5), false),
              Transaction(2, user, 5000, None, "", Date(2024, 1, 20), false),
              Transaction(3, user, 20000, None, "", Date(2024, 2, 1), true)];
            MonthlyReport(ts, user, Date(2024, 1, 1), Date(2024, 12, 31)) ==
              [ReportRow(GroupKey(2024, 1, false), 15000), ReportRow(GroupKey(2024, 2, true), 20000)]
  {
    var ts := [
      Transaction(1, user, 10000, None, "", Date(2024, 1, 5), false),
      Transaction(2, user, 5000, None, "", Date(2024, 1, 20), false),
      Transaction(3, user, 20000, None, "", Date(2024, 2, 1), true)];
    var f := ReportFilter(user, Date(2024, 1, 1), Date(2024, 12, 31));
    SelectAll(ts, (t: Transaction) => Matches(f, t));
    assert ts[1..][1..] == [ts[2]];
    assert Group([ts[2]]) == [ReportRow(GroupKey(2024, 2, true), 20000)];
    assert Group(ts[1..]) == [ReportRow(GroupKey(2024, 1, false), 5000), ReportRow(GroupKey(2024, 2, true), 20000)];
  }

  /** What answering a report request leads to. */
  datatype ReportOutcome =
    | FormRedisplayed(error: FormError)
    | Rendered(format: ReportFormat, rows: seq<ReportRow>)
    | DataUnbound

  /**
   * `generate_report` for a POST: an invalid form is shown again; a monthly
   * report answers with its rows as JSON, CSV or the result page; any other
   * report type reaches the render with `data` never assigned and fails.
   */
  function GenerateReport(ts: seq<Transaction>, user: UserId, req: ReportRequest): (o: ReportOutcome)
    ensures o.FormRedisplayed? <==> CleanReport(req).Err?
    ensures o.DataUnbound? <==> CleanReport(req).Ok? && req.reportType != "monthly"
    ensures o.Rendered? ==>
              (req.reportType == "monthly" && ReportFormatCode(o.format) == req.format &&
               o.rows == MonthlyReport(ts, user, req.start.value, req.end.value))
  {
    match CleanReport(req)
    case Err(e) => FormRedisplayed(e)
    case Ok(form) =>
      if form.reportType == Monthly then
        Rendered(form.format, MonthlyReport(ts, user, form.start, form.end))
      else
        DataUnbound
  }
}
