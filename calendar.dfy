/**
 * Calendar dates as the source's `datetime.date` uses them: the proleptic
 * Gregorian calendar, compared field by field, with `date + timedelta(days=n)`,
 * `date - timedelta(days=1)` and `date.replace(day=...)`.
 */
module Calendar {

  datatype Date = Date(year: int, month: int, day: int)

  predicate IsLeapYear(y: int) {
    y % 4 == 0 && (y % 100 != 0 || y % 400 == 0)
  }

  function DaysInMonth(y: int, m: int): (n: int)
    ensures 28 <= n <= 31
    ensures m == 2 ==> (n == 29 <==> IsLeapYear(y))
  {
    if m == 2 then (if IsLeapYear(y) then 29 else 28)
    else if m == 4 || m == 6 || m == 9 || m == 11 then 30
    else 31
  }

  /** A date that exists in the calendar. */
  predicate Valid(d: Date) {
    1 <= d.month <= 12 && 1 <= d.day <= DaysInMonth(d.year, d.month)
  }

  /** `a <= b` on dates. */
  predicate Le(a: Date, b: Date) {
    a.year < b.year ||
    (a.year == b.year && (a.month < b.month || (a.month == b.month && a.day <= b.day)))
  }

  lemma LeTransitive(a: Date, b: Date, c: Date)
    requires Le(a, b) && Le(b, c)
    ensures Le(a, c)
  {
  }

  /** `lo <= d <= hi`, the inclusive range of the ORM's `date__range=[lo, hi]`. */
  predicate InRange(d: Date, lo: Date, hi: Date) {
    Le(lo, d) && Le(d, hi)
  }

  /** The later of two dates. */
  function Latest(a: Date, b: Date): (r: Date)
    ensures Le(a, r) && Le(b, r) && (r == a || r == b)
  {
    if Le(a, b) then b else a
  }

  /** `d + timedelta(days=1)`. */
  function NextDay(d: Date): (r: Date)
    requires Valid(d)
    ensures Valid(r) && Le(d, r) && r != d
  {
    if d.day < DaysInMonth(d.year, d.month) then Date(d.year, d.month, d.day + 1)
    else if d.month < 12 then Date(d.year, d.month + 1, 1)
    else Date(d.year + 1, 1, 1)
  }

  /** `d - timedelta(days=1)`. */
  function PrevDay(d: Date): (r: Date)
    requires Valid(d)
    ensures Valid(r) && Le(r, d) && r != d
  {
    if d.day > 1 then Date(d.year, d.month, d.day - 1)
    else if d.month > 1 then Date(d.year, d.month - 1, DaysInMonth(d.year, d.month - 1))
    else Date(d.year - 1, 12, 31)
  }

  /** `d + timedelta(days=n)`. */
  function AddDays(d: Date, n: nat): (r: Date)
    requires Valid(d)
    ensures Valid(r)
    decreases n
  {
    if n == 0 then d else AddDays(NextDay(d), n - 1)
  }

  /** `d.replace(day=1)`. */
  function FirstOfMonth(d: Date): (r: Date)
    requires Valid(d)
    ensures Valid(r) && r.year == d.year && r.month == d.month && r.day == 1
  {
    d.(day := 1)
  }

  /** `start_of_month = today.replace(day=1)` (finance_app/views.py:81). */
  function StartOfMonth(today: Date): Date
    requires Valid(today)
  {
    FirstOfMonth(today)
  }

  /**
   * `end_of_month = (start_of_month + timedelta(days=32)).replace(day=1)
   *                 - timedelta(days=1)` (finance_app/views.py:82).
   */
  function EndOfMonth(today: Date): Date
    requires Valid(today)
  {
    PrevDay(FirstOfMonth(AddDays(StartOfMonth(today), 32)))
  }

  lemma {:induction false} AddDaysWithinMonth(d: Date, k: nat)
    requires Valid(d) && d.day + k <= DaysInMonth(d.year, d.month)
    ensures AddDays(d, k) == Date(d.year, d.month, d.day + k)
    decreases k
  {
    if k > 0 {
      AddDaysWithinMonth(NextDay(d), k - 1);
    }
  }

  lemma {:induction false} AddDaysSplit(d: Date, j: nat, k: nat)
    requires Valid(d)
    ensures AddDays(d, j + k) == AddDays(AddDays(d, j), k)
    decreases j
  {
    if j > 0 {
      AddDaysSplit(NextDay(d), j - 1, k);
    }
  }

  /**
   * The month bounds the dashboard computes are the first and the last day
   * of today's month (December and February of leap years included), and
   * the inclusive range between them holds exactly the dates of that month.
   */
  lemma MonthBounds(today: Date)
    requires Valid(today)
    ensures StartOfMonth(today) == Date(today.year, today.month, 1)
    ensures EndOfMonth(today) == Date(today.year, today.month, DaysInMonth(today.year, today.month))
    ensures forall d :: Valid(d) ==>
              (InRange(d, StartOfMonth(today), EndOfMonth(today)) <==>
               d.year == today.year && d.month == today.month)
  {
    var first := StartOfMonth(today);
    var n := DaysInMonth(today.year, today.month);
    AddDaysWithinMonth(first, n - 1);
    AddDaysSplit(first, n - 1, 1);
    var next := NextDay(Date(today.year, today.month, n));
    assert AddDays(Date(today.year, today.month, n), 1) == next;
    assert next.day == 1;
    AddDaysSplit(first, n, 32 - n);
    AddDaysWithinMonth(next, 32 - n);
    assert FirstOfMonth(AddDays(first, 32)) == next;
  }
}
