/** Proleptic Gregorian dates, as far as add_months needs them. */
module Calendar {

  datatype Date = Date(year: int, month: int, day: int) {
    ghost predicate Valid() {
      1 <= month <= 12 && 1 <= day <= MonthLength(year, month)
    }

    /** Months since year 0; two dates i months apart differ by i here. */
    function MonthIndex(): int {
      12 * year + month - 1
    }

    predicate Before(that: Date) {
      || MonthIndex() < that.MonthIndex()
      || (MonthIndex() == that.MonthIndex() && day < that.day)
    }
  }

  predicate Leap(year: int) {
    year % 4 == 0 && (year % 100 != 0 || year % 400 == 0)
  }

  function MonthLength(year: int, month: int): (length: int)
    ensures 28 <= length <= 31
  {
    if month == 2 then (if Leap(year) then 29 else 28)
    else if month in {4, 6, 9, 11} then 30
    else 31
  }

  /** Days before 1 March of the year, from 1 March of year 0. */
  function DaysBefore(year: int): int {
    365 * year + year / 4 - year / 100 + year / 400
  }

  /** Days since 1 March of year 0, counted without a table of months: years start in March, and from there month m
      begins after (153 * m + 2) / 5 days. */
  function DayNumber(year: int, month: int, day: int): int {
    var y, m := if month <= 2 then year - 1 else year, (month + 9) % 12;
    DaysBefore(y) + (153 * m + 2) / 5 + day - 1
  }

  /** Each month is as long as the first of the next one is away. */
  lemma MonthsFillTheYear(year: int, month: int)
    requires 1 <= month <= 12
    ensures
      var following := if month == 12 then DayNumber(year + 1, 1, 1) else DayNumber(year, month + 1, 1);
      MonthLength(year, month) == following - DayNumber(year, month, 1)
  {
    if month == 2 {
      YearLength(year);
    } else {
      FromMarchOn((month + 9) % 12);
    }
  }

  /** Months 0 to 10 of a year that starts in March. */
  lemma FromMarchOn(m: int)
    requires 0 <= m <= 10
    ensures (153 * (m + 1) + 2) / 5 - (153 * m + 2) / 5 == if m in {1, 3, 6, 8} then 30 else 31
  {
  }

  lemma YearLength(year: int)
    ensures DaysBefore(year) - DaysBefore(year - 1) == if Leap(year) then 366 else 365
  {
    LeapDay(year);
  }

  lemma LeapDay(year: int)
    ensures year / 4 - (year - 1) / 4 == if year % 4 == 0 then 1 else 0
    ensures year / 100 - (year - 1) / 100 == if year % 100 == 0 then 1 else 0
    ensures year / 400 - (year - 1) / 400 == if year % 400 == 0 then 1 else 0
    ensures year % 400 == 0 ==> year % 100 == 0
    ensures year % 100 == 0 ==> year % 4 == 0
  {
  }

  function Min(a: int, b: int): int {
    if a <= b then a else b
  }

  /** add_months: the divisions floor, as Python's do. */
  function AddMonths(base: Date, months: int): (due: Date)
    requires base.Valid()
    ensures due.Valid()
    ensures due.MonthIndex() == base.MonthIndex() + months
    ensures due.day <= base.day
    ensures base.day <= MonthLength(due.year, due.month) ==> due.day == base.day
    ensures base.day > MonthLength(due.year, due.month) ==> due.day == MonthLength(due.year, due.month)
  {
    var index := base.month - 1 + months;
    var year := base.year + index / 12;
    var month := index % 12 + 1;
    Date(year, month, Min(base.day, MonthLength(year, month)))
  }

  lemma AddMonthsIncreases(base: Date, i: int, j: int)
    requires base.Valid() && i < j
    ensures AddMonths(base, i).Before(AddMonths(base, j))
  {
  }

  /** Due dates are computed from the start date, never from the previous due date:
      chaining would lose days exactly when a shorter month comes in between. */
  lemma ChainingDriftsExactlyOnShortMonths(base: Date, i: int, j: int)
    requires base.Valid()
    ensures
      var via := AddMonths(base, i);
      var direct := AddMonths(base, i + j);
      && AddMonths(via, j).day <= direct.day
      && (AddMonths(via, j) == direct <==> direct.day <= MonthLength(via.year, via.month))
  {
    var via := AddMonths(base, i);
    var direct := AddMonths(base, i + j);
    var chained := AddMonths(via, j);
    SameMonth(direct, chained);
  }

  lemma SameMonth(a: Date, b: Date)
    requires a.Valid() && b.Valid() && a.MonthIndex() == b.MonthIndex()
    ensures a.year == b.year && a.month == b.month
  {
  }
}
