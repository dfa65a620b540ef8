/** Dates of the proleptic Gregorian calendar and their day numbers, as in Python's
    datetime module. Years begin at 1. */
module Calendar {

  datatype Date = Date(y: nat, m: nat, d: nat)

  predicate IsLeap(y: nat) {
    y % 4 == 0 && (y % 100 != 0 || y % 400 == 0)
  }

  function DaysIn(y: nat, m: nat): (n: nat)
    ensures 28 <= n <= 31
  {
    if m == 2 then if IsLeap(y) then 29 else 28
    else if m == 4 || m == 6 || m == 9 || m == 11 then 30
    else 31
  }

  predicate IsDate(a: Date) {
    a.y >= 1 && 1 <= a.m <= 12 && 1 <= a.d <= DaysIn(a.y, a.m)
  }

  predicate Earlier(a: Date, b: Date) {
    a.y < b.y || (a.y == b.y && (a.m < b.m || (a.m == b.m && a.d < b.d)))
  }

  function Succ(a: Date): (b: Date)
    requires IsDate(a)
    ensures IsDate(b)
  {
    if a.d < DaysIn(a.y, a.m) then Date(a.y, a.m, a.d + 1)
    else if a.m < 12 then Date(a.y, a.m + 1, 1)
    else Date(a.y + 1, 1, 1)
  }

  /** The days of the years before y, and of the months before m. */
  function BeforeYear(y: nat): nat {
    if y <= 1 then 0 else BeforeYear(y - 1) + BeforeMonth(y - 1, 13)
  }

  function BeforeMonth(y: nat, m: nat): nat {
    if m <= 1 then 0 else BeforeMonth(y, m - 1) + DaysIn(y, m - 1)
  }

  /** `date.toordinal()` */
  function Ordinal(a: Date): nat {
    BeforeYear(a.y) + BeforeMonth(a.y, a.m) + a.d
  }

  lemma BeforeMonthLater(y: nat, m: nat, n: nat)
    requires 1 <= m <= n
    ensures BeforeMonth(y, m) <= BeforeMonth(y, n)
    decreases n
  {
    if m < n {
      BeforeMonthLater(y, m, n - 1);
    }
  }

  lemma BeforeYearLater(y: nat, z: nat)
    requires 1 <= y <= z
    ensures BeforeYear(y) <= BeforeYear(z)
    decreases z
  {
    if y < z {
      BeforeYearLater(y, z - 1);
    }
  }

  lemma MonthLess(y: nat, m: nat, d: nat, n: nat)
    requires 1 <= m < n && d <= DaysIn(y, m)
    ensures BeforeMonth(y, m) + d <= BeforeMonth(y, n)
  {
    BeforeMonthLater(y, m + 1, n);
  }

  /** The day number of a date lies within its year. */
  lemma WithinYear(a: Date)
    requires IsDate(a)
    ensures BeforeYear(a.y) < Ordinal(a) <= BeforeYear(a.y + 1)
  {
    assert BeforeYear(a.y + 1) == BeforeYear(a.y) + BeforeMonth(a.y, 13);
    MonthLess(a.y, a.m, a.d, 13);
  }

  /** Day numbers are ordered as the dates are. */
  lemma {:induction false} OrdinalOrder(a: Date, b: Date)
    requires IsDate(a) && IsDate(b)
    ensures Earlier(a, b) <==> Ordinal(a) < Ordinal(b)
    ensures a == b <==> Ordinal(a) == Ordinal(b)
  {
    if Earlier(a, b) {
      OrdinalLess(a, b);
    } else if Earlier(b, a) {
      OrdinalLess(b, a);
    }
  }

  lemma YearLess(a: Date, b: Date)
    requires IsDate(a) && IsDate(b) && a.y < b.y
    ensures Ordinal(a) < Ordinal(b)
  {
    WithinYear(a);
    WithinYear(b);
    BeforeYearLater(a.y + 1, b.y);
  }

  lemma OrdinalLess(a: Date, b: Date)
    requires IsDate(a) && IsDate(b) && Earlier(a, b)
    ensures Ordinal(a) < Ordinal(b)
  {
    if a.y < b.y {
      YearLess(a, b);
    } else if a.m < b.m {
      MonthLess(a.y, a.m, a.d, b.m);
    }
  }

  lemma SuccOrdinal(a: Date)
    requires IsDate(a)
    ensures Ordinal(Succ(a)) == Ordinal(a) + 1
  {}

  /** `date.fromordinal(n)` */
  function FromOrdinal(n: nat): (a: Date)
    requires n >= 1
    ensures IsDate(a)
  {
    if n == 1 then Date(1, 1, 1) else Succ(FromOrdinal(n - 1))
  }

  lemma {:induction false} OrdinalOf(n: nat)
    requires n >= 1
    ensures Ordinal(FromOrdinal(n)) == n
  {
    if n > 1 {
      OrdinalOf(n - 1);
      SuccOrdinal(FromOrdinal(n - 1));
    }
  }

  /** Numbering days and counting them off are inverse to each other. */
  lemma FromOrdinalOf(a: Date)
    requires IsDate(a)
    ensures Ordinal(a) >= 1 && FromOrdinal(Ordinal(a)) == a
  {
    OrdinalOf(Ordinal(a));
    OrdinalOrder(a, FromOrdinal(Ordinal(a)));
  }

  /** `date + timedelta(days=n)` */
  function AddDays(a: Date, n: nat): (b: Date)
    requires IsDate(a)
    ensures IsDate(b)
  {
    FromOrdinal(Ordinal(a) + n)
  }

  lemma DaysOn(a: Date, k: nat)
    requires IsDate(a)
    ensures Ordinal(AddDays(a, k)) == Ordinal(a) + k
  {
    OrdinalOf(Ordinal(a) + k);
  }

  /** The weekday of day n; day 1 is a Monday, which is 0. */
  function DayOfWeek(n: nat): (w: nat)
    ensures w < 7
  {
    (n + 6) % 7
  }

  /** `date.weekday()` */
  function Weekday(a: Date): (w: nat)
    ensures w < 7
  {
    DayOfWeek(Ordinal(a))
  }

  // -------------------------------------------------------------------- moments

  const MINUTE := 60_000_000
  const DAY := 86_400_000_000

  /** 31 December 9999, the last day that datetime knows. */
  const LAST_DAY := 3_652_059

  /** A number of microseconds from day 0 on that falls on a day that datetime knows. */
  predicate InCalendar(t: int) {
    DAY <= t < (LAST_DAY + 1) * DAY
  }

  /** A moment: a date and the microseconds since midnight. */
  datatype Moment = Moment(date: Date, tod: nat)

  predicate IsMoment(t: Moment) {
    IsDate(t.date) && t.tod < DAY
  }

  predicate Before(a: Moment, b: Moment) {
    Earlier(a.date, b.date) || (a.date == b.date && a.tod < b.tod)
  }

  predicate UpTo(a: Moment, b: Moment) {
    !Before(b, a)
  }

  lemma UpToTrans(a: Moment, b: Moment, c: Moment)
    requires UpTo(a, b) && UpTo(b, c)
    ensures UpTo(a, c)
  {}

  lemma UpToTotal(a: Moment, b: Moment)
    ensures UpTo(a, b) || UpTo(b, a)
    ensures UpTo(a, b) && UpTo(b, a) ==> a == b
  {}
}
