/** Days of the week from a day that is known: 1 January 2024 was a Monday. What weekly
    rules return is told from it (pawlia/scheduler.py). */
module Weeks {
  import opened Calendar
  import opened Errors
  import opened Recurrence
  import RecurrenceLaws
  import opened FirstOccurrence

  // ------------------------------------------------------------- numbers of known days

  lemma YearLength(y: nat)
    ensures BeforeMonth(y, 13) == if IsLeap(y) then 366 else 365
  {
    assert BeforeMonth(y, 2) == 31;
    assert BeforeMonth(y, 4) == BeforeMonth(y, 2) + DaysIn(y, 2) + 31;
    assert BeforeMonth(y, 6) == BeforeMonth(y, 4) + 61;
    assert BeforeMonth(y, 8) == BeforeMonth(y, 6) + 61;
    assert BeforeMonth(y, 10) == BeforeMonth(y, 8) + 61;
    assert BeforeMonth(y, 12) == BeforeMonth(y, 10) + 61;
  }

  lemma Counted(n: nat, k: nat)
    requires n >= 1 && k >= 1
    ensures n / k == (n - 1) / k + if n % k == 0 then 1 else 0
  {
    var q, r := (n - 1) / k, (n - 1) % k;
    if r + 1 < k {
      DivideAs(n, k, q, r + 1);
    } else {
      DivideAs(n, k, q + 1, 0);
    }
  }

  lemma DivideAs(n: nat, k: nat, q: nat, r: nat)
    requires n == k * q + r && r < k
    ensures n / k == q && n % k == r
  {
    if n / k < q {
      Product(k, n / k + 1, q);
    } else if n / k > q {
      Product(k, q + 1, n / k);
    }
  }

  lemma Product(k: nat, a: nat, b: nat)
    requires a <= b
    ensures k * a <= k * b
  {}

  lemma Centuries(y: nat)
    ensures y % 100 == 0 ==> y % 4 == 0
    ensures y % 400 == 0 ==> y % 100 == 0
  {
    if y % 100 == 0 {
      assert y == 4 * (25 * (y / 100));
    }
    if y % 400 == 0 {
      assert y == 100 * (4 * (y / 400));
    }
  }

  /** The days before a year: a leap day in every fourth year, but for whole centuries, but
      for every fourth of these. */
  lemma {:induction false} BeforeYearExactly(y: nat)
    requires y >= 1
    ensures BeforeYear(y) == 365 * (y - 1) + (y - 1) / 4 - (y - 1) / 100 + (y - 1) / 400
  {
    if y > 1 {
      BeforeYearExactly(y - 1);
      YearLength(y - 1);
      Counted(y - 1, 4);
      Counted(y - 1, 100);
      Counted(y - 1, 400);
      Centuries(y - 1);
    }
  }

  /** Day d of month m in the only year between these two. */
  predicate Known(a: Date, before: nat, m: nat, d: nat, after: nat) {
    before < a.y < after && before + 2 == after && a.m == m && a.d == d
  }

  lemma NewYearIs(a: Date)
    requires a.y >= 1 && a.m == 1 && a.d == 1
    ensures Ordinal(a) == 365 * (a.y - 1) + (a.y - 1) / 4 - (a.y - 1) / 100 + (a.y - 1) / 400 + 1
  {
    BeforeYearExactly(a.y);
  }

  lemma OldYearIs(a: Date)
    requires a.y >= 1 && a.m == 12 && a.d == 31
    ensures Ordinal(a) == 365 * a.y + a.y / 4 - a.y / 100 + a.y / 400
  {
    SuccOrdinal(a);
    NewYearIs(Succ(a));
  }

  /** 1 January 2024 is day 738886. */
  lemma NewYearKnown(a: Date)
    requires Known(a, 2023, 1, 1, 2025)
    ensures Ordinal(a) == 738_886
  {
    NewYearIs(a);
  }

  /** 31 December 9999 is the last day that datetime knows. */
  lemma LastDayKnown(a: Date)
    requires Known(a, 9998, 12, 31, 10000)
    ensures Ordinal(a) == LAST_DAY
  {
    OldYearIs(a);
  }

  // ------------------------------------------------------------------------ weekdays

  /** The days from 1 January 2024, negative before. */
  function Since(a: Date): int {
    Ordinal(a) - 738_886
  }

  /** The weekday of a date is what is left of the days since a Monday when whole weeks are
      taken away; each day has the next one. */
  lemma WeekdayExactly(a: Date)
    requires IsDate(a)
    ensures Weekday(a) == Since(a) % 7
    ensures Weekday(Succ(a)) == (Weekday(a) + 1) % 7
  {
    SuccOrdinal(a);
    var n := Ordinal(a);
    WeekLeft(n);
    WeekNext(n);
  }

  lemma WeekLeft(n: nat)
    ensures DayOfWeek(n) == (n - 738_886) % 7
  {}

  lemma WeekNext(n: nat)
    ensures DayOfWeek(n + 1) == (DayOfWeek(n) + 1) % 7
  {}

  /** 1 January 2024 was a Monday. */
  lemma KnownMonday(a: Date)
    requires Known(a, 2023, 1, 1, 2025)
    ensures Since(a) == 0 && Weekday(a) == 0
  {
    NewYearKnown(a);
    WeekLeft(Ordinal(a));
  }

  // ------------------------------------------------------------------- weekly events

  /** An event with BYDAY and one weekday, 0 for Monday. */
  predicate OnWeekday(e: Event, d: nat) {
    e.freq == Weekly && (e.byday == [d] || (e.byday == [] && Weekday(e.base.date) == d))
  }

  /** What is found for one weekday lies that many days and whole weeks from Monday,
      1 January 2024, at the time of the event. */
  lemma WeeklyFound(e: Event, now: Moment, window: Moment, d: nat)
    requires EventOk(e) && IsMoment(now) && OnWeekday(e, d) && Next(e, now, window).Some?
    ensures var t := Next(e, now, window).value;
            && Since(t.date) % 7 == d && t.tod == e.base.tod
            && UpTo(e.base, t) && UpTo(now, t) && UpTo(t, window)
  {
    RecurrenceLaws.NextIsEarliest(e, now, window, now);
    WeekdayExactly(Next(e, now, window).value.date);
  }

  /** Each such moment that the window holds within seven days is found, unless an earlier
      one is: for an event that has begun and does not end, exactly the first of them. */
  lemma WeeklyExactly(e: Event, now: Moment, window: Moment, d: nat, t: Moment)
    requires EventOk(e) && IsMoment(now) && OnWeekday(e, d) && e.until == None && UpTo(e.base, now)
    requires IsMoment(t) && t.tod == e.base.tod && Since(t.date) % 7 == d && UpTo(now, t) && UpTo(t, window)
    requires Since(t.date) < Since(now.date) + 7 || (Since(t.date) == Since(now.date) + 7 && t.tod < now.tod)
    ensures Next(e, now, window) == Some(t)
  {
    WeekdayExactly(t.date);
    UpToTrans(e.base, now, t);
    assert Kept(e, t);
    FirstBefore(e, now, t);
    FirstIsFirst(e, now);
    UpToTrans(First(e, now).value, t, window);
    SteadyNear(e, now);
    NextIsFirst(e, now, window);
    var f := First(e, now).value;
    WeekdayExactly(f.date);
    OneAWeek(now, f, t);
  }

  /** Two moments at the same time of day and weekday, from now on and less than seven days
      away, are the same. */
  lemma OneAWeek(now: Moment, f: Moment, t: Moment)
    requires IsMoment(now) && IsMoment(f) && IsMoment(t) && f.tod == t.tod
    requires Since(f.date) % 7 == Since(t.date) % 7 && UpTo(now, f) && UpTo(f, t)
    requires Since(t.date) < Since(now.date) + 7 || (Since(t.date) == Since(now.date) + 7 && t.tod < now.tod)
    ensures f == t
  {
    OrdinalOrder(now.date, f.date);
    OrdinalOrder(f.date, t.date);
    SameLeft(Since(f.date), Since(t.date));
  }

  lemma SameLeft(x: int, y: int)
    requires x <= y < x + 7 && x % 7 == y % 7
    ensures x == y
  {}
}
