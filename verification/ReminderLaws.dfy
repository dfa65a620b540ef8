/** Reminders over any run of ticks. */
module ReminderLaws {
  import opened Calendar
  import opened Reminders

  /** A line after ticks at these times, whatever the clock does. */
  function After(l: Line, nows: seq<Moment>): (r: Line)
    requires LineOk(l)
    ensures LineOk(r)
    decreases |nows|
  {
    if nows == [] then l else After(Ticked(l, nows[0]), nows[1..])
  }

  /** How often the reminder of the line fires. */
  function Fires(l: Line, nows: seq<Moment>): nat
    requires LineOk(l)
    decreases |nows|
  {
    if nows == [] then 0
    else (if Due(l, nows[0]) then 1 else 0) + Fires(Ticked(l, nows[0]), nows[1..])
  }

  lemma {:induction false} NeverAgain(l: Line, nows: seq<Moment>)
    requires LineOk(l) && !IsReminder(l)
    ensures Fires(l, nows) == 0 && After(l, nows) == l
  {
    if nows != [] {
      NeverAgain(l, nows[1..]);
    }
  }

  /** A reminder without recurrence fires at most once, and exactly when some tick
      finds it due; it is marked done then and never looked at again. */
  lemma {:induction false} OneShot(l: Line, nows: seq<Moment>)
    requires LineOk(l) && l.Task? && l.rule.Once?
    ensures Fires(l, nows) == (if exists k | 0 <= k < |nows| :: Due(l, nows[k]) then 1 else 0)
    ensures Fires(l, nows) == 1 ==> After(l, nows) == MarkDone(l) && After(l, nows).mark == Done
  {
    if nows != [] {
      if Due(l, nows[0]) {
        NeverAgain(MarkDone(l), nows[1..]);
      } else {
        OneShot(l, nows[1..]);
        if exists k | 0 <= k < |nows[1..]| :: Due(l, nows[1..][k]) {
          var k :| 0 <= k < |nows[1..]| && Due(l, nows[1..][k]);
          assert Due(l, nows[k + 1]);
        }
        if exists k | 0 <= k < |nows| :: Due(l, nows[k]) {
          var k :| 0 <= k < |nows| && Due(l, nows[k]);
          assert Due(l, nows[1..][k - 1]);
        }
      }
    }
  }

  // ------------------------------------------------------------------ moving on

  lemma MonthMoves(a: Date)
    requires IsDate(a)
    ensures var b := MonthLater(a);
            && 12 * b.y + b.m == 12 * a.y + a.m + 1
            && b.d == (if a.d <= DaysIn(b.y, b.m) then a.d else 28)
            && Earlier(a, b)
  {}

  lemma MonthIsLater(a: Date)
    requires IsDate(a)
    ensures Ordinal(MonthLater(a)) >= Ordinal(a) + 1
  {
    MonthMoves(a);
    OrdinalOrder(a, MonthLater(a));
  }

  lemma DaysMove(a: Date, rule: Rule)
    requires IsDate(a) && (rule.Once? || !rule.months)
    ensures Ordinal(NextDate(a, rule)) == Ordinal(a) + if rule.Every? && rule.weeks then 7 else 1
  {
    DaysOn(a, 1);
    DaysOn(a, 7);
  }

  /** The next time is at least a day later. */
  lemma NextDayLater(a: Date, rule: Rule)
    requires IsDate(a)
    ensures Ordinal(NextDate(a, rule)) >= Ordinal(a) + 1
  {
    if rule.Every? && rule.months {
      MonthIsLater(a);
    } else {
      DaysMove(a, rule);
    }
  }

  /** A recurring reminder moves strictly forward, although its seconds are cut off. */
  lemma NextLater(t: Moment, rule: Rule)
    requires IsMoment(t)
    ensures Before(t, NextTime(t, rule))
    ensures !rule.Once? && rule.months ==>
              12 * NextTime(t, rule).date.y + NextTime(t, rule).date.m == 12 * t.date.y + t.date.m + 1
    ensures !rule.Once? && !rule.months ==>
              Ordinal(NextTime(t, rule).date) == Ordinal(t.date) + if rule.weeks then 7 else 1
  {
    NextDayLater(t.date, rule);
    OrdinalOrder(t.date, NextDate(t.date, rule));
    if rule.Every? && rule.months {
      MonthMoves(t.date);
    } else {
      DaysMove(t.date, rule);
    }
  }

  /** Up to day 28 a monthly reminder keeps its day for ever; a later day falls back
      to 28 in the first month that lacks it, and stays there. */
  lemma {:induction false} DayKept(a: Date, n: nat)
    requires IsDate(a) && a.d <= 28
    ensures MonthsLater(a, n).d == a.d && 12 * MonthsLater(a, n).y + MonthsLater(a, n).m == 12 * a.y + a.m + n
    decreases n
  {
    if n > 0 {
      MonthMoves(a);
      DayKept(MonthLater(a), n - 1);
    }
  }

  function MonthsLater(a: Date, n: nat): (b: Date)
    requires IsDate(a)
    ensures IsDate(b)
    decreases n
  {
    if n == 0 then a else MonthsLater(MonthLater(a), n - 1)
  }

  lemma DayFallsBack(a: Date, n: nat)
    requires IsDate(a) && MonthLater(a).d != a.d && n >= 1
    ensures a.d > 28 && MonthsLater(a, n).d == 28
  {
    MonthMoves(a);
    DayKept(MonthLater(a), n - 1);
  }

  // ------------------------------------------------------------------ catching up

  predicate Recurs(l: Line) {
    LineOk(l) && IsReminder(l) && l.stamp.At? && l.rule.Every?
  }

  /** The days from the date of a line to a day, counting both. */
  function DaysUntil(l: Line, last: Date): nat
    requires Recurs(l)
  {
    if Ordinal(l.stamp.time.date) <= Ordinal(last) then Ordinal(last) - Ordinal(l.stamp.time.date) + 1 else 0
  }

  lemma RecursOn(l: Line, now: Moment, last: Moment)
    requires Recurs(l) && IsMoment(now) && IsMoment(last) && UpTo(now, last)
    ensures Recurs(Ticked(l, now)) && DaysUntil(Ticked(l, now), last.date) <= DaysUntil(l, last.date)
    ensures Due(l, now) ==> DaysUntil(l, last.date) > DaysUntil(Ticked(l, now), last.date)
  {
    if Due(l, now) {
      NextDayLater(l.stamp.time.date, l.rule);
      OrdinalOrder(l.stamp.time.date, now.date);
      OrdinalOrder(now.date, last.date);
    }
  }

  /** Up to any moment a recurring reminder fires at most once for each day since its
      time, however many ticks there are. */
  lemma {:induction false} FiresBounded(l: Line, nows: seq<Moment>, last: Moment)
    requires Recurs(l) && IsMoment(last) && forall k | 0 <= k < |nows| :: IsMoment(nows[k]) && UpTo(nows[k], last)
    ensures Fires(l, nows) <= DaysUntil(l, last.date)
    ensures Recurs(After(l, nows))
    ensures Fires(l, nows) + DaysUntil(After(l, nows), last.date) <= DaysUntil(l, last.date)
    decreases |nows|
  {
    if nows != [] {
      RecursOn(l, nows[0], last);
      FiresBounded(Ticked(l, nows[0]), nows[1..], last);
    }
  }

  function Repeat(now: Moment, n: nat): seq<Moment> {
    if n == 0 then [] else [now] + Repeat(now, n - 1)
  }

  lemma DueDays(l: Line, now: Moment)
    requires Recurs(l) && IsMoment(now)
    ensures Due(l, now) <==> !Before(now, l.stamp.time)
    ensures Due(l, now) ==> DaysUntil(l, now.date) > 0
  {
    OrdinalOrder(now.date, l.stamp.time.date);
  }

  /** An overdue reminder passes `now` after as many ticks as there are days between:
      every one of them fires until it is no longer due. */
  lemma {:induction false} CatchesUp(l: Line, now: Moment, n: nat)
    requires Recurs(l) && IsMoment(now) && n >= DaysUntil(l, now.date)
    ensures Recurs(After(l, Repeat(now, n))) && Before(now, After(l, Repeat(now, n)).stamp.time)
    decreases n
  {
    DueDays(l, now);
    if !Due(l, now) {
      Waits(l, now, n);
    } else {
      assert Repeat(now, n)[0] == now && Repeat(now, n)[1..] == Repeat(now, n - 1);
      RecursOn(l, now, now);
      CatchesUp(Ticked(l, now), now, n - 1);
    }
  }

  lemma {:induction false} Waits(l: Line, now: Moment, n: nat)
    requires LineOk(l) && !Due(l, now)
    ensures After(l, Repeat(now, n)) == l
  {
    if n > 0 {
      assert Repeat(now, n)[0] == now && Repeat(now, n)[1..] == Repeat(now, n - 1);
      Waits(l, now, n - 1);
    }
  }
}
