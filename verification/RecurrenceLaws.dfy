/** The search for the next occurrence finds the earliest one, as far as it looks. */
module RecurrenceLaws {
  import opened Calendar
  import opened Errors
  import opened Recurrence

  /** Later than the search looks. */
  predicate Beyond(e: Event, now: Date, a: Date) {
    match e.freq
    case Daily => false
    case Weekly => Ordinal(a) > Ordinal(now) + 7
    case Monthly => 12 * a.y + a.m > 12 * now.y + now.m + 1
    case Yearly => a.y > now.y + 1
    case Other => false
  }

  // ------------------------------------------------------------ candidates are sound

  lemma DayFound(e: Event, now: Date, k: nat, a: Date)
    requires IsDate(now) && a in DayIf(e, now, k)
    ensures a == AddDays(now, k) && Weekday(a) in Weekdays(e)
  {}

  lemma DaySound(e: Event, now: Date, k: nat, a: Date)
    requires IsDate(now) && k < 8 && e.freq == Weekly && a in DayIf(e, now, k)
    ensures IsDate(a) && On(e, a) && !Beyond(e, now, a)
  {
    DayFound(e, now, k, a);
    DaysOn(now, k);
  }

  lemma WeekSound(e: Event, now: Date, a: Date)
    requires IsDate(now) && e.freq == Weekly && a in WeekDates(e, now, 8)
    ensures IsDate(a) && On(e, a) && !Beyond(e, now, a)
  {
    var k := FlatOnly(WeekParts(e, now, 8), a);
    DaySound(e, now, k, a);
  }

  lemma MonthAfter(now: Date)
    requires IsDate(now)
    ensures MonthOn(now, 0) == (now.y, now.m)
    ensures MonthOn(now, 1) == if now.m < 12 then (now.y, now.m + 1) else (now.y + 1, 1)
  {}

  /** What is looked at are dates of the rule, none beyond. */
  lemma Sound(e: Event, now: Date, a: Date)
    requires EventOk(e) && IsDate(now) && a in Dates(e, now)
    ensures IsDate(a) && On(e, a) && !Beyond(e, now, a)
  {
    match e.freq
    case Weekly => WeekSound(e, now, a);
    case Monthly => MonthAfter(now);
    case Daily =>
    case Yearly =>
    case Other =>
  }

  // -------------------------------------------------------- candidates are complete

  lemma OrdinalUpTo(a: Moment, b: Moment)
    requires IsMoment(a) && IsMoment(b) && UpTo(a, b)
    ensures Ordinal(a.date) <= Ordinal(b.date)
  {
    OrdinalOrder(a.date, b.date);
  }

  lemma DayComplete(e: Event, now: Date, a: Date)
    requires IsDate(now) && IsDate(a) && Weekday(a) in Weekdays(e) && Ordinal(now) <= Ordinal(a)
    ensures a in DayIf(e, now, Ordinal(a) - Ordinal(now))
  {
    FromOrdinalOf(a);
  }

  lemma WeekCovered(e: Event, now: Date, a: Date)
    requires IsDate(now) && IsDate(a) && e.freq == Weekly && On(e, a)
    requires Ordinal(now) <= Ordinal(a) && !Beyond(e, now, a)
    ensures a in WeekDates(e, now, 8)
  {
    var k := Ordinal(a) - Ordinal(now);
    DayComplete(e, now, a);
    FlatHolds(WeekParts(e, now, 8), k, a);
  }

  lemma MonthCovered(e: Event, now: Date, a: Date)
    requires IsDate(now) && IsDate(a) && e.freq == Monthly && On(e, a) && !Earlier(a, now) && !Beyond(e, now, a)
    ensures a in MonthDates(e, now)
  {
    MonthAfter(now);
  }

  /** Whatever is due in time, a date that is looked at comes no later. */
  lemma Covered(e: Event, now: Moment, t: Moment) returns (a: Date)
    requires EventOk(e) && IsMoment(now) && Kept(e, t) && UpTo(now, t) && !Beyond(e, now.date, t.date)
    ensures a in Dates(e, now.date) && IsDate(a)
    ensures UpTo(Moment(a, t.tod), t) && UpTo(e.base, Moment(a, t.tod)) && UpTo(now, Moment(a, t.tod))
  {
    a := t.date;
    match e.freq
    case Weekly =>
      OrdinalUpTo(now, t);
      WeekCovered(e, now.date, a);
    case Monthly => MonthCovered(e, now.date, a);
    case Daily => a := DayCovered(e, now, t);
    case Yearly =>
    case Other =>
  }

  /** The first or the second candidate, the one that comes no earlier than now. */
  lemma DayChoice(b: nat, n: nat, u: nat, early: bool) returns (k: nat)
    requires b <= u && n <= u
    ensures var days := if n - b > 0 then n - b else 0;
            && (k == days || k == days + 1) && b <= b + k <= u && n <= b + k
            && (b + k == n && early ==> u <= b + k)
  {
    var days := if n - b > 0 then n - b else 0;
    k := if u >= b + days + 1 && b + days == n && early then days + 1 else days;
  }

  lemma DayCovered(e: Event, now: Moment, t: Moment) returns (a: Date)
    requires EventOk(e) && IsMoment(now) && Kept(e, t) && UpTo(now, t) && e.freq == Daily
    ensures a in DayDates(e, now.date) && IsDate(a)
    ensures UpTo(Moment(a, t.tod), t) && UpTo(e.base, Moment(a, t.tod)) && UpTo(now, Moment(a, t.tod))
  {
    OrdinalUpTo(now, t);
    OrdinalUpTo(e.base, t);
    var k := DayChoice(Ordinal(e.base.date), Ordinal(now.date), Ordinal(t.date), e.base.tod < now.tod);
    a := AddDays(e.base.date, k);
    DaysOn(e.base.date, k);
    DayBetween(e.base, now, t, a);
  }

  lemma DayBetween(base: Moment, now: Moment, t: Moment, a: Date)
    requires IsMoment(base) && IsMoment(now) && IsMoment(t) && IsDate(a) && t.tod == base.tod
    requires Ordinal(base.date) <= Ordinal(a) <= Ordinal(t.date) && Ordinal(now.date) <= Ordinal(a)
    requires Ordinal(a) == Ordinal(now.date) && t.tod < now.tod ==> Ordinal(t.date) <= Ordinal(a)
    requires UpTo(now, t)
    ensures UpTo(Moment(a, t.tod), t) && UpTo(base, Moment(a, t.tod)) && UpTo(now, Moment(a, t.tod))
  {
    OrdinalOrder(a, t.date);
    OrdinalOrder(a, now.date);
    OrdinalOrder(base.date, a);
  }

  lemma EarlierUpTo(a: Date, b: Date, tod: nat)
    ensures !Earlier(a, b) <==> UpTo(Moment(b, tod), Moment(a, tod))
  {}

  // ---------------------------------------------------------------------- main laws

  /** What is returned lies in the window and is an occurrence, unless it comes after the
      moment of UNTIL on its day; and there is no occurrence from now on that is earlier. */
  lemma NextIsEarliest(e: Event, now: Moment, window: Moment, t: Moment)
    requires EventOk(e) && IsMoment(now) && Next(e, now, window).Some?
    ensures var r := Next(e, now, window).value;
            && Kept(e, r) && (Occurs(e, r) <==> Lasting(e, r))
            && Within(r, now, window) && !Beyond(e, now.date, r.date)
            && (Kept(e, t) && UpTo(now, t) ==> UpTo(r, t))
  {
    var dates := Dates(e, now.date);
    FirstFits(e, now, window, Sorted(dates));
    var r := Next(e, now, window).value;
    SortedHolds(dates, r.date);
    Sound(e, now.date, r.date);
    if Kept(e, t) && UpTo(now, t) {
      if Beyond(e, now.date, t.date) {
        BeyondLater(e, now.date, r, t);
      } else if UpTo(t, window) {
        var a := CoveredFits(e, now, window, t);
        SortedOrdered(dates);
        SortedHolds(dates, a);
        FirstIsEarliest(e, now, window, Sorted(dates), a);
        EarlierUpTo(a, r.date, t.tod);
        UpToTrans(r, Moment(a, t.tod), t);
      }
    }
  }

  lemma CoveredFits(e: Event, now: Moment, window: Moment, t: Moment) returns (a: Date)
    requires EventOk(e) && IsMoment(now) && Kept(e, t) && Within(t, now, window) && !Beyond(e, now.date, t.date)
    ensures a in Dates(e, now.date) && Fits(e, now, window, a) && UpTo(Moment(a, t.tod), t)
  {
    a := Covered(e, now, t);
    UpToTrans(Moment(a, t.tod), t, window);
    if e.until.Some? {
      UpToTrans(Moment(a, t.tod), t, Moment(e.until.value.date, LAST));
    }
  }

  lemma BeyondLater(e: Event, now: Date, r: Moment, t: Moment)
    requires IsMoment(r) && IsMoment(t) && Beyond(e, now, t.date) && !Beyond(e, now, r.date)
    ensures UpTo(r, t)
  {
    OrdinalOrder(r.date, t.date);
  }

  /** Nothing is returned exactly when nothing that the code takes for an occurrence lies in
      the window as far as the search looks. */
  lemma NothingFound(e: Event, now: Moment, window: Moment)
    requires EventOk(e) && IsMoment(now)
    ensures Next(e, now, window) == None
            <==> forall t | Kept(e, t) && Within(t, now, window) :: Beyond(e, now.date, t.date)
  {
    if Next(e, now, window) == None {
      forall t | Kept(e, t) && Within(t, now, window) ensures Beyond(e, now.date, t.date) {
        if !Beyond(e, now.date, t.date) {
          var a := CoveredFits(e, now, window, t);
          SortedOrdered(Dates(e, now.date));
          SortedHolds(Dates(e, now.date), a);
          FirstIsEarliest(e, now, window, Sorted(Dates(e, now.date)), a);
        }
      }
    } else {
      var r := Next(e, now, window).value;
      NextIsEarliest(e, now, window, r);
    }
  }

  /** The window ends where the search looks: any for daily rules, seven days for
      weekly, this and the next month for monthly, this and the next year for yearly. */
  predicate Near(e: Event, now: Moment, window: Moment) {
    IsMoment(window) && !Beyond(e, now.date, window.date)
  }

  lemma NearReaches(e: Event, now: Moment, window: Moment, t: Moment)
    requires IsMoment(now) && Near(e, now, window) && IsMoment(t) && UpTo(t, window)
    ensures !Beyond(e, now.date, t.date)
  {
    OrdinalUpTo(t, window);
  }
}
