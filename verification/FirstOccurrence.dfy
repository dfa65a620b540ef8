/** The search for the next occurrence compared with the first occurrence of the rule, and
    where the two differ (_next_recurring_event_occurrence in pawlia/scheduler.py). */
module FirstOccurrence {
  import opened Calendar
  import opened Errors
  import opened Recurrence
  import opened RecurrenceLaws

  // ------------------------------------------- the first date that the rule allows

  function NextMonth(y: nat, m: nat): (nat, nat) {
    if m < 12 then (y, m + 1) else (y + 1, 1)
  }

  /** Day d of this month or, if it has none, of the next. */
  function MonthDay(d: nat, month: (nat, nat)): Date {
    if d <= DaysIn(month.0, month.1) then Date(month.0, month.1, d)
    else Date(NextMonth(month.0, month.1).0, NextMonth(month.0, month.1).1, d)
  }

  /** The first leap year from y on: none is more than eight years away. */
  function LeapFrom(y: nat): (z: nat)
    ensures z >= y
  {
    if IsLeap(y) then y
    else if IsLeap(y + 4 - y % 4) then y + 4 - y % 4
    else y + 8 - y % 4
  }

  function YearDay(d: nat, m: nat, y: nat): Date {
    Date(if d <= DaysIn(y, m) then y else LeapFrom(y), m, d)
  }

  /** The first of n days from k days behind weekday w on whose weekday is in the list. */
  function Offset(days: seq<nat>, w: nat, k: nat, n: nat): Option<nat>
    decreases n
  {
    if n == 0 then None
    else if (w + k) % 7 in days then Some(k)
    else Offset(days, w, k + 1, n - 1)
  }

  /** The first date within a week from a on whose weekday the rule allows. */
  function WeekDay(e: Event, a: Date): Option<Date>
    requires IsDate(a)
  {
    match Offset(Weekdays(e), Weekday(a), 0, 7)
    case None => None
    case Some(k) => Some(AddDays(a, k))
  }

  /** The first date from a on that the rule allows. */
  function FirstDate(e: Event, a: Date): Option<Date>
    requires IsDate(a)
  {
    match e.freq
    case Daily => Some(a)
    case Weekly => WeekDay(e, a)
    case Monthly =>
      var d := e.base.date.d;
      Some(MonthDay(d, if a.d <= d then (a.y, a.m) else NextMonth(a.y, a.m)))
    case Yearly =>
      var d, m := e.base.date.d, e.base.date.m;
      Some(YearDay(d, m, if a.m < m || (a.m == m && a.d <= d) then a.y else a.y + 1))
    case Other => None
  }

  function LaterOf(a: Moment, b: Moment): Moment {
    if Before(a, b) then b else a
  }

  /** The first day on which an occurrence can come that has begun and is not over. */
  function FromDay(e: Event, now: Moment): (a: Date)
    requires EventOk(e) && IsMoment(now)
    ensures IsDate(a)
  {
    var from := LaterOf(e.base, now);
    if from.tod <= e.base.tod then from.date else Succ(from.date)
  }

  /** The first moment from now on, and from the start of the event on, that the rule
      allows. */
  function First(e: Event, now: Moment): Option<Moment>
    requires EventOk(e) && IsMoment(now)
  {
    match FirstDate(e, FromDay(e, now))
    case None => None
    case Some(a) => Some(Moment(a, e.base.tod))
  }

  // ------------------------------------------------------------------ it is the first

  /** `r` is the first date from a on that the rule allows. */
  ghost predicate Leads(e: Event, a: Date, r: Date) {
    && IsDate(r) && On(e, r) && !Earlier(r, a)
    && forall x | IsDate(x) && On(e, x) && !Earlier(x, a) :: !Earlier(x, r)
  }

  lemma MonthLeads(e: Event, a: Date)
    requires EventOk(e) && IsDate(a) && e.freq == Monthly
    ensures Leads(e, a, FirstDate(e, a).value)
  {
    var r := FirstDate(e, a).value;
    forall x | IsDate(x) && On(e, x) && !Earlier(x, a) ensures !Earlier(x, r) {}
  }

  lemma FourApart(y: nat, z: nat)
    requires y % 4 == 0 && z % 4 == 0 && y < z
    ensures y + 4 <= z
  {}

  lemma FourFrom(y: nat, z: nat)
    requires y <= z && z % 4 == 0 && y % 4 != 0
    ensures y + 4 - y % 4 <= z && (y + 4 - y % 4) % 4 == 0
  {}

  lemma LeapFirst(y: nat, z: nat)
    requires y <= z && IsLeap(z)
    ensures LeapFrom(y) <= z
  {
    if y % 4 == 0 {
      if !IsLeap(y) {
        FourApart(y, z);
        LeapFound(y);
        if z != y + 4 {
          FourApart(y + 4, z);
        }
      }
    } else {
      FourFrom(y, z);
      var x := y + 4 - y % 4;
      if !IsLeap(x) {
        FourApart(x, z);
      }
    }
  }

  lemma FourBehind(w: nat)
    requires w % 4 == 0 && !IsLeap(w)
    ensures IsLeap(w + 4)
  {}

  lemma LeapFound(y: nat)
    ensures IsLeap(LeapFrom(y))
  {
    var w := y + 4 - y % 4;
    assert w % 4 == 0;
    if !IsLeap(w) {
      FourBehind(w);
    }
  }

  lemma YearLeads(e: Event, a: Date)
    requires EventOk(e) && IsDate(a) && e.freq == Yearly
    ensures Leads(e, a, FirstDate(e, a).value)
  {
    var d, m := e.base.date.d, e.base.date.m;
    var y := if a.m < m || (a.m == m && a.d <= d) then a.y else a.y + 1;
    var r := FirstDate(e, a).value;
    LeapFound(y);
    forall x | IsDate(x) && On(e, x) && !Earlier(x, a) ensures !Earlier(x, r) {
      if d > DaysIn(y, m) {
        LeapFirst(y, x.y);
      }
    }
  }

  lemma {:induction false} OffsetFirst(days: seq<nat>, w: nat, k: nat, n: nat, j: nat)
    ensures var r := Offset(days, w, k, n);
            && (r.Some? ==> k <= r.value < k + n && (w + r.value) % 7 in days)
            && (k <= j < k + n && (w + j) % 7 in days ==> r.Some? && r.value <= j)
    decreases n
  {
    if n > 0 && (w + k) % 7 !in days {
      OffsetFirst(days, w, k + 1, n - 1, j);
    }
  }

  lemma DaysLater(n: nat, j: nat)
    ensures DayOfWeek(n + j) == (DayOfWeek(n) + j) % 7
  {}

  lemma SameWeekday(n: nat, gap: nat)
    ensures (DayOfWeek(n) + gap % 7) % 7 == DayOfWeek(n + gap)
  {
    DaysLater(n, gap % 7);
    assert gap == 7 * (gap / 7) + gap % 7;
    Sevens(n + gap % 7 + 6, gap / 7);
  }

  lemma {:induction false} Sevens(n: nat, q: nat)
    ensures (n + 7 * q) % 7 == n % 7
  {
    if q > 0 {
      Sevens(n, q - 1);
      assert n + 7 * q == n + 7 * (q - 1) + 7;
    }
  }

  lemma OffsetFits(days: seq<nat>, n: nat)
    requires Offset(days, DayOfWeek(n), 0, 7).Some?
    ensures var k := Offset(days, DayOfWeek(n), 0, 7).value; k < 7 && DayOfWeek(n + k) in days
  {
    OffsetFirst(days, DayOfWeek(n), 0, 7, 0);
    DaysLater(n, Offset(days, DayOfWeek(n), 0, 7).value);
  }

  lemma WeekdayIs(a: Date, n: nat)
    requires Ordinal(a) == n
    ensures Weekday(a) == DayOfWeek(n)
  {}

  lemma WeekDayAt(e: Event, a: Date)
    requires IsDate(a) && WeekDay(e, a).Some?
    ensures var r := WeekDay(e, a).value;
            Weekday(r) in Weekdays(e) && Ordinal(a) <= Ordinal(r) < Ordinal(a) + 7
  {
    var n := Ordinal(a);
    WeekdayIs(a, n);
    OffsetFits(Weekdays(e), n);
    var k := Offset(Weekdays(e), DayOfWeek(n), 0, 7).value;
    DaysOn(a, k);
    WeekdayIs(AddDays(a, k), n + k);
  }

  lemma OffsetReached(days: seq<nat>, n: nat, m: nat)
    requires n <= m && DayOfWeek(m) in days
    ensures var r := Offset(days, DayOfWeek(n), 0, 7); r.Some? && n + r.value <= m
  {
    SameWeekday(n, m - n);
    OffsetFirst(days, DayOfWeek(n), 0, 7, (m - n) % 7);
  }

  /** Whatever date the rule allows, an equal weekday comes within seven days. */
  lemma WeekReached(e: Event, a: Date, x: Date)
    requires IsDate(a) && IsDate(x) && !Earlier(x, a) && Weekday(x) in Weekdays(e)
    ensures WeekDay(e, a).Some? && Ordinal(WeekDay(e, a).value) <= Ordinal(x)
  {
    OrdinalOrder(x, a);
    OffsetReached(Weekdays(e), Ordinal(a), Ordinal(x));
    DaysOn(a, Offset(Weekdays(e), Weekday(a), 0, 7).value);
  }

  lemma WeekLeads(e: Event, a: Date)
    requires EventOk(e) && IsDate(a) && e.freq == Weekly && WeekDay(e, a).Some?
    ensures Leads(e, a, WeekDay(e, a).value)
  {
    var r := WeekDay(e, a).value;
    WeekDayAt(e, a);
    OrdinalOrder(r, a);
    forall x | IsDate(x) && On(e, x) && !Earlier(x, a) ensures !Earlier(x, r) {
      WeekReached(e, a, x);
      OrdinalOrder(x, r);
    }
  }

  lemma FirstLeads(e: Event, a: Date)
    requires EventOk(e) && IsDate(a)
    ensures FirstDate(e, a).Some? ==> Leads(e, a, FirstDate(e, a).value)
  {
    match e.freq
    case Daily =>
    case Weekly =>
      if FirstDate(e, a).Some? {
        WeekLeads(e, a);
      }
    case Monthly => MonthLeads(e, a);
    case Yearly => YearLeads(e, a);
    case Other =>
  }

  lemma NoDate(e: Event, a: Date, x: Date)
    requires EventOk(e) && IsDate(a) && IsDate(x) && On(e, x) && !Earlier(x, a)
    ensures FirstDate(e, a).Some?
  {
    if e.freq == Weekly {
      WeekReached(e, a, x);
    }
  }

  /** Begun and not over is: not before that day. */
  lemma FromDayExactly(e: Event, now: Moment, x: Date)
    requires EventOk(e) && IsMoment(now) && IsDate(x)
    ensures !Earlier(x, FromDay(e, now))
            <==> UpTo(e.base, Moment(x, e.base.tod)) && UpTo(now, Moment(x, e.base.tod))
  {}

  /** The first moment is one, and no occurrence from now on is earlier. */
  lemma FirstIsFirst(e: Event, now: Moment)
    requires EventOk(e) && IsMoment(now)
    ensures var f := First(e, now);
            f.Some? ==>
              && IsMoment(f.value) && f.value.tod == e.base.tod && On(e, f.value.date)
              && UpTo(e.base, f.value) && UpTo(now, f.value)
  {
    FirstLeads(e, FromDay(e, now));
    if First(e, now).Some? {
      FromDayExactly(e, now, First(e, now).value.date);
    }
  }

  lemma FirstBefore(e: Event, now: Moment, t: Moment)
    requires EventOk(e) && IsMoment(now) && Kept(e, t) && UpTo(now, t)
    ensures First(e, now).Some? && UpTo(First(e, now).value, t)
  {
    FromDayExactly(e, now, t.date);
    NoDate(e, FromDay(e, now), t.date);
    FirstLeads(e, FromDay(e, now));
  }

  // ---------------------------------------------------------------------- main laws

  /** The rule has an occurrence in the window: its first moment lies there in time. */
  predicate Due(e: Event, now: Moment, window: Moment)
    requires EventOk(e) && IsMoment(now)
  {
    var f := First(e, now);
    f.Some? && UpTo(f.value, window) && InTime(e, f.value)
  }

  lemma DueExactly(e: Event, now: Moment, window: Moment)
    requires EventOk(e) && IsMoment(now)
    ensures Due(e, now, window) ==> Kept(e, First(e, now).value) && Within(First(e, now).value, now, window)
    ensures !Due(e, now, window) ==> forall t | Kept(e, t) :: !Within(t, now, window)
  {
    FirstIsFirst(e, now);
    if !Due(e, now, window) {
      forall t | Kept(e, t) ensures !Within(t, now, window) {
        if Within(t, now, window) {
          FirstBefore(e, now, t);
          UpToTrans(First(e, now).value, t, window);
          if e.until.Some? {
            UpToTrans(First(e, now).value, t, Moment(e.until.value.date, LAST));
          }
        }
      }
    }
  }

  lemma BeyondOn(e: Event, now: Date, r: Moment, t: Moment)
    requires IsMoment(r) && IsMoment(t) && Beyond(e, now, r.date) && UpTo(r, t)
    ensures Beyond(e, now, t.date)
  {
    OrdinalOrder(r.date, t.date);
  }

  /** What the search returns, for every event, moment and window: the first moment of the
      rule, when it lies in the window, in time, and not beyond where the search looks. */
  lemma NextIsFirst(e: Event, now: Moment, window: Moment)
    requires EventOk(e) && IsMoment(now)
    ensures Next(e, now, window)
            == if Due(e, now, window) && !Beyond(e, now.date, First(e, now).value.date) then First(e, now) else None
  {
    FirstIsFirst(e, now);
    DueExactly(e, now, window);
    NothingFound(e, now, window);
    if Due(e, now, window) {
      var f := First(e, now).value;
      if Beyond(e, now.date, f.date) {
        forall t | Kept(e, t) && Within(t, now, window) ensures Beyond(e, now.date, t.date) {
          FirstBefore(e, now, t);
          BeyondOn(e, now.date, f, t);
        }
      } else {
        var r := Next(e, now, window).value;
        NextIsEarliest(e, now, window, f);
        FirstBefore(e, now, r);
        UpToTotal(r, f);
      }
    }
  }

  /** The search is right: it returns nothing exactly when there is no occurrence in the
      window, in the sense of RFC 5545. */
  ghost predicate Right(e: Event, now: Moment, window: Moment)
    requires EventOk(e) && IsMoment(now)
  {
    Next(e, now, window) == None <==> forall t | Occurs(e, t) :: !Within(t, now, window)
  }

  /** An occurrence in the window exists exactly when the first moment of the rule is one. */
  lemma OccursFirst(e: Event, now: Moment, window: Moment)
    requires EventOk(e) && IsMoment(now)
    ensures (exists t | Occurs(e, t) :: Within(t, now, window))
            <==> Due(e, now, window) && Lasting(e, First(e, now).value)
  {
    DueExactly(e, now, window);
    if Due(e, now, window) {
      var f := First(e, now).value;
      if Lasting(e, f) {
        assert Occurs(e, f) && Within(f, now, window);
      } else {
        forall t | Occurs(e, t) ensures !Within(t, now, window) {
          if Within(t, now, window) {
            FirstBefore(e, now, t);
            UpToTrans(f, t, e.until.value);
          }
        }
      }
    }
  }

  /** The search is right if and only if, when the first moment of the rule lies in the
      window and on a day up to that of UNTIL, it lies where the search looks exactly if
      the rule has not ended by then. */
  lemma RightExactly(e: Event, now: Moment, window: Moment)
    requires EventOk(e) && IsMoment(now)
    ensures Right(e, now, window)
            <==> (Due(e, now, window)
                  ==> (!Beyond(e, now.date, First(e, now).value.date) <==> Lasting(e, First(e, now).value)))
  {
    OccursFirst(e, now, window);
    NextIsFirst(e, now, window);
  }

  // ---------------------------------------------------------------- events that have begun

  /** The event has begun, and its day exists in every month, or every year. */
  predicate Steady(e: Event, now: Moment) {
    && UpTo(e.base, now)
    && (e.freq == Monthly ==> e.base.date.d <= 28)
    && (e.freq == Yearly ==> e.base.date.d <= 28 || e.base.date.m != 2)
  }

  lemma MonthLength(y: nat, a: Date)
    requires IsDate(a) && (a.d <= 28 || a.m != 2)
    ensures a.d <= DaysIn(y, a.m)
  {}

  lemma FromDaySoon(e: Event, now: Moment)
    requires EventOk(e) && IsMoment(now) && UpTo(e.base, now)
    ensures FromDay(e, now) == now.date || FromDay(e, now) == Succ(now.date)
  {}

  lemma SteadyNear(e: Event, now: Moment)
    requires EventOk(e) && IsMoment(now) && Steady(e, now) && First(e, now).Some?
    ensures !Beyond(e, now.date, First(e, now).value.date)
  {
    var a := FromDay(e, now);
    FromDaySoon(e, now);
    match e.freq
    case Weekly =>
      WeekDayAt(e, a);
      SuccOrdinal(now.date);
    case Monthly =>
    case Yearly =>
      MonthLength(now.date.y, e.base.date);
      MonthLength(now.date.y + 1, e.base.date);
    case Daily =>
    case Other =>
  }

  /** For a steady event whose rule does not end too early on its last day the search is
      right in every window; else it is right exactly when it does not find this day. */
  lemma SteadyExact(e: Event, now: Moment, window: Moment)
    requires EventOk(e) && IsMoment(now) && Steady(e, now)
    ensures Right(e, now, window) <==> (Due(e, now, window) ==> Lasting(e, First(e, now).value))
    ensures !Overruns(e) ==> Right(e, now, window)
  {
    RightExactly(e, now, window);
    if First(e, now).Some? {
      SteadyNear(e, now);
    }
    if !Overruns(e) {
      LastingDue(e, now, window);
    }
  }

  lemma LastingDue(e: Event, now: Moment, window: Moment)
    requires EventOk(e) && IsMoment(now) && !Overruns(e)
    ensures Due(e, now, window) ==> Lasting(e, First(e, now).value)
  {
    DueExactly(e, now, window);
    if Due(e, now, window) && !Lasting(e, First(e, now).value) {
      NotLater(e, First(e, now).value);
    }
  }

  /** The same for windows that end where the search looks: any for daily rules, seven days
      for weekly, this and the next month or year for monthly and yearly ones. */
  lemma NearExact(e: Event, now: Moment, window: Moment)
    requires EventOk(e) && IsMoment(now) && Near(e, now, window)
    ensures Right(e, now, window) <==> (Due(e, now, window) ==> Lasting(e, First(e, now).value))
    ensures !Overruns(e) ==> Right(e, now, window)
  {
    RightExactly(e, now, window);
    if Due(e, now, window) {
      FirstIsFirst(e, now);
      NearReaches(e, now, window, First(e, now).value);
    }
    if !Overruns(e) {
      LastingDue(e, now, window);
    }
  }

  // ------------------------------------------------------------------------- misses

  lemma BaseFirst(e: Event, now: Moment)
    requires EventOk(e) && IsMoment(now) && UpTo(now, e.base) && On(e, e.base.date)
    ensures First(e, now) == Some(e.base)
  {
    FirstIsFirst(e, now);
    FromDayExactly(e, now, e.base.date);
    NoDate(e, FromDay(e, now), e.base.date);
    FirstLeads(e, FromDay(e, now));
    UpToTotal(First(e, now).value, e.base);
  }

  /** An event that begins beyond where the search looks is missed, however long the
      window is. */
  lemma NotBegun(e: Event, now: Moment, window: Moment)
    requires EventOk(e) && IsMoment(now) && UpTo(now, e.base) && UpTo(e.base, window)
    requires On(e, e.base.date) && InTime(e, e.base) && Beyond(e, now.date, e.base.date)
    ensures Within(e.base, now, window) && Next(e, now, window) == None
    ensures Kept(e, e.base) && (Lasting(e, e.base) ==> Occurs(e, e.base))
  {
    BaseFirst(e, now);
    NextIsFirst(e, now, window);
  }

  /** So a weekly event that begins in ten days is not found in a window of fourteen. */
  lemma WeeklyMiss(n: nat, tod: nat)
    requires n >= 1 && tod < DAY
    ensures var e := Event(Moment(FromOrdinal(n + 10), tod), Weekly, None, []);
            var now, window := Moment(FromOrdinal(n), tod), Moment(FromOrdinal(n + 14), tod);
            && EventOk(e) && IsMoment(now) && IsMoment(window)
            && Occurs(e, e.base) && Within(e.base, now, window) && Next(e, now, window) == None
  {
    var e := Event(Moment(FromOrdinal(n + 10), tod), Weekly, None, []);
    OrdinalOf(n);
    OrdinalOf(n + 10);
    OrdinalOf(n + 14);
    OrdinalOrder(FromOrdinal(n), FromOrdinal(n + 10));
    OrdinalOrder(FromOrdinal(n + 10), FromOrdinal(n + 14));
    NotBegun(e, Moment(FromOrdinal(n), tod), Moment(FromOrdinal(n + 14), tod));
  }

  /** A day that not every month has: on 31 January, once its time is over, a monthly
      event of the 31st is not found although the window holds 31 March. */
  lemma MonthlyMiss(y: nat, tod: nat)
    requires y >= 1 && tod + 1 < DAY
    ensures var e := Event(Moment(Date(y, 1, 31), tod), Monthly, None, []);
            var now := Moment(Date(y, 1, 31), tod + 1);
            var window := Moment(Date(y, 4, 1), 0);
            var t := Moment(Date(y, 3, 31), tod);
            EventOk(e) && IsMoment(now) && Occurs(e, t) && Within(t, now, window) && Next(e, now, window) == None
  {
    var e := Event(Moment(Date(y, 1, 31), tod), Monthly, None, []);
    var now := Moment(Date(y, 1, 31), tod + 1);
    assert FromDay(e, now) == Date(y, 2, 1);
    assert First(e, now) == Some(Moment(Date(y, 3, 31), tod));
    NextIsFirst(e, now, Moment(Date(y, 4, 1), 0));
  }

  // ------------------------------------------------------------------- the end of a rule

  /** Nothing that is found comes after the moment of UNTIL, whenever and however far the
      search looks. */
  ghost predicate NoneAfter(e: Event)
    requires EventOk(e)
  {
    forall now, window | IsMoment(now) && Next(e, now, window).Some? :: Lasting(e, Next(e, now, window).value)
  }

  /** The rule allows its last day, and ends on it before the time of the event. */
  predicate Overruns(e: Event) {
    && e.until.Some? && On(e, e.until.value.date) && !Earlier(e.until.value.date, e.base.date)
    && e.until.value.tod < e.base.tod <= LAST
  }

  /** On the last day such an event is found, after the end of its rule. */
  lemma LastDayFound(e: Event)
    requires EventOk(e) && Overruns(e)
    ensures var t := Moment(e.until.value.date, e.base.tod);
            IsMoment(t) && Kept(e, t) && !Lasting(e, t) && Next(e, t, t) == Some(t)
  {
    var t := Moment(e.until.value.date, e.base.tod);
    FirstBefore(e, t, t);
    FirstIsFirst(e, t);
    UpToTotal(First(e, t).value, t);
    NextIsFirst(e, t, t);
  }

  lemma NotLater(e: Event, t: Moment)
    requires EventOk(e) && Kept(e, t) && !Lasting(e, t)
    ensures Overruns(e)
  {}

  /** No event is found after the moment of UNTIL if and only if the rule does not end, on
      a day that it allows, before the time of the event. */
  lemma UntilExactly(e: Event)
    requires EventOk(e)
    ensures NoneAfter(e) <==> !Overruns(e)
  {
    if Overruns(e) {
      LastDayFound(e);
    } else {
      forall now, window | IsMoment(now) && Next(e, now, window).Some?
        ensures Lasting(e, Next(e, now, window).value)
      {
        NextIsEarliest(e, now, window, now);
        if !Lasting(e, Next(e, now, window).value) {
          NotLater(e, Next(e, now, window).value);
        }
      }
    }
  }

  /** For these rules, and for no others, what the code takes for an occurrence is one. */
  lemma KeptExactly(e: Event)
    requires EventOk(e)
    ensures (forall t | Kept(e, t) :: Occurs(e, t)) <==> !Overruns(e)
  {
    if Overruns(e) {
      LastDayFound(e);
      assert Kept(e, Moment(e.until.value.date, e.base.tod));
    } else {
      forall t | Kept(e, t) ensures Occurs(e, t) {
        if !Lasting(e, t) {
          NotLater(e, t);
        }
      }
    }
  }

  /** A daily event at 17:00 whose rule ends on 31 December at 08:00 is found for 17:00 of
      that day. */
  lemma LateOnLastDay(y: nat)
    requires y >= 1
    ensures var end, t := Moment(Date(y, 12, 31), 8 * 60 * MINUTE), Moment(Date(y, 12, 31), 17 * 60 * MINUTE);
            var e := Event(Moment(Date(y, 12, 1), 17 * 60 * MINUTE), Daily, Some(end), []);
            EventOk(e) && Next(e, t, t) == Some(t) && !UpTo(t, end)
  {
    var end := Moment(Date(y, 12, 31), 8 * 60 * MINUTE);
    LastDayFound(Event(Moment(Date(y, 12, 1), 17 * 60 * MINUTE), Daily, Some(end), []));
  }
}
