/** The next occurrence of a recurring event (_next_recurring_event_occurrence in
    pawlia/scheduler.py), for rules of FREQ, UNTIL and, weekly, BYDAY in the sense of
    section 3.3.10 of RFC 5545. */
module Recurrence {
  import opened Calendar
  import opened Errors

  datatype Freq = Daily | Weekly | Monthly | Yearly | Other

  /** `until` is the moment that UNTIL names, `byday` the weekdays of BYDAY. */
  datatype Event = Event(base: Moment, freq: Freq, until: Option<Moment>, byday: seq<nat>)

  predicate EventOk(e: Event) {
    IsMoment(e.base) && (e.until.Some? ==> IsMoment(e.until.value))
  }

  function Weekdays(e: Event): seq<nat> {
    if e.byday == [] then [Weekday(e.base.date)] else e.byday
  }

  // ------------------------------------------------------- what an occurrence is

  /** The rule of the event has an occurrence on this date. */
  predicate On(e: Event, a: Date) {
    match e.freq
    case Daily => true
    case Weekly => Weekday(a) in Weekdays(e)
    case Monthly => a.d == e.base.date.d
    case Yearly => a.d == e.base.date.d && a.m == e.base.date.m
    case Other => false
  }

  const LAST := 86_399_000_000

  /** The last second of the day of UNTIL is not over. */
  predicate InTime(e: Event, t: Moment) {
    e.until.Some? ==> UpTo(t, Moment(e.until.value.date, LAST))
  }

  /** A moment that the code takes for an occurrence: not before the base start, not after
      the day of UNTIL. */
  predicate Kept(e: Event, t: Moment) {
    && IsMoment(t) && t.tod == e.base.tod && On(e, t.date)
    && UpTo(e.base, t) && InTime(e, t)
  }

  /** The rule has not ended by this moment. */
  predicate Lasting(e: Event, t: Moment) {
    e.until.Some? ==> UpTo(t, e.until.value)
  }

  /** An occurrence in the sense of RFC 5545: not after the moment of UNTIL either. */
  predicate Occurs(e: Event, t: Moment) {
    Kept(e, t) && Lasting(e, t)
  }

  predicate Within(t: Moment, now: Moment, window: Moment) {
    UpTo(now, t) && UpTo(t, window)
  }

  // -------------------------------------------------------------------- the search

  /** `datetime.replace`, where the day must exist. */
  function Replace(a: Date, y: nat, m: nat): seq<Date> {
    if IsDate(Date(y, m, a.d)) then [Date(y, m, a.d)] else []
  }

  /** The year and month of `offset` months on, offset at most 1. */
  function MonthOn(a: Date, offset: nat): (nat, nat)
    requires a.m >= 1
  {
    var month := a.m + offset;
    (a.y + (month - 1) / 12, (month - 1) % 12 + 1)
  }

  /** The day k days on, when the rule allows its weekday. */
  function DayIf(e: Event, a: Date, k: nat): seq<Date>
    requires IsDate(a)
  {
    if Weekday(AddDays(a, k)) in Weekdays(e) then [AddDays(a, k)] else []
  }

  function WeekParts(e: Event, a: Date, offset: nat): (r: seq<seq<Date>>)
    requires IsDate(a)
    ensures |r| == offset
  {
    seq(offset, k requires 0 <= k < offset => DayIf(e, a, k))
  }

  function Flat(parts: seq<seq<Date>>): seq<Date> {
    if parts == [] then [] else Flat(parts[..|parts| - 1]) + parts[|parts| - 1]
  }

  function WeekDates(e: Event, a: Date, offset: nat): seq<Date>
    requires IsDate(a)
  {
    Flat(WeekParts(e, a, offset))
  }

  lemma FlatPush(parts: seq<seq<Date>>, part: seq<Date>)
    ensures Flat(parts + [part]) == Flat(parts) + part
  {
    assert (parts + [part])[..|parts|] == parts;
  }

  lemma {:induction false} FlatHolds(parts: seq<seq<Date>>, k: nat, a: Date)
    requires k < |parts| && a in parts[k]
    ensures a in Flat(parts)
  {
    if k < |parts| - 1 {
      FlatHolds(parts[..|parts| - 1], k, a);
    }
  }

  lemma {:induction false} FlatOnly(parts: seq<seq<Date>>, a: Date) returns (k: nat)
    requires a in Flat(parts)
    ensures k < |parts| && a in parts[k]
  {
    if a in parts[|parts| - 1] {
      k := |parts| - 1;
    } else {
      k := FlatOnly(parts[..|parts| - 1], a);
    }
  }

  lemma WeekPartNext(e: Event, a: Date, offset: nat)
    requires IsDate(a)
    ensures WeekParts(e, a, offset + 1) == WeekParts(e, a, offset) + [DayIf(e, a, offset)]
  {}

  function MonthDates(e: Event, a: Date): seq<Date>
    requires a.m >= 1
  {
    Replace(e.base.date, MonthOn(a, 0).0, MonthOn(a, 0).1) + Replace(e.base.date, MonthOn(a, 1).0, MonthOn(a, 1).1)
  }

  function YearDates(e: Event, a: Date): seq<Date> {
    Replace(e.base.date, a.y, e.base.date.m) + Replace(e.base.date, a.y + 1, e.base.date.m)
  }

  function DayDates(e: Event, a: Date): seq<Date>
    requires EventOk(e) && IsDate(a)
  {
    var gap := Ordinal(a) - Ordinal(e.base.date);
    var days := if gap > 0 then gap else 0;
    [AddDays(e.base.date, days), AddDays(e.base.date, days + 1)]
  }

  /** The dates that are looked at. */
  function Dates(e: Event, now: Date): seq<Date>
    requires EventOk(e) && IsDate(now)
  {
    match e.freq
    case Daily => DayDates(e, now)
    case Weekly => WeekDates(e, now, 8)
    case Monthly => MonthDates(e, now)
    case Yearly => YearDates(e, now)
    case Other => []
  }

  function Insert(a: Date, s: seq<Date>): seq<Date> {
    if s == [] || !Earlier(s[0], a) then [a] + s else [s[0]] + Insert(a, s[1..])
  }

  function Sorted(s: seq<Date>): seq<Date> {
    if s == [] then [] else Insert(s[0], Sorted(s[1..]))
  }

  predicate Fits(e: Event, now: Moment, window: Moment, a: Date) {
    var t := Moment(a, e.base.tod);
    UpTo(e.base, t) && InTime(e, t) && Within(t, now, window)
  }

  function FirstFit(e: Event, now: Moment, window: Moment, dates: seq<Date>): Option<Moment> {
    if dates == [] then None
    else if Fits(e, now, window, dates[0]) then Some(Moment(dates[0], e.base.tod))
    else FirstFit(e, now, window, dates[1..])
  }

  function Next(e: Event, now: Moment, window: Moment): Option<Moment>
    requires EventOk(e) && IsMoment(now)
  {
    FirstFit(e, now, window, Sorted(Dates(e, now.date)))
  }

  /** The search as it runs: collect candidates, sort, take the first that fits. */
  method FindNext(e: Event, now: Moment, window: Moment) returns (r: Option<Moment>)
    requires EventOk(e) && IsMoment(now)
    ensures r == Next(e, now, window)
  {
    var dates: seq<Date> := [];
    match e.freq {
      case Daily =>
        var gap := Ordinal(now.date) - Ordinal(e.base.date);
        var days := if gap > 0 then gap else 0;
        dates := [AddDays(e.base.date, days), AddDays(e.base.date, days + 1)];
      case Weekly =>
        for offset := 0 to 8
          invariant dates == WeekDates(e, now.date, offset)
        {
          WeekPartNext(e, now.date, offset);
          FlatPush(WeekParts(e, now.date, offset), DayIf(e, now.date, offset));
          var day := AddDays(now.date, offset);
          if Weekday(day) in Weekdays(e) {
            dates := dates + [day];
          }
        }
      case Monthly =>
        for offset := 0 to 2
          invariant offset == 0 ==> dates == []
          invariant offset == 1 ==> dates == Replace(e.base.date, MonthOn(now.date, 0).0, MonthOn(now.date, 0).1)
          invariant offset == 2 ==> dates == MonthDates(e, now.date)
        {
          var (year, month) := MonthOn(now.date, offset);
          dates := dates + Replace(e.base.date, year, month);
        }
      case Yearly =>
        for offset := 0 to 2
          invariant offset == 0 ==> dates == []
          invariant offset == 1 ==> dates == Replace(e.base.date, now.date.y, e.base.date.m)
          invariant offset == 2 ==> dates == YearDates(e, now.date)
        {
          dates := dates + Replace(e.base.date, now.date.y + offset, e.base.date.m);
        }
      case Other =>
    }
    dates := Sorted(dates);
    for k := 0 to |dates|
      invariant FirstFit(e, now, window, dates[k..]) == Next(e, now, window)
    {
      assert dates[k..][0] == dates[k] && dates[k..][1..] == dates[k + 1..];
      if Fits(e, now, window, dates[k]) {
        return Some(Moment(dates[k], e.base.tod));
      }
    }
    return None;
  }

  // ------------------------------------------------------------------- sorting laws

  predicate Ordered(s: seq<Date>) {
    |s| <= 1 || (!Earlier(s[1], s[0]) && Ordered(s[1..]))
  }

  lemma {:induction false} InsertOrdered(a: Date, s: seq<Date>)
    requires Ordered(s)
    ensures Ordered(Insert(a, s)) && Insert(a, s)[0] == if s == [] || !Earlier(s[0], a) then a else s[0]
  {
    if s != [] && Earlier(s[0], a) {
      InsertOrdered(a, s[1..]);
      assert ([s[0]] + Insert(a, s[1..]))[1..] == Insert(a, s[1..]);
    } else {
      assert ([a] + s)[1..] == s;
    }
  }

  lemma {:induction false} InsertHolds(a: Date, s: seq<Date>, x: Date)
    ensures x in Insert(a, s) <==> x == a || x in s
  {
    if s != [] && Earlier(s[0], a) {
      InsertHolds(a, s[1..], x);
      assert x in s <==> x == s[0] || x in s[1..];
      assert x in [s[0]] + Insert(a, s[1..]) <==> x == s[0] || x in Insert(a, s[1..]);
    }
  }

  lemma {:induction false} SortedOrdered(s: seq<Date>)
    ensures Ordered(Sorted(s))
  {
    if s != [] {
      SortedOrdered(s[1..]);
      InsertOrdered(s[0], Sorted(s[1..]));
    }
  }

  lemma {:induction false} SortedHolds(s: seq<Date>, a: Date)
    ensures a in Sorted(s) <==> a in s
  {
    if s != [] {
      SortedHolds(s[1..], a);
      InsertHolds(s[0], Sorted(s[1..]), a);
    }
  }

  lemma {:induction false} OrderedFirst(s: seq<Date>, a: Date)
    requires Ordered(s) && a in s
    ensures !Earlier(a, s[0])
  {
    if a != s[0] {
      OrderedFirst(s[1..], a);
    }
  }

  /** The first that fits, of dates in order, is the earliest that fits. */
  lemma {:induction false} FirstIsEarliest(e: Event, now: Moment, window: Moment, s: seq<Date>, a: Date)
    requires Ordered(s) && a in s && Fits(e, now, window, a)
    ensures FirstFit(e, now, window, s).Some?
    ensures !Earlier(a, FirstFit(e, now, window, s).value.date)
  {
    if Fits(e, now, window, s[0]) {
      OrderedFirst(s, a);
    } else {
      FirstIsEarliest(e, now, window, s[1..], a);
    }
  }

  lemma {:induction false} FirstFits(e: Event, now: Moment, window: Moment, s: seq<Date>)
    ensures var r := FirstFit(e, now, window, s);
            r.Some? ==> r.value.date in s && r.value.tod == e.base.tod && Fits(e, now, window, r.value.date)
  {
    if s != [] && !Fits(e, now, window, s[0]) {
      FirstFits(e, now, window, s[1..]);
    }
  }
}
