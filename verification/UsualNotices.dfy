/** Announcements in the years 2 to 9996, where every date that a check computes exists
    (_check_events in pawlia/scheduler.py): no check ends early, and when the user is told
    depends on the clocks of the checks alone. */
module UsualNotices {
  import opened Calendar
  import opened Errors
  import opened EventStarts
  import opened EventNotices
  import opened NoticeLaws
  import Weeks

  // ------------------------------------------------------------------ far from the ends

  lemma EarlyDay(a: Date)
    requires IsDate(a) && a.y <= 9996
    ensures Ordinal(a) <= 3_651_063
  {
    WithinYear(a);
    Weeks.BeforeYearExactly(a.y + 1);
  }

  lemma LateDay(a: Date)
    requires IsDate(a) && a.y >= 2
    ensures Ordinal(a) >= 366
  {
    WithinYear(a);
    BeforeYearLater(2, a.y);
    Weeks.BeforeYearExactly(a.y);
    assert (a.y - 1) / 4 >= (a.y - 1) / 100;
  }

  predicate UsualTime(t: Moment) {
    IsMoment(t) && 2 <= t.date.y <= 9996
  }

  lemma UsualMicros(t: Moment)
    requires UsualTime(t)
    ensures 366 * 86_400_000_000 <= Micros(t) < 3_651_064 * 86_400_000_000
  {
    EarlyDay(t.date);
    LateDay(t.date);
  }

  /** A reminder within a year of the start, before it or after it. */
  predicate UsualNote(r: Note) {
    r.minutes.Some? ==> -525_600 <= r.minutes.value <= 525_600
  }

  predicate UsualEntry(e: Entry) {
    && EntryOk(e) && UsualTime(e.event.base)
    && forall r | r in e.reminders :: UsualNote(r)
  }

  lemma {:induction false} UsualLongest(reminders: seq<Note>)
    requires forall r | r in reminders :: UsualNote(r)
    ensures Longest(reminders) <= 525_600
  {
    if reminders != [] {
      var init, last := reminders[..|reminders| - 1], reminders[|reminders| - 1];
      assert last in reminders && forall r | r in init :: r in reminders;
      UsualLongest(init);
    }
  }

  lemma UsualComputes(e: Entry, now: Moment)
    requires UsualEntry(e) && UsualTime(now)
    ensures Computes(e, now)
  {
    UsualLongest(e.reminders);
    UsualMicros(now);
    EarlyDay(now.date);
    EarlyDay(e.event.base.date);
  }

  lemma UsualStart(e: Entry, now: Moment)
    requires UsualEntry(e) && UsualTime(now) && Start(e, now).Some?
    ensures 366 * 86_400_000_000 <= Micros(Start(e, now).value) < 3_651_430 * 86_400_000_000
  {
    var t := Start(e, now).value;
    if e.recurring {
      StartAhead(e, now);
      UsualLongest(e.reminders);
      UsualMicros(now);
      RecurrenceLaws.NextIsEarliest(e.event, now, Window(e, now), now);
      MicrosOrder(t, Window(e, now));
    } else {
      UsualMicros(t);
    }
  }

  lemma {:induction false} UsualPasses(e: Upcoming, start: Moment, now: Moment, known: set<Key>, n: nat)
    requires n <= |e.reminders| && forall r | r in e.reminders :: UsualNote(r)
    requires 366 * 86_400_000_000 <= Micros(start) < 3_651_430 * 86_400_000_000
    ensures Passes(e, start, now, known, n)
  {
    if n > 0 {
      UsualPasses(e, start, now, known, n - 1);
      assert e.reminders[n - 1] in e.reminders;
    }
  }

  lemma UsualPassable(e: Entry, now: Moment, known: set<Key>)
    requires UsualEntry(e) && UsualTime(now)
    ensures Passable(e, now, known)
  {
    UsualComputes(e, now);
    if Start(e, now).Some? {
      UsualStart(e, now);
      UsualPasses(Prepared(e, now), Start(e, now).value, now, known, |e.reminders|);
    }
  }

  predicate UsualEntries(entries: seq<Entry>) {
    entries == [] || (UsualEntries(entries[..|entries| - 1]) && UsualEntry(entries[|entries| - 1]))
  }

  /** The check of such a calendar gets to its end. */
  lemma {:induction false} UsualThrough(entries: seq<Entry>, now: Moment, known: set<Key>)
    requires UsualEntries(entries) && UsualTime(now)
    ensures EntriesOk(entries) && AllPassable(entries, now, known)
  {
    if entries != [] {
      var n := |entries| - 1;
      UsualThrough(entries[..n], now, known);
      UsualPassable(entries[n], now, known);
    }
  }

  lemma UsualReaches(x: Entry, entries: seq<Entry>, now: Moment, known: set<Key>)
    requires UsualEntries(entries) && UsualTime(now) && NoticeLaws.Apart(entries)
    ensures EntriesOk(entries) && (Reaches(x, entries, now, known) <==> x in entries)
  {
    UsualThrough(entries, now, known);
    ThroughExactly(entries, now, known);
    ThroughReaches(x, entries, now, known);
  }

  // ------------------------------------------------------------------------ main laws

  predicate UsualChecks(checks: seq<Check>) {
    checks == []
    || (var c := checks[|checks| - 1];
        && UsualChecks(checks[..|checks| - 1])
        && UsualTime(c.now) && UsualEntries(c.entries) && NoticeLaws.Apart(c.entries))
  }

  lemma {:induction false} UsualOk(checks: seq<Check>)
    requires UsualChecks(checks)
    ensures ChecksOk(checks)
  {
    if checks != [] {
      UsualOk(checks[..|checks| - 1]);
      UsualThrough(checks[|checks| - 1].entries, checks[|checks| - 1].now, {});
    }
  }

  /** Some check comes, with the entry in the calendar, in the last quarter of an hour before
      t or at t. */
  predicate SomeJustBefore(x: Entry, t: Moment, checks: seq<Check>) {
    checks != []
    && (var init, c := checks[..|checks| - 1], checks[|checks| - 1];
        || SomeJustBefore(x, t, init)
        || (x in c.entries && 0 <= Micros(t) - Micros(c.now) <= 900_000_000))
  }

  lemma {:induction false} FallsJustBefore(x: Entry, t: Moment, checks: seq<Check>, known: set<Key>)
    requires UsualChecks(checks) && UsualEntry(x)
    ensures ChecksOk(checks)
    ensures FallsSoon(x, t, checks, known) <==> SomeJustBefore(x, t, checks)
  {
    UsualOk(checks);
    if checks != [] {
      var n := |checks| - 1;
      var init, c := checks[..n], checks[n];
      FallsJustBefore(x, t, init, known);
      UsualReaches(x, c.entries, c.now, Known(init, known));
      UsualComputes(x, c.now);
    }
  }

  /** In usual years, over any run of checks, the user is told of an occurrence of an entry,
      and then once, if and only if some check comes in the quarter of an hour before it
      with the entry in the calendar. */
  lemma OccurrenceTold(x: Entry, t: Moment, checks: seq<Check>)
    requires UsualChecks(checks) && UsualEntry(x) && Happens(x, t) && AlwaysAlone(x, checks)
    ensures ChecksOk(checks) && Distinct(AllSent(checks, {}))
    ensures Notice(Heads(x.file, Marked(x, t)), true) in AllSent(checks, {})
            <==> SomeJustBefore(x, t, checks)
  {
    UsualOk(checks);
    OccurrenceAnnounced(x, t, checks, {});
    FallsJustBefore(x, t, checks, {});
  }

  lemma SpanComes(x: Entry, t: Moment, k: nat, now: Moment, known: set<Key>)
    requires UsualEntry(x) && UsualTime(now) && Happens(x, t)
    requires k < |x.reminders| && x.reminders[k].minutes.Some? && InSpan(x, t, k, now)
    ensures Comes(x, t, k, now, known)
  {
    UsualComputes(x, now);
    WindowReaches(x, t, k, now);
    StartExactly(x, now, t);
    UsualStart(x, now);
    UsualPasses(Prepared(x, now), t, now, known, k + 1);
  }

  /** Some check comes in the span of the reminder, with the entry in the calendar. */
  predicate SomeInTime(x: Entry, t: Moment, k: nat, checks: seq<Check>)
    requires UsualChecks(checks) && EntryOk(x) && k < |x.reminders| && x.reminders[k].minutes.Some?
  {
    checks != []
    && (var init, c := checks[..|checks| - 1], checks[|checks| - 1];
        SomeInTime(x, t, k, init) || (x in c.entries && InSpan(x, t, k, c.now)))
  }

  lemma {:induction false} FallsInTime(x: Entry, t: Moment, k: nat, checks: seq<Check>, known: set<Key>)
    requires UsualChecks(checks) && UsualEntry(x) && Happens(x, t)
    requires k < |x.reminders| && x.reminders[k].minutes.Some?
    ensures ChecksOk(checks)
    ensures FallsInSpan(x, t, k, checks, known) <==> SomeInTime(x, t, k, checks)
  {
    UsualOk(checks);
    if checks != [] {
      var n := |checks| - 1;
      var init, c := checks[..n], checks[n];
      FallsInTime(x, t, k, init, known);
      UsualReaches(x, c.entries, c.now, Known(init, known));
      if InSpan(x, t, k, c.now) {
        SpanComes(x, t, k, c.now, Known(init, known));
      }
    }
  }

  /** And of a reminder of it that is to be sent, and then once, if and only if some check
      comes in its span. */
  lemma ReminderTold(x: Entry, t: Moment, k: nat, checks: seq<Check>)
    requires UsualChecks(checks) && UsualEntry(x) && Happens(x, t) && AlwaysAlone(x, checks)
    requires k < |x.reminders| && x.reminders[k].minutes.Some?
    ensures ChecksOk(checks)
    ensures Notice(Reminder(x.file, Marked(x, t), k), true) in AllSent(checks, {})
            <==> x.reminders[k].notify && SomeInTime(x, t, k, checks)
  {
    UsualOk(checks);
    ReminderAnnounced(x, t, k, checks, {});
    FallsInTime(x, t, k, checks, {});
  }
}
