/** Which start of a calendar event counts now (_check_events in
    pawlia/scheduler.py). */
module EventStarts {
  import opened Calendar
  import opened Errors
  import opened Recurrence
  import opened RecurrenceLaws
  import opened FirstOccurrence

  const HEADS_UP := 15

  /** A reminder: the minutes before the start, if they are a number, and whether it is
      to be sent. */
  datatype Note = Note(minutes: Option<int>, notify: bool)

  /** An event file: its start or rule, and its reminders. */
  datatype Entry = Entry(file: int, event: Event, recurring: bool, reminders: seq<Note>)

  function Micros(t: Moment): int {
    Ordinal(t.date) * DAY + t.tod
  }

  function FromMicros(n: nat): (t: Moment)
    requires n >= DAY
    ensures IsMoment(t)
  {
    Moment(FromOrdinal(n / DAY), n % DAY)
  }

  lemma MicrosOf(n: nat)
    requires n >= DAY
    ensures Micros(FromMicros(n)) == n
  {
    OrdinalOf(n / DAY);
  }

  /** Comparing moments is comparing microseconds. */
  lemma MicrosOrder(a: Moment, b: Moment)
    requires IsMoment(a) && IsMoment(b)
    ensures UpTo(a, b) <==> Micros(a) <= Micros(b)
  {
    OrdinalOrder(a.date, b.date);
  }

  function Later(t: Moment, minutes: nat): (u: Moment)
    requires IsMoment(t)
    ensures IsMoment(u) && Micros(u) == Micros(t) + minutes * MINUTE
  {
    FromOrdinalOf(t.date);
    MicrosOf(Micros(t) + minutes * MINUTE);
    FromMicros(Micros(t) + minutes * MINUTE)
  }

  function Longest(reminders: seq<Note>): nat {
    if reminders == [] then 0
    else
      var before := Longest(reminders[..|reminders| - 1]);
      match reminders[|reminders| - 1].minutes
      case None => before
      case Some(m) => if m > before then m else before
  }

  lemma {:induction false} LongestBounds(reminders: seq<Note>, k: nat)
    requires k < |reminders| && reminders[k].minutes.Some?
    ensures reminders[k].minutes.value <= Longest(reminders)
  {
    if k < |reminders| - 1 {
      LongestBounds(reminders[..|reminders| - 1], k);
    }
  }

  predicate EntryOk(e: Entry) {
    EventOk(e.event)
  }

  /** How far ahead an entry is looked for, in minutes. */
  function Ahead(reminders: seq<Note>): nat {
    if Longest(reminders) > HEADS_UP then Longest(reminders) else HEADS_UP
  }

  function Window(e: Entry, now: Moment): (w: Moment)
    requires IsMoment(now)
    ensures IsMoment(w)
  {
    Later(now, Ahead(e.reminders))
  }

  /** The start that counts now: the next occurrence, or the one there is. */
  function Start(e: Entry, now: Moment): Option<Moment>
    requires EntryOk(e) && IsMoment(now)
  {
    if e.recurring then Next(e.event, now, Window(e, now)) else Some(e.event.base)
  }

  method LookAhead(reminders: seq<Note>) returns (minutes: nat)
    ensures minutes == Ahead(reminders)
  {
    var longest := 0;
    for k := 0 to |reminders|
      invariant longest == Longest(reminders[..k])
    {
      assert reminders[..k + 1][..k] == reminders[..k];
      if reminders[k].minutes.Some? && reminders[k].minutes.value > longest {
        longest := reminders[k].minutes.value;
      }
    }
    assert reminders[..|reminders|] == reminders;
    return if longest > HEADS_UP then longest else HEADS_UP;
  }

  /** The search names no day that datetime does not know. */
  predicate Searches(e: Event, now: Moment) {
    match e.freq
    case Daily => Ordinal(now.date) < LAST_DAY && Ordinal(e.base.date) < LAST_DAY
    case Weekly => Ordinal(now.date) + 7 <= LAST_DAY
    case _ => true
  }

  /** The end of the look-ahead and the days of the search can be computed; where they
      cannot, an exception ends the whole check. */
  predicate Computes(e: Entry, now: Moment) {
    InCalendar(Micros(now) + Ahead(e.reminders) * MINUTE) && (e.recurring ==> Searches(e.event, now))
  }

  datatype Found = Overflow | Nothing | Begins(start: Moment)

  function Finds(e: Entry, now: Moment): Found
    requires EntryOk(e) && IsMoment(now)
  {
    if !Computes(e, now) then Overflow
    else
      match Start(e, now)
      case None => Nothing
      case Some(start) => Begins(start)
  }

  /** Finding the start that counts, as it runs. */
  method FindStart(e: Entry, now: Moment) returns (found: Found)
    requires EntryOk(e) && IsMoment(now)
    ensures found == Finds(e, now)
  {
    var minutes := LookAhead(e.reminders);
    if !InCalendar(Micros(now) + minutes * MINUTE) {
      return Overflow;
    }
    if !e.recurring {
      return Begins(e.event.base);
    }
    if !Searches(e.event, now) {
      return Overflow;
    }
    var start := FindNext(e.event, now, Later(now, minutes));
    return if start.Some? then Begins(start.value) else Nothing;
  }

  /** An occurrence counts now: it is the first from now on, and not beyond where the
      search looks; the start of an event without a rule always does. */
  predicate Counts(e: Entry, t: Moment, now: Moment)
    requires EntryOk(e) && IsMoment(now)
  {
    if e.recurring then First(e.event, now) == Some(t) && !Beyond(e.event, now.date, t.date) else t == e.event.base
  }

  /** What an entry announces: the occurrences of its rule, or its start. */
  predicate Happens(e: Entry, t: Moment) {
    if e.recurring then Kept(e.event, t) else t == e.event.base
  }

  /** An occurrence within the look-ahead is the start that counts exactly when it counts. */
  lemma StartExactly(e: Entry, now: Moment, t: Moment)
    requires EntryOk(e) && IsMoment(now) && Happens(e, t) && UpTo(t, Window(e, now))
    ensures Start(e, now) == Some(t) <==> Counts(e, t, now)
  {
    if e.recurring {
      NextIsFirst(e.event, now, Window(e, now));
    }
  }

  /** The start of a recurring entry is never before now. */
  lemma StartAhead(e: Entry, now: Moment)
    requires EntryOk(e) && IsMoment(now) && e.recurring && Start(e, now).Some?
    ensures Kept(e.event, Start(e, now).value) && Micros(now) <= Micros(Start(e, now).value)
  {
    var s := Start(e, now).value;
    NextIsEarliest(e.event, now, Window(e, now), s);
    MicrosOrder(now, s);
  }

  /** Occurrences are at least a day apart. */
  lemma DayApart(e: Event, s: Moment, t: Moment)
    requires Kept(e, s) && Kept(e, t) && Micros(s) < Micros(t)
    ensures Micros(s) + DAY <= Micros(t)
  {
    assert Ordinal(s.date) < Ordinal(t.date);
  }

  /** An occurrence that begins within a quarter of an hour is the start that counts. */
  lemma SoonCounts(e: Entry, now: Moment, t: Moment)
    requires EntryOk(e) && IsMoment(now) && Happens(e, t)
    requires Micros(now) <= Micros(t) <= Micros(now) + HEADS_UP * MINUTE
    ensures Start(e, now) == Some(t)
  {
    if e.recurring {
      MicrosOrder(now, t);
      FirstBefore(e.event, now, t);
      FirstIsFirst(e.event, now);
      var f := First(e.event, now).value;
      MicrosOrder(now, f);
      MicrosOrder(f, t);
      FirstInTime(e.event, f, t);
      if Micros(f) < Micros(t) {
        DayApart(e.event, f, t);
      }
      OrdinalOrder(f.date, t.date);
      SoonReached(e.event, now, t);
      MicrosOrder(t, Window(e, now));
      StartExactly(e, now, t);
    }
  }

  lemma FirstInTime(e: Event, f: Moment, t: Moment)
    requires Kept(e, t) && UpTo(f, t) && IsMoment(f) && f.tod == e.base.tod && On(e, f.date) && UpTo(e.base, f)
    ensures Kept(e, f)
  {
    if e.until.Some? {
      UpToTrans(f, t, Moment(e.until.value.date, LAST));
    }
  }

  lemma SoonReached(e: Event, now: Moment, t: Moment)
    requires IsMoment(now) && IsMoment(t) && EventOk(e)
    requires Micros(now) <= Micros(t) <= Micros(now) + HEADS_UP * MINUTE
    ensures !Beyond(e, now.date, t.date)
  {
    OrdinalOrder(now.date, t.date);
    assert Ordinal(t.date) <= Ordinal(now.date) + 1;
    if Ordinal(t.date) == Ordinal(now.date) + 1 {
      SuccOrdinal(now.date);
      OrdinalOrder(Succ(now.date), t.date);
    }
  }
}
