/** Announcing calendar events and their reminders (_check_events in
    pawlia/scheduler.py): each at most once over any run of checks. */
module EventNotices {
  import Seqs
  import opened Calendar
  import opened Errors
  import opened EventStarts

  /** An entry as it stands at a check: the start that counts. */
  datatype Upcoming = Upcoming(file: int, found: Found, recurring: bool, reminders: seq<Note>)

  function Prepared(e: Entry, now: Moment): Upcoming
    requires EntryOk(e) && IsMoment(now)
  {
    Upcoming(e.file, Finds(e, now), e.recurring, e.reminders)
  }

  predicate EntriesOk(entries: seq<Entry>) {
    entries == [] || (EntriesOk(entries[..|entries| - 1]) && EntryOk(entries[|entries| - 1]))
  }

  function PreparedAll(entries: seq<Entry>, now: Moment): (r: seq<Upcoming>)
    requires EntriesOk(entries) && IsMoment(now)
    ensures |r| == |entries|
  {
    if entries == [] then []
    else PreparedAll(entries[..|entries| - 1], now) + [Prepared(entries[|entries| - 1], now)]
  }

  lemma {:induction false} PreparedAt(entries: seq<Entry>, now: Moment, k: nat)
    requires EntriesOk(entries) && IsMoment(now) && k < |entries|
    ensures EntryOk(entries[k]) && PreparedAll(entries, now)[k] == Prepared(entries[k], now)
  {
    if k < |entries| - 1 {
      PreparedAt(entries[..|entries| - 1], now, k);
    }
  }

  lemma PreparedInit(entries: seq<Entry>, now: Moment)
    requires EntriesOk(entries) && IsMoment(now) && entries != []
    ensures PreparedAll(entries, now)[..|entries| - 1] == PreparedAll(entries[..|entries| - 1], now)
  {}

  /** What is announced: an event, or one of its reminders; of a recurring event, one
      occurrence, up to its minute. */
  datatype Key = Heads(file: int, at: Option<Moment>) | Reminder(file: int, at: Option<Moment>, index: nat)

  /** A key that is remembered, and whether the user was told. */
  datatype Notice = Notice(key: Key, told: bool)

  function Keys(notices: seq<Notice>): set<Key> {
    if notices == [] then {} else Keys(notices[..|notices| - 1]) + {notices[|notices| - 1].key}
  }

  function At(e: Upcoming, start: Moment): Option<Moment> {
    if e.recurring then Some(Moment(start.date, start.tod - start.tod % MINUTE)) else None
  }

  /** The event begins within a quarter of an hour. */
  predicate Soon(start: Moment, now: Moment) {
    Micros(now) <= Micros(start) <= Micros(now) + HEADS_UP * MINUTE
  }

  /** The time of a reminder has come, and the start is not long over. */
  predicate Timely(start: Moment, minutes: int, now: Moment) {
    Micros(start) - minutes * MINUTE <= Micros(now) <= Micros(start) + HEADS_UP * MINUTE
  }

  /** The time of a reminder, and the end of it when it has come, can be computed. */
  predicate Datable(start: Moment, minutes: int, now: Moment) {
    var time := Micros(start) - minutes * MINUTE;
    InCalendar(time) && (time <= Micros(now) ==> InCalendar(Micros(start) + HEADS_UP * MINUTE))
  }

  /** What was sent or marked, and whether the check went on. */
  datatype Step = Step(sent: seq<Notice>, ok: bool)

  function HeadsSent(e: Upcoming, start: Moment, now: Moment, known: set<Key>): seq<Notice> {
    var key := Heads(e.file, At(e, start));
    if key !in known && Soon(start, now) then [Notice(key, true)] else []
  }

  /** The reminder is a number of minutes and was not announced yet. */
  predicate Pending(e: Upcoming, start: Moment, known: set<Key>, k: nat)
    requires k < |e.reminders|
  {
    e.reminders[k].minutes.Some? && Reminder(e.file, At(e, start), k) !in known
  }

  /** The reminder lies outside the calendar: an exception ends the check. */
  predicate Stops(e: Upcoming, start: Moment, now: Moment, known: set<Key>, k: nat)
    requires k < |e.reminders|
  {
    Pending(e, start, known, k) && !Datable(start, e.reminders[k].minutes.value, now)
  }

  predicate Reminds(e: Upcoming, start: Moment, now: Moment, known: set<Key>, k: nat)
    requires k < |e.reminders|
  {
    Pending(e, start, known, k) && Timely(start, e.reminders[k].minutes.value, now)
  }

  /** A reminder that is not to be sent is marked all the same. */
  function RemindersSent(e: Upcoming, start: Moment, now: Moment, known: set<Key>, n: nat): Step
    requires n <= |e.reminders|
  {
    if n == 0 then Step([], true)
    else
      var before := RemindersSent(e, start, now, known, n - 1);
      if !before.ok then before
      else if Stops(e, start, now, known, n - 1) then Step(before.sent, false)
      else if Reminds(e, start, now, known, n - 1) then
        Step(before.sent + [Notice(Reminder(e.file, At(e, start), n - 1), e.reminders[n - 1].notify)], true)
      else before
  }

  /** The announcements of one entry, in order. */
  function EntrySent(e: Upcoming, now: Moment, known: set<Key>): Step
  {
    match e.found
    case Overflow => Step([], false)
    case Nothing => Step([], true)
    case Begins(start) =>
      var r := RemindersSent(e, start, now, known, |e.reminders|);
      Step(HeadsSent(e, start, now, known) + r.sent, r.ok)
  }

  function Sent(entries: seq<Upcoming>, now: Moment, known: set<Key>): Step
  {
    if entries == [] then Step([], true)
    else
      var n := |entries| - 1;
      var before := Sent(entries[..n], now, known);
      if !before.ok then before
      else
        var more := EntrySent(entries[n], now, known + Keys(before.sent));
        Step(before.sent + more.sent, more.ok)
  }

  // ------------------------------------------------------------------------- laws

  predicate Distinct(notices: seq<Notice>) {
    notices == []
    || (var n := |notices| - 1; Distinct(notices[..n]) && notices[n].key !in Keys(notices[..n]))
  }

  lemma {:induction false} KeysJoin(x: seq<Notice>, y: seq<Notice>)
    ensures Keys(x + y) == Keys(x) + Keys(y)
  {
    if y == [] {
      assert x + y == x;
    } else {
      assert (x + y)[..|x + y| - 1] == x + y[..|y| - 1];
      KeysJoin(x, y[..|y| - 1]);
    }
  }

  lemma KeysPush(x: seq<Notice>, n: Notice)
    ensures Keys(x + [n]) == Keys(x) + {n.key}
  {
    assert (x + [n])[..|x|] == x;
  }

  lemma {:induction false} DistinctJoin(x: seq<Notice>, y: seq<Notice>)
    requires Distinct(x) && Distinct(y) && Keys(x) !! Keys(y)
    ensures Distinct(x + y)
  {
    if y == [] {
      assert x + y == x;
    } else {
      var n := |y| - 1;
      assert (x + y)[..|x| + n] == x + y[..n];
      DistinctJoin(x, y[..n]);
      KeysJoin(x, y[..n]);
    }
  }

  predicate RemindersBelow(keys: set<Key>, n: nat) {
    forall k | k in keys :: k.Reminder? && k.index < n
  }

  lemma {:induction false} RemindersNew(e: Upcoming, start: Moment, now: Moment, known: set<Key>, n: nat)
    requires n <= |e.reminders|
    ensures var r := RemindersSent(e, start, now, known, n).sent;
            Distinct(r) && RemindersBelow(Keys(r), n) && Keys(r) !! known
  {
    if n > 0 {
      RemindersNew(e, start, now, known, n - 1);
      var r := RemindersSent(e, start, now, known, n - 1).sent;
      var notice := Notice(Reminder(e.file, At(e, start), n - 1), e.reminders[n - 1].notify);
      assert (r + [notice])[..|r|] == r;
    }
  }

  lemma HeadsNew(e: Upcoming, start: Moment, now: Moment, known: set<Key>)
    ensures var h := HeadsSent(e, start, now, known);
            Distinct(h) && Keys(h) <= {Heads(e.file, At(e, start))} && Keys(h) !! known
  {
    var notice := Notice(Heads(e.file, At(e, start)), true);
    assert [notice][..0] == [];
  }

  lemma EntryNew(e: Upcoming, now: Moment, known: set<Key>)
    ensures var r := EntrySent(e, now, known).sent; Distinct(r) && Keys(r) !! known
  {
    if e.found.Begins? {
      var start := e.found.start;
      var h := HeadsSent(e, start, now, known);
      var r := RemindersSent(e, start, now, known, |e.reminders|).sent;
      HeadsNew(e, start, now, known);
      RemindersNew(e, start, now, known, |e.reminders|);
      DistinctJoin(h, r);
      KeysJoin(h, r);
    }
  }

  /** One check announces nothing twice and nothing that was announced before. */
  lemma {:induction false} SentNew(entries: seq<Upcoming>, now: Moment, known: set<Key>)
    ensures var r := Sent(entries, now, known).sent; Distinct(r) && Keys(r) !! known
  {
    if entries != [] {
      var n := |entries| - 1;
      var before := Sent(entries[..n], now, known).sent;
      SentNew(entries[..n], now, known);
      EntryNew(entries[n], now, known + Keys(before));
      var r := EntrySent(entries[n], now, known + Keys(before)).sent;
      DistinctJoin(before, r);
      KeysJoin(before, r);
    }
  }

  lemma RemindersNext(e: Upcoming, start: Moment, now: Moment, known: set<Key>, heads: seq<Notice>, k: nat)
    requires k < |e.reminders| && RemindersSent(e, start, now, known, k).ok
    requires heads == HeadsSent(e, start, now, known)
    ensures var before := heads + RemindersSent(e, start, now, known, k).sent;
            var after := heads + RemindersSent(e, start, now, known, k + 1).sent;
            var notice := Notice(Reminder(e.file, At(e, start), k), e.reminders[k].notify);
            && (RemindersSent(e, start, now, known, k + 1).ok <==> !Stops(e, start, now, known, k))
            && (notice.key in known + Keys(before) <==> notice.key in known)
            && if !Stops(e, start, now, known, k) && Reminds(e, start, now, known, k) then
                 after == before + [notice] && Keys(after) == Keys(before) + {notice.key}
               else after == before
  {
    var r := RemindersSent(e, start, now, known, k).sent;
    var notice := Notice(Reminder(e.file, At(e, start), k), e.reminders[k].notify);
    Regrouped(heads, r, notice);
    KeysPush(heads + r, notice);
    KeysJoin(heads, r);
    RemindersNew(e, start, now, known, k);
  }

  lemma Regrouped(x: seq<Notice>, y: seq<Notice>, n: Notice)
    ensures x + (y + [n]) == (x + y) + [n]
  {}

  lemma {:induction false} RemindersEnd(e: Upcoming, start: Moment, now: Moment, known: set<Key>, k: nat, n: nat)
    requires k <= n <= |e.reminders| && !RemindersSent(e, start, now, known, k).ok
    ensures RemindersSent(e, start, now, known, n) == RemindersSent(e, start, now, known, k)
  {
    if k < n {
      RemindersEnd(e, start, now, known, k, n - 1);
    }
  }

  lemma SentNext(entries: seq<Upcoming>, k: nat, now: Moment, known: set<Key>)
    requires k < |entries| && Sent(entries[..k], now, known).ok
    ensures var before := Sent(entries[..k], now, known).sent;
            var more := EntrySent(entries[k], now, known + Keys(before));
            && Sent(entries[..k + 1], now, known) == Step(before + more.sent, more.ok)
            && Keys(before + more.sent) == Keys(before) + Keys(more.sent)
  {
    assert entries[..k + 1][..k] == entries[..k];
    var before := Sent(entries[..k], now, known).sent;
    KeysJoin(before, EntrySent(entries[k], now, known + Keys(before)).sent);
  }

  lemma {:induction false} SentEnd(entries: seq<Upcoming>, now: Moment, known: set<Key>, k: nat)
    requires k <= |entries| && !Sent(entries[..k], now, known).ok
    ensures Sent(entries, now, known) == Sent(entries[..k], now, known)
  {
    if k < |entries| {
      assert entries[..|entries| - 1][..k] == entries[..k];
      SentEnd(entries[..|entries| - 1], now, known, k);
    } else {
      assert entries[..k] == entries;
    }
  }

  class Notifier {
    var notified: set<Key>
    var log: seq<Notice>

    constructor (known: set<Key>)
      ensures notified == known && log == []
    {
      notified, log := known, [];
    }

    method CheckReminders(e: Upcoming, start: Moment, now: Moment, ghost known: set<Key>) returns (ok: bool)
      requires notified == known + Keys(HeadsSent(e, start, now, known))
      modifies this
      ensures var r := RemindersSent(e, start, now, known, |e.reminders|);
              && ok == r.ok && log == old(log) + r.sent
              && notified == known + Keys(HeadsSent(e, start, now, known) + r.sent)
    {
      ghost var heads := HeadsSent(e, start, now, known);
      assert heads + [] == heads;
      for k := 0 to |e.reminders|
        invariant RemindersSent(e, start, now, known, k).ok
        invariant log == old(log) + RemindersSent(e, start, now, known, k).sent
        invariant notified == known + Keys(heads + RemindersSent(e, start, now, known, k).sent)
      {
        RemindersNext(e, start, now, known, heads, k);
        var key := Reminder(e.file, At(e, start), k);
        if e.reminders[k].minutes.Some? && key !in notified {
          var minutes := e.reminders[k].minutes.value;
          if !Datable(start, minutes, now) {
            RemindersEnd(e, start, now, known, k + 1, |e.reminders|);
            return false;
          }
          if Timely(start, minutes, now) {
            log := log + [Notice(key, e.reminders[k].notify)];
            notified := notified + {key};
          }
        }
      }
      return true;
    }

    method CheckEntry(e: Upcoming, now: Moment) returns (ok: bool)
      modifies this
      ensures var r := EntrySent(e, now, old(notified));
              ok == r.ok && log == old(log) + r.sent && notified == old(notified) + Keys(r.sent)
    {
      if !e.found.Begins? {
        return e.found.Nothing?;
      }
      var start := e.found.start;
      var key := Heads(e.file, At(e, start));
      ghost var known, before := notified, log;
      if key !in notified && Soon(start, now) {
        log := log + [Notice(key, true)];
        notified := notified + {key};
        assert [Notice(key, true)][..0] == [];
      }
      ok := CheckReminders(e, start, now, known);
      Seqs.Assoc(before, HeadsSent(e, start, now, known), RemindersSent(e, start, now, known, |e.reminders|).sent);
    }

    /** One check of all entries: the start that counts is found for each in turn. It ends
        early at a date that cannot be computed. */
    method Check(entries: seq<Entry>, now: Moment) returns (ok: bool)
      requires EntriesOk(entries) && IsMoment(now)
      modifies this
      ensures var r := Sent(PreparedAll(entries, now), now, old(notified));
              ok == r.ok && log == old(log) + r.sent && notified == old(notified) + Keys(r.sent)
    {
      ghost var known, before, all := notified, log, PreparedAll(entries, now);
      for k := 0 to |entries|
        invariant Sent(all[..k], now, known).ok
        invariant log == before + Sent(all[..k], now, known).sent
        invariant notified == known + Keys(Sent(all[..k], now, known).sent)
      {
        PreparedAt(entries, now, k);
        SentNext(all, k, now, known);
        Seqs.Assoc(before, Sent(all[..k], now, known).sent, EntrySent(all[k], now, notified).sent);
        var found := FindStart(entries[k], now);
        ok := CheckEntry(Upcoming(entries[k].file, found, entries[k].recurring, entries[k].reminders), now);
        if !ok {
          SentEnd(all, now, known, k + 1);
          return;
        }
      }
      assert all[..|entries|] == all;
      return true;
    }
  }

  // -------------------------------------------------------------------- many checks

  datatype Check = Check(entries: seq<Entry>, now: Moment)

  predicate ChecksOk(checks: seq<Check>) {
    checks == []
    || (var c := checks[|checks| - 1];
        ChecksOk(checks[..|checks| - 1]) && EntriesOk(c.entries) && IsMoment(c.now))
  }

  function AllSent(checks: seq<Check>, known: set<Key>): seq<Notice>
    requires ChecksOk(checks)
  {
    if checks == [] then []
    else
      var n := |checks| - 1;
      var before := AllSent(checks[..n], known);
      before + Sent(PreparedAll(checks[n].entries, checks[n].now), checks[n].now, known + Keys(before)).sent
  }

  /** Over any run of checks, whatever the clock and the files do, nothing is announced
      twice. */
  lemma {:induction false} NeverTwice(checks: seq<Check>, known: set<Key>)
    requires ChecksOk(checks)
    ensures Distinct(AllSent(checks, known)) && Keys(AllSent(checks, known)) !! known
  {
    if checks != [] {
      var n := |checks| - 1;
      var before := AllSent(checks[..n], known);
      var entries := PreparedAll(checks[n].entries, checks[n].now);
      NeverTwice(checks[..n], known);
      SentNew(entries, checks[n].now, known + Keys(before));
      var r := Sent(entries, checks[n].now, known + Keys(before)).sent;
      DistinctJoin(before, r);
      KeysJoin(before, r);
    }
  }

}
