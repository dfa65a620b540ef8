/** What a run of checks announces (_check_events in pawlia/scheduler.py): exactly what
    falls due at a check that gets as far as its entry. */
module NoticeLaws {
  import opened Calendar
  import opened Errors
  import opened EventStarts
  import opened EventNotices

  /** None of the first n reminders ends the check. */
  predicate Passes(e: Upcoming, start: Moment, now: Moment, known: set<Key>, n: nat)
    requires n <= |e.reminders|
  {
    n == 0 || (Passes(e, start, now, known, n - 1) && !Stops(e, start, now, known, n - 1))
  }

  lemma {:induction false} PassesExactly(e: Upcoming, start: Moment, now: Moment, known: set<Key>, n: nat)
    requires n <= |e.reminders|
    ensures RemindersSent(e, start, now, known, n).ok <==> Passes(e, start, now, known, n)
  {
    if n > 0 {
      PassesExactly(e, start, now, known, n - 1);
    }
  }

  /** The entry has this to announce now, unless it was announced. */
  predicate Offers(e: Upcoming, now: Moment, known: set<Key>, key: Key) {
    && e.found.Begins? && key.file == e.file && key.at == At(e, e.found.start)
    && match key
       case Heads(_, _) => Soon(e.found.start, now)
       case Reminder(_, _, k) =>
         && k < |e.reminders| && e.reminders[k].minutes.Some?
         && Timely(e.found.start, e.reminders[k].minutes.value, now)
         && Passes(e, e.found.start, now, known, k + 1)
  }

  lemma {:induction false} RemindersHold(e: Upcoming, start: Moment, now: Moment, known: set<Key>, n: nat, key: Key)
    requires n <= |e.reminders| && e.found == Begins(start)
    ensures key in Keys(RemindersSent(e, start, now, known, n).sent)
            <==> key.Reminder? && key.index < n && key !in known && Offers(e, now, known, key)
  {
    if n > 0 {
      var r := RemindersSent(e, start, now, known, n - 1).sent;
      RemindersHold(e, start, now, known, n - 1, key);
      PassesExactly(e, start, now, known, n - 1);
      KeysPush(r, Notice(Reminder(e.file, At(e, start), n - 1), e.reminders[n - 1].notify));
    }
  }

  lemma EntryHolds(e: Upcoming, now: Moment, known: set<Key>, key: Key)
    ensures key in Keys(EntrySent(e, now, known).sent) <==> key !in known && Offers(e, now, known, key)
  {
    if e.found.Begins? {
      var h := HeadsSent(e, e.found.start, now, known);
      RemindersHold(e, e.found.start, now, known, |e.reminders|, key);
      KeysJoin(h, RemindersSent(e, e.found.start, now, known, |e.reminders|).sent);
      assert h != [] ==> h[..0] == [];
    }
  }

  /** The check gets as far as an entry that offers this. */
  predicate SomeOffers(entries: seq<Upcoming>, now: Moment, known: set<Key>, key: Key) {
    entries != []
    && (var n := |entries| - 1;
        var before := Sent(entries[..n], now, known);
        || SomeOffers(entries[..n], now, known, key)
        || (before.ok && Offers(entries[n], now, known + Keys(before.sent), key)))
  }

  lemma {:induction false} SentHolds(entries: seq<Upcoming>, now: Moment, known: set<Key>, key: Key)
    ensures key in Keys(Sent(entries, now, known).sent) <==> key !in known && SomeOffers(entries, now, known, key)
  {
    if entries != [] {
      var n := |entries| - 1;
      var before := Sent(entries[..n], now, known);
      SentHolds(entries[..n], now, known, key);
      if before.ok {
        EntryHolds(entries[n], now, known + Keys(before.sent), key);
        KeysJoin(before.sent, EntrySent(entries[n], now, known + Keys(before.sent)).sent);
      }
    }
  }

  /** What is known at the next check. */
  function Known(checks: seq<Check>, known: set<Key>): set<Key>
    requires ChecksOk(checks)
  {
    known + Keys(AllSent(checks, known))
  }

  predicate EverOffered(checks: seq<Check>, known: set<Key>, key: Key)
    requires ChecksOk(checks)
  {
    checks != []
    && (var init, c := checks[..|checks| - 1], checks[|checks| - 1];
        || EverOffered(init, known, key)
        || SomeOffers(PreparedAll(c.entries, c.now), c.now, Known(init, known), key))
  }

  /** Over any run, exactly what some check offers is announced, but for what was known
      before. */
  lemma {:induction false} AllSentHolds(checks: seq<Check>, known: set<Key>, key: Key)
    requires ChecksOk(checks)
    ensures key in Keys(AllSent(checks, known)) <==> key !in known && EverOffered(checks, known, key)
  {
    if checks != [] {
      var init, c := checks[..|checks| - 1], checks[|checks| - 1];
      AllSentHolds(init, known, key);
      SentHolds(PreparedAll(c.entries, c.now), c.now, Known(init, known), key);
      KeysJoin(AllSent(init, known), Sent(PreparedAll(c.entries, c.now), c.now, Known(init, known)).sent);
    }
  }

  // ------------------------------------------------------------ one entry of a calendar

  /** What is known of an occurrence when it was announced. */
  function Marked(x: Entry, t: Moment): Option<Moment> {
    if x.recurring then Some(Moment(t.date, t.tod - t.tod % MINUTE)) else None
  }

  predicate NoFile(file: int, entries: seq<Entry>) {
    entries == [] || (NoFile(file, entries[..|entries| - 1]) && entries[|entries| - 1].file != file)
  }

  /** The calendar lists the file of x at most once, and then it holds x. */
  predicate Alone(x: Entry, entries: seq<Entry>) {
    entries == []
    || (var init, e := entries[..|entries| - 1], entries[|entries| - 1];
        Alone(x, init) && (e.file == x.file ==> e == x && NoFile(x.file, init)))
  }

  predicate AlwaysAlone(x: Entry, checks: seq<Check>) {
    checks == []
    || (AlwaysAlone(x, checks[..|checks| - 1]) && Alone(x, checks[|checks| - 1].entries))
  }

  /** The check gets as far as x. */
  predicate Reaches(x: Entry, entries: seq<Entry>, now: Moment, known: set<Key>)
    requires EntriesOk(entries) && IsMoment(now)
  {
    entries != []
    && (var init := entries[..|entries| - 1];
        || Reaches(x, init, now, known)
        || (entries[|entries| - 1] == x && Sent(PreparedAll(init, now), now, known).ok))
  }

  /** The time for this notice of an occurrence t of x has come and is not over, and no
      reminder up to it ends the check. */
  predicate OfTime(x: Entry, t: Moment, now: Moment, known: set<Key>, key: Key)
    requires EntryOk(x) && IsMoment(now)
  {
    match key
    case Heads(_, _) => Soon(t, now)
    case Reminder(_, _, k) =>
      && k < |x.reminders| && x.reminders[k].minutes.Some? && Timely(t, x.reminders[k].minutes.value, now)
      && Passes(Prepared(x, now), t, now, known, k + 1)
  }

  /** What x itself has to announce of its occurrence t. */
  predicate Own(x: Entry, t: Moment, now: Moment, known: set<Key>, key: Key)
    requires EntryOk(x) && IsMoment(now)
  {
    Finds(x, now) == Begins(t) && OfTime(x, t, now, known, key)
  }

  /** No two occurrences of an entry are marked alike. */
  lemma MarkedApart(x: Entry, s: Moment, t: Moment)
    requires Happens(x, s) && Happens(x, t) && Marked(x, s) == Marked(x, t)
    ensures s == t
  {}

  lemma StartHappens(x: Entry, now: Moment)
    requires EntryOk(x) && IsMoment(now) && Start(x, now).Some?
    ensures Happens(x, Start(x, now).value)
  {
    if x.recurring {
      StartAhead(x, now);
    }
  }

  lemma OffersOf(e: Upcoming, x: Entry, s: Moment, t: Moment, now: Moment, known: set<Key>, key: Key)
    requires EntryOk(x) && IsMoment(now) && e == Prepared(x, now) && e.found == Begins(s)
    requires Happens(x, s) && Happens(x, t) && key.file == x.file && key.at == Marked(x, t)
    ensures Offers(e, now, known, key) <==> s == t && OfTime(x, t, now, known, key)
  {
    if Marked(x, s) == Marked(x, t) {
      MarkedApart(x, s, t);
    }
  }

  lemma KeyIsOne(x: Entry, t: Moment, now: Moment, known: set<Key>, key: Key)
    requires EntryOk(x) && IsMoment(now) && Happens(x, t) && key.file == x.file && key.at == Marked(x, t)
    ensures Offers(Prepared(x, now), now, known, key) <==> Own(x, t, now, known, key)
  {
    var found := Finds(x, now);
    if found.Begins? {
      StartHappens(x, now);
      OffersOf(Prepared(x, now), x, found.start, t, now, known, key);
    }
  }

  /** Entries of other files mark no key of this file. */
  lemma {:induction false} OtherKeys(file: int, entries: seq<Entry>, now: Moment, known: set<Key>, key: Key)
    requires EntriesOk(entries) && IsMoment(now) && NoFile(file, entries) && key.file == file
    ensures !SomeOffers(PreparedAll(entries, now), now, known, key)
  {
    if entries != [] {
      var n := |entries| - 1;
      OtherKeys(file, entries[..n], now, known, key);
      PreparedInit(entries, now);
    }
  }

  lemma {:induction false} PassesAlike(e: Upcoming, s: Moment, now: Moment, a: set<Key>, b: set<Key>, n: nat)
    requires n <= |e.reminders| && forall key: Key | key.file == e.file :: key in a <==> key in b
    ensures Passes(e, s, now, a, n) <==> Passes(e, s, now, b, n)
  {
    if n > 0 {
      PassesAlike(e, s, now, a, b, n - 1);
      assert Reminder(e.file, At(e, s), n - 1).file == e.file;
    }
  }

  lemma OthersLeave(entries: seq<Entry>, now: Moment, known: set<Key>, file: int)
    requires EntriesOk(entries) && IsMoment(now) && NoFile(file, entries)
    ensures forall key: Key | key.file == file ::
              key in known + Keys(Sent(PreparedAll(entries, now), now, known).sent) <==> key in known
  {
    forall key: Key | key.file == file
      ensures key in known + Keys(Sent(PreparedAll(entries, now), now, known).sent) <==> key in known
    {
      SentHolds(PreparedAll(entries, now), now, known, key);
      OtherKeys(file, entries, now, known, key);
    }
  }

  lemma OwnSame(x: Entry, t: Moment, now: Moment, a: set<Key>, b: set<Key>, key: Key)
    requires EntryOk(x) && IsMoment(now) && forall k: Key | k.file == x.file :: k in a <==> k in b
    ensures Own(x, t, now, a, key) <==> Own(x, t, now, b, key)
  {
    if key.Reminder? && key.index < |x.reminders| {
      PassesAlike(Prepared(x, now), t, now, a, b, key.index + 1);
    }
  }

  lemma OwnAlike(x: Entry, t: Moment, init: seq<Entry>, now: Moment, known: set<Key>, key: Key)
    requires EntriesOk(init) && EntryOk(x) && IsMoment(now) && NoFile(x.file, init)
    ensures Own(x, t, now, known + Keys(Sent(PreparedAll(init, now), now, known).sent), key)
            <==> Own(x, t, now, known, key)
  {
    OthersLeave(init, now, known, x.file);
    OwnSame(x, t, now, known + Keys(Sent(PreparedAll(init, now), now, known).sent), known, key);
  }

  lemma {:induction false} OnlyOwn(x: Entry, t: Moment, entries: seq<Entry>, now: Moment, known: set<Key>, key: Key)
    requires EntriesOk(entries) && EntryOk(x) && IsMoment(now) && Happens(x, t) && Alone(x, entries)
    requires key.file == x.file && key.at == Marked(x, t)
    ensures SomeOffers(PreparedAll(entries, now), now, known, key)
            <==> Reaches(x, entries, now, known) && Own(x, t, now, known, key)
  {
    if entries != [] {
      var n := |entries| - 1;
      var init := entries[..n];
      OnlyOwn(x, t, init, now, known, key);
      PreparedInit(entries, now);
      if entries[n].file == x.file {
        KeyIsOne(x, t, now, known + Keys(Sent(PreparedAll(init, now), now, known).sent), key);
        OwnAlike(x, t, init, now, known, key);
      }
    }
  }

  /** Some check gets as far as x, at a moment at which it has this to announce. */
  predicate Falls(x: Entry, t: Moment, checks: seq<Check>, known: set<Key>, key: Key)
    requires ChecksOk(checks) && EntryOk(x)
  {
    checks != []
    && (var init, c := checks[..|checks| - 1], checks[|checks| - 1];
        var k := Known(init, known);
        Falls(x, t, init, known, key) || (Reaches(x, c.entries, c.now, k) && Own(x, t, c.now, k, key)))
  }

  lemma {:induction false} OfferedFalls(x: Entry, t: Moment, checks: seq<Check>, known: set<Key>, key: Key)
    requires ChecksOk(checks) && EntryOk(x) && Happens(x, t) && AlwaysAlone(x, checks)
    requires key.file == x.file && key.at == Marked(x, t)
    ensures EverOffered(checks, known, key) <==> Falls(x, t, checks, known, key)
  {
    if checks != [] {
      var init, c := checks[..|checks| - 1], checks[|checks| - 1];
      OfferedFalls(x, t, init, known, key);
      OnlyOwn(x, t, c.entries, c.now, Known(init, known), key);
    }
  }

  // -------------------------------------------------------------- whether the user is told

  /** The heads-up is always sent, a reminder when it says so. */
  predicate Tells(reminders: seq<Note>, key: Key) {
    key.Reminder? ==> key.index < |reminders| && reminders[key.index].notify
  }

  lemma {:induction false} RemindersTell(e: Upcoming, start: Moment, now: Moment, known: set<Key>, n: nat, m: Notice)
    requires n <= |e.reminders| && m in RemindersSent(e, start, now, known, n).sent
    ensures m.key.file == e.file && m.told == Tells(e.reminders, m.key)
  {
    var before := RemindersSent(e, start, now, known, n - 1);
    if m in before.sent {
      RemindersTell(e, start, now, known, n - 1, m);
    }
  }

  lemma EntryTells(e: Upcoming, now: Moment, known: set<Key>, m: Notice)
    requires m in EntrySent(e, now, known).sent
    ensures m.key.file == e.file && m.told == Tells(e.reminders, m.key)
  {
    var start := e.found.start;
    if m !in HeadsSent(e, start, now, known) {
      RemindersTell(e, start, now, known, |e.reminders|, m);
    }
  }

  lemma {:induction false} SentTells(x: Entry, entries: seq<Entry>, now: Moment, known: set<Key>, m: Notice)
    requires EntriesOk(entries) && IsMoment(now) && Alone(x, entries)
    requires m in Sent(PreparedAll(entries, now), now, known).sent && m.key.file == x.file
    ensures m.told == Tells(x.reminders, m.key)
  {
    var n := |entries| - 1;
    var init := PreparedAll(entries[..n], now);
    PreparedInit(entries, now);
    var before := Sent(init, now, known);
    if m in before.sent {
      SentTells(x, entries[..n], now, known, m);
    } else {
      EntryTells(Prepared(entries[n], now), now, known + Keys(before.sent), m);
    }
  }

  lemma {:induction false} AllTell(x: Entry, checks: seq<Check>, known: set<Key>, m: Notice)
    requires ChecksOk(checks) && AlwaysAlone(x, checks) && m in AllSent(checks, known) && m.key.file == x.file
    ensures m.told == Tells(x.reminders, m.key)
  {
    var init, c := checks[..|checks| - 1], checks[|checks| - 1];
    if m in AllSent(init, known) {
      AllTell(x, init, known, m);
    } else {
      SentTells(x, c.entries, c.now, known + Keys(AllSent(init, known)), m);
    }
  }

  lemma {:induction false} KeysHold(notices: seq<Notice>, key: Key)
    ensures key in Keys(notices) <==> Notice(key, true) in notices || Notice(key, false) in notices
  {
    if notices != [] {
      KeysHold(notices[..|notices| - 1], key);
    }
  }

  /** The user is told of a key of x exactly when it is marked and to be sent. */
  lemma ToldExactly(x: Entry, checks: seq<Check>, known: set<Key>, key: Key)
    requires ChecksOk(checks) && AlwaysAlone(x, checks) && key.file == x.file
    ensures Notice(key, true) in AllSent(checks, known)
            <==> key in Keys(AllSent(checks, known)) && Tells(x.reminders, key)
  {
    KeysHold(AllSent(checks, known), key);
    if Notice(key, true) in AllSent(checks, known) {
      AllTell(x, checks, known, Notice(key, true));
    }
    if Notice(key, false) in AllSent(checks, known) {
      AllTell(x, checks, known, Notice(key, false));
    }
  }

  // ---------------------------------------------------------------------- main laws

  /** Some check that gets as far as x falls into the quarter of an hour before t. */
  predicate FallsSoon(x: Entry, t: Moment, checks: seq<Check>, known: set<Key>)
    requires ChecksOk(checks) && EntryOk(x)
  {
    checks != []
    && (var init, c := checks[..|checks| - 1], checks[|checks| - 1];
        || FallsSoon(x, t, init, known)
        || (&& Reaches(x, c.entries, c.now, Known(init, known)) && Computes(x, c.now)
            && 0 <= Micros(t) - Micros(c.now) <= 900_000_000))
  }

  lemma {:induction false} HeadsFalls(x: Entry, t: Moment, checks: seq<Check>, known: set<Key>)
    requires ChecksOk(checks) && EntryOk(x) && Happens(x, t)
    ensures Falls(x, t, checks, known, Heads(x.file, Marked(x, t))) <==> FallsSoon(x, t, checks, known)
  {
    if checks != [] {
      var c := checks[|checks| - 1];
      HeadsFalls(x, t, checks[..|checks| - 1], known);
      if Soon(t, c.now) {
        SoonCounts(x, c.now, t);
      }
    }
  }

  /** Over any run of checks, the user is told of an occurrence of an entry, and then once,
      if and only if some check that gets as far as the entry falls into the quarter of an
      hour before it, and it was not known before. */
  lemma OccurrenceAnnounced(x: Entry, t: Moment, checks: seq<Check>, known: set<Key>)
    requires ChecksOk(checks) && EntryOk(x) && Happens(x, t) && AlwaysAlone(x, checks)
    ensures Notice(Heads(x.file, Marked(x, t)), true) in AllSent(checks, known)
            <==> Heads(x.file, Marked(x, t)) !in known && FallsSoon(x, t, checks, known)
    ensures Distinct(AllSent(checks, known))
  {
    var key := Heads(x.file, Marked(x, t));
    NeverTwice(checks, known);
    ToldExactly(x, checks, known, key);
    AllSentHolds(checks, known, key);
    OfferedFalls(x, t, checks, known, key);
    HeadsFalls(x, t, checks, known);
  }

  /** The span in which a reminder of an occurrence can be announced: from its time on,
      while the occurrence counts, which for an event without a rule ends a quarter of an
      hour after the start, and for a recurring one at the start. */
  predicate InSpan(x: Entry, t: Moment, k: nat, now: Moment)
    requires EntryOk(x) && IsMoment(now) && k < |x.reminders| && x.reminders[k].minutes.Some?
  {
    && Micros(t) - x.reminders[k].minutes.value * 60_000_000 <= Micros(now)
    && Micros(now) <= Micros(t) + (if x.recurring then 0 else 900_000_000)
    && Counts(x, t, now)
  }

  /** Nothing of x up to reminder k ends the check. */
  predicate Comes(x: Entry, t: Moment, k: nat, now: Moment, known: set<Key>)
    requires EntryOk(x) && IsMoment(now) && k < |x.reminders|
  {
    Computes(x, now) && Passes(Prepared(x, now), t, now, known, k + 1)
  }

  lemma WindowReaches(x: Entry, t: Moment, k: nat, now: Moment)
    requires EntryOk(x) && IsMoment(now) && IsMoment(t) && k < |x.reminders| && x.reminders[k].minutes.Some?
    requires Micros(t) - x.reminders[k].minutes.value * MINUTE <= Micros(now)
    ensures UpTo(t, Window(x, now))
  {
    LongestBounds(x.reminders, k);
    MicrosOrder(t, Window(x, now));
  }

  lemma SpanExactly(x: Entry, t: Moment, k: nat, now: Moment, known: set<Key>)
    requires EntryOk(x) && IsMoment(now) && Happens(x, t) && k < |x.reminders| && x.reminders[k].minutes.Some?
    ensures Own(x, t, now, known, Reminder(x.file, Marked(x, t), k))
            <==> InSpan(x, t, k, now) && Comes(x, t, k, now, known)
  {
    if Micros(t) - x.reminders[k].minutes.value * MINUTE <= Micros(now) {
      WindowReaches(x, t, k, now);
      StartExactly(x, now, t);
      if x.recurring && Start(x, now) == Some(t) {
        StartAhead(x, now);
      }
    }
  }

  /** Some check that gets as far as this reminder of x falls into its span. */
  predicate FallsInSpan(x: Entry, t: Moment, k: nat, checks: seq<Check>, known: set<Key>)
    requires ChecksOk(checks) && EntryOk(x) && k < |x.reminders| && x.reminders[k].minutes.Some?
  {
    checks != []
    && (var init, c := checks[..|checks| - 1], checks[|checks| - 1];
        var known' := Known(init, known);
        || FallsInSpan(x, t, k, init, known)
        || (Reaches(x, c.entries, c.now, known') && InSpan(x, t, k, c.now) && Comes(x, t, k, c.now, known')))
  }

  lemma {:induction false} ReminderFalls(x: Entry, t: Moment, k: nat, checks: seq<Check>, known: set<Key>)
    requires ChecksOk(checks) && EntryOk(x) && Happens(x, t) && k < |x.reminders| && x.reminders[k].minutes.Some?
    ensures Falls(x, t, checks, known, Reminder(x.file, Marked(x, t), k)) <==> FallsInSpan(x, t, k, checks, known)
  {
    if checks != [] {
      var init := checks[..|checks| - 1];
      ReminderFalls(x, t, k, init, known);
      SpanExactly(x, t, k, checks[|checks| - 1].now, Known(init, known));
    }
  }

  /** Over any run of checks, a reminder of an occurrence is announced, and then once, if
      and only if some check that gets as far as it falls into its span, and it was not
      known before; the user is told exactly when the reminder is to be sent, too. */
  lemma ReminderAnnounced(x: Entry, t: Moment, k: nat, checks: seq<Check>, known: set<Key>)
    requires ChecksOk(checks) && EntryOk(x) && Happens(x, t) && AlwaysAlone(x, checks)
    requires k < |x.reminders| && x.reminders[k].minutes.Some?
    ensures Reminder(x.file, Marked(x, t), k) in Keys(AllSent(checks, known))
            <==> Reminder(x.file, Marked(x, t), k) !in known && FallsInSpan(x, t, k, checks, known)
    ensures Notice(Reminder(x.file, Marked(x, t), k), true) in AllSent(checks, known)
            <==> Reminder(x.file, Marked(x, t), k) in Keys(AllSent(checks, known)) && x.reminders[k].notify
    ensures Distinct(AllSent(checks, known))
  {
    var key := Reminder(x.file, Marked(x, t), k);
    NeverTwice(checks, known);
    ToldExactly(x, checks, known, key);
    AllSentHolds(checks, known, key);
    OfferedFalls(x, t, checks, known, key);
    ReminderFalls(x, t, k, checks, known);
  }

  // ------------------------------------------------------------- how far a check gets

  /** Nothing of this entry ends the check. */
  predicate Passable(e: Entry, now: Moment, known: set<Key>)
    requires EntryOk(e) && IsMoment(now)
  {
    match Finds(e, now)
    case Overflow => false
    case Nothing => true
    case Begins(start) => Passes(Prepared(e, now), start, now, known, |e.reminders|)
  }

  predicate AllPassable(entries: seq<Entry>, now: Moment, known: set<Key>)
    requires EntriesOk(entries) && IsMoment(now)
  {
    entries == []
    || (AllPassable(entries[..|entries| - 1], now, known) && Passable(entries[|entries| - 1], now, known))
  }

  /** A directory lists no file twice. */
  predicate Apart(entries: seq<Entry>) {
    entries == []
    || (Apart(entries[..|entries| - 1]) && NoFile(entries[|entries| - 1].file, entries[..|entries| - 1]))
  }

  /** A check gets to its end if and only if no entry of the calendar ends it, as things
      stand before it. */
  lemma {:induction false} ThroughExactly(entries: seq<Entry>, now: Moment, known: set<Key>)
    requires EntriesOk(entries) && IsMoment(now) && Apart(entries)
    ensures Sent(PreparedAll(entries, now), now, known).ok <==> AllPassable(entries, now, known)
  {
    if entries != [] {
      var n := |entries| - 1;
      var init, e := entries[..n], Prepared(entries[n], now);
      ThroughExactly(init, now, known);
      PreparedInit(entries, now);
      if e.found.Begins? {
        var known' := known + Keys(Sent(PreparedAll(init, now), now, known).sent);
        OthersLeave(init, now, known, e.file);
        PassesAlike(e, e.found.start, now, known', known, |e.reminders|);
        PassesExactly(e, e.found.start, now, known', |e.reminders|);
      }
    }
  }

  lemma OkBefore(all: seq<Upcoming>, now: Moment, known: set<Key>)
    requires all != [] && Sent(all, now, known).ok
    ensures Sent(all[..|all| - 1], now, known).ok
  {}

  /** A check that gets to its end gets as far as every entry. */
  lemma {:induction false} ThroughReaches(x: Entry, entries: seq<Entry>, now: Moment, known: set<Key>)
    requires EntriesOk(entries) && IsMoment(now) && Sent(PreparedAll(entries, now), now, known).ok
    ensures Reaches(x, entries, now, known) <==> x in entries
  {
    if entries != [] {
      var init := entries[..|entries| - 1];
      PreparedInit(entries, now);
      OkBefore(PreparedAll(entries, now), now, known);
      ThroughReaches(x, init, now, known);
      assert entries == init + [entries[|entries| - 1]];
    }
  }

  /** The reminder is so far off that the look-ahead leaves the calendar, whatever the
      time is. */
  predicate FarOff(e: Entry) {
    Longest(e.reminders) * MINUTE >= LAST_DAY * DAY
  }

  predicate SomeFarOff(entries: seq<Entry>) {
    entries != [] && (SomeFarOff(entries[..|entries| - 1]) || FarOff(entries[|entries| - 1]))
  }

  lemma {:induction false} FarOffStops(entries: seq<Entry>, now: Moment, known: set<Key>)
    requires EntriesOk(entries) && IsMoment(now) && SomeFarOff(entries)
    ensures !Sent(PreparedAll(entries, now), now, known).ok
  {
    var n := |entries| - 1;
    PreparedInit(entries, now);
    if SomeFarOff(entries[..n]) {
      FarOffStops(entries[..n], now, known);
    } else {
      FromOrdinalOf(now.date);
      assert !Computes(entries[n], now);
    }
  }

  /** Wherever x is listed, such an entry comes before it. */
  predicate Behind(x: Entry, entries: seq<Entry>) {
    entries == []
    || (var init := entries[..|entries| - 1];
        Behind(x, init) && (entries[|entries| - 1] == x ==> SomeFarOff(init)))
  }

  predicate AlwaysBehind(x: Entry, checks: seq<Check>) {
    checks == [] || (AlwaysBehind(x, checks[..|checks| - 1]) && Behind(x, checks[|checks| - 1].entries))
  }

  lemma {:induction false} BehindOffers(x: Entry, entries: seq<Entry>, now: Moment, known: set<Key>, key: Key)
    requires EntriesOk(entries) && IsMoment(now) && Alone(x, entries) && Behind(x, entries) && key.file == x.file
    ensures !SomeOffers(PreparedAll(entries, now), now, known, key)
  {
    if entries != [] {
      var n := |entries| - 1;
      BehindOffers(x, entries[..n], now, known, key);
      PreparedInit(entries, now);
      if entries[n] == x {
        FarOffStops(entries[..n], now, known);
      }
    }
  }

  /** Over any run, nothing is ever announced of an entry that is listed behind one with
      such a reminder. */
  lemma {:induction false} Silenced(x: Entry, checks: seq<Check>, known: set<Key>, key: Key)
    requires ChecksOk(checks) && AlwaysAlone(x, checks) && AlwaysBehind(x, checks) && key.file == x.file
    ensures key !in Keys(AllSent(checks, known))
  {
    if checks != [] {
      var init, c := checks[..|checks| - 1], checks[|checks| - 1];
      var r := Sent(PreparedAll(c.entries, c.now), c.now, Known(init, known));
      Silenced(x, init, known, key);
      BehindOffers(x, c.entries, c.now, Known(init, known), key);
      SentHolds(PreparedAll(c.entries, c.now), c.now, Known(init, known), key);
      KeysJoin(AllSent(init, known), r.sent);
    }
  }
}
