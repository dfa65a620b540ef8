/** Ticking a reminder line by its text (_check_reminders, _mark_task_done_in_file and
    _reschedule_reminder_in_file in pawlia/scheduler.py): over any run of ticks the text
    says what the record of it says. */
module ReminderTexts {
  import Seqs
  import opened Calendar
  import opened Errors
  import opened Texts
  import opened RecurrenceTexts
  import opened ReminderLaws
  import opened Reminders
  import L = ReminderLines

  // --------------------------------------------------------------- printing a moment

  function Digits(n: nat, k: nat): (t: Text)
    ensures |t| == k
  {
    if k == 0 then [] else Digits(n / 10, k - 1) + [48 + n % 10]
  }

  const HOUR := 60 * MINUTE

  /** `strftime("%Y-%m-%dT%H:%M")`, for years of four digits. */
  function Print(t: Moment): Text {
    Digits(t.date.y, 4) + [45] + Digits(t.date.m, 2) + [45] + Digits(t.date.d, 2) + [84]
    + Digits(t.tod / HOUR, 2) + [58] + Digits(t.tod / MINUTE % 60, 2)
  }

  predicate Printable(t: Moment) {
    IsMoment(t) && t.tod % MINUTE == 0 && 1000 <= t.date.y <= 9999
  }

  lemma {:induction false} DigitsAre(n: nat, k: nat)
    ensures forall c | c in Digits(n, k) :: 48 <= c <= 57
  {
    if k > 0 {
      DigitsAre(n / 10, k - 1);
    }
  }

  lemma PrintIsTime(t: Moment)
    ensures IsTime(Print(t))
  {
    DigitsAre(t.date.y, 4);
    DigitsAre(t.date.m, 2);
    DigitsAre(t.date.d, 2);
    DigitsAre(t.tod / HOUR, 2);
    DigitsAre(t.tod / MINUTE % 60, 2);
    var last := Digits(t.tod / MINUTE % 60, 2);
    assert last[1] in last;
  }

  lemma {:induction false} DigitsSame(a: nat, b: nat, k: nat)
    requires Digits(a, k) == Digits(b, k) && a < Pow10(k) && b < Pow10(k)
    ensures a == b
  {
    if k > 0 {
      var x, y := Digits(a, k), Digits(b, k);
      assert x[..k - 1] == Digits(a / 10, k - 1) && y[..k - 1] == Digits(b / 10, k - 1);
      assert x[k - 1] == 48 + a % 10 && y[k - 1] == 48 + b % 10;
      DigitsSame(a / 10, b / 10, k - 1);
    }
  }

  lemma Places()
    ensures Pow10(4) == 10000 && Pow10(2) == 100
  {
    assert Pow10(1) == 10 && Pow10(3) == 1000;
  }

  lemma DatePart(t: Moment)
    ensures var p := Print(t);
            && |p| == 16 && p[..4] == Digits(t.date.y, 4) && p[5..7] == Digits(t.date.m, 2)
            && p[8..10] == Digits(t.date.d, 2)
  {}

  lemma TimePart(t: Moment)
    ensures var p := Print(t);
            |p| == 16 && p[11..13] == Digits(t.tod / HOUR, 2) && p[14..16] == Digits(t.tod / MINUTE % 60, 2)
  {}

  lemma WholeMinutes(tod: nat)
    requires tod < DAY && tod % MINUTE == 0
    ensures tod / HOUR < 24 && tod == tod / HOUR * HOUR + tod / MINUTE % 60 * MINUTE
  {}

  lemma SameTime(t: Moment, u: Moment)
    requires Printable(t) && Printable(u) && Print(t) == Print(u)
    ensures t.tod == u.tod
  {
    Places();
    TimePart(t);
    TimePart(u);
    WholeMinutes(t.tod);
    WholeMinutes(u.tod);
    DigitsSame(t.tod / HOUR, u.tod / HOUR, 2);
    DigitsSame(t.tod / MINUTE % 60, u.tod / MINUTE % 60, 2);
  }

  /** A printed moment can be read in one way only. */
  lemma PrintSame(t: Moment, u: Moment)
    requires Printable(t) && Printable(u) && Print(t) == Print(u)
    ensures t == u
  {
    Places();
    SameTime(t, u);
    DatePart(t);
    DatePart(u);
    DigitsSame(t.date.y, u.date.y, 4);
    DigitsSame(t.date.m, u.date.m, 2);
    DigitsSame(t.date.d, u.date.d, 2);
  }

  /** `datetime.fromisoformat`, without a time zone, and `str.lower`. */
  datatype Reader = Reader(parse: Text -> Option<Moment>, lower: Code -> Text)

  predicate EndsInDigit(s: Text) {
    s != [] && s[|s| - 1] != 84
  }

  /** A text that names a moment ends in a digit; a printed moment is read back. */
  ghost predicate ReaderOk(r: Reader) {
    && Lowers(r.lower)
    && (forall s :: r.parse(s).Some? ==> EndsInDigit(s))
    && (forall t | Printable(t) :: r.parse(Print(t)) == Some(t))
  }

  ghost function Unprint(s: Text): Option<Moment> {
    if exists t :: Printable(t) && Print(t) == s then
      var t :| Printable(t) && Print(t) == s;
      Some(t)
    else None
  }

  /** There is such a reader. */
  lemma ReaderExists()
    ensures exists r :: ReaderOk(r)
  {
    var r := Reader(s => Unprint(s), c => if c == 84 then [116] else [c]);
    forall s | r.parse(s).Some? ensures EndsInDigit(s) {
      PrintIsTime(r.parse(s).value);
    }
    forall t | Printable(t) ensures r.parse(Print(t)) == Some(t) {
      PrintSame(t, r.parse(Print(t)).value);
    }
    assert ReaderOk(r);
  }

  // ------------------------------------------------------------------ what a line says

  function MarkOf(c: Code): Mark {
    if c == 120 || c == 88 then Done else if c == 45 then Cancelled else Pending
  }

  /** The moment that a text names. */
  function Parse(r: Reader, s: Text): (t: Option<Moment>)
    ensures t.Some? ==> IsMoment(t.value)
  {
    match r.parse(s)
    case None => None
    case Some(t) => if IsMoment(t) then Some(t) else None
  }

  function StampOf(r: Reader, stamp: Option<Text>): Stamp {
    match stamp
    case None => Missing
    case Some(s) =>
      match Parse(r, s)
      case None => Malformed
      case Some(t) => At(t)
  }

  /** The line behind its box. */
  function Body(line: Text): Text {
    var t := TrimRight(line);
    if |t| < 6 then [] else t[6..]
  }

  function Meaning(r: Reader, line: Text): (l: Line)
    ensures LineOk(l)
  {
    match L.Read(line)
    case NoTask => Other
    case Reading(mark, bell, stamp, ticked, title) =>
      Task(MarkOf(mark), bell, StampOf(r, stamp), RuleRead(r.lower, Body(line)), ticked, title)
  }

  // ---------------------------------------------------------------------- one tick

  /** The time of the line as it stands, moved on; without one it stays as it is. */
  function Rescheduled(r: Reader, line: Text, rule: Rule): Text {
    var n := L.StampAt(line);
    if n == |line| then line
    else
      match Parse(r, L.Codes(line[n..]))
      case None => line
      case Some(t) => L.Moved(line, Print(NextTime(t, rule)))
  }

  function Edited(r: Reader, line: Text, rule: Rule, date: Text): Text {
    if rule.Once? then L.Done(line, date) else Rescheduled(r, line, rule)
  }

  /** What a tick makes of a line. */
  function TextTicked(r: Reader, line: Text, now: Moment, date: Text): Text {
    var l := Meaning(r, line);
    if Due(l, now) then Edited(r, line, l.rule, date) else line
  }

  /** The time in a task is the one found in its whole line. */
  lemma StampInWhole(line: Text)
    requires L.Read(line).Reading? && L.Read(line).stamp.Some?
    ensures L.StampAt(line) < |line| && L.Codes(line[L.StampAt(line)..]) == L.Read(line).stamp.value
  {
    var head, before, rest, blanks := L.Apart(line);
    L.TaskRead(head, before, rest);
    L.StampOfLine(head, before, rest, blanks);
  }

  /** What stands in a line around its time stays when it is moved. */
  lemma MovedAround(line: Text, stamp: Text) returns (before: Text, behind: Text)
    requires L.OneLine(line) && L.Read(line).Reading? && L.Read(line).stamp.Some? && L.IsStamp(stamp)
    ensures BlankEnd(before) && Body(line) == before + L.Read(line).stamp.value + behind
    ensures Body(L.Moved(line, stamp)) == before + stamp + behind
  {
    var head, rest, blanks;
    head, before, rest, blanks := L.Apart(line);
    behind := L.DropCodes(rest);
    L.TaskRead(head, before, rest);
    L.SpaceBefore(before + rest);
    L.CodesSplit(rest);
    Seqs.Assoc(head, before, rest);
    Seqs.Assoc(before, L.Codes(rest), behind);
    L.MovedTrim(line, stamp, head, before, rest, blanks);
    Seqs.Assoc(before, stamp, behind);
    Seqs.Assoc(head, before, stamp + behind);
  }

  // ------------------------------------------------------------- what the tick says

  /** The records agree, up to the rule of a task that is not pending. */
  predicate Agree(a: Line, b: Line) {
    a == b || (a.Task? && b.Task? && a.mark != Pending && a == b.(rule := a.rule))
  }

  /** The time of a line has a year of four digits. */
  predicate Dated(l: Line) {
    l.Task? && l.stamp.At? ==> 1000 <= l.stamp.time.date.y
  }

  /** The clock shows a year before 9999. */
  predicate InClock(now: Moment) {
    IsMoment(now) && now.date.y < 9999
  }

  lemma YearBound(b: Date, y: nat)
    requires IsDate(b) && Ordinal(b) <= BeforeYear(y + 1)
    ensures b.y <= y
  {
    WithinYear(b);
    if b.y > y {
      BeforeYearLater(y + 1, b.y);
    }
  }

  /** A step of at most a week leads into the next year at most. */
  lemma WeekYear(a: Date, b: Date)
    requires IsDate(a) && IsDate(b) && Ordinal(b) <= Ordinal(a) + 7
    ensures b.y <= a.y + 1
  {
    WithinYear(a);
    WithinYear(Date(a.y + 1, 1, 7));
    YearBound(b, a.y + 1);
  }

  lemma NextYear(a: Date, rule: Rule)
    requires IsDate(a)
    ensures a.y <= NextDate(a, rule).y <= a.y + 1
  {
    NextDayLater(a, rule);
    OrdinalOrder(a, NextDate(a, rule));
    if rule.Every? && rule.months {
      MonthMoves(a);
    } else {
      DaysMove(a, rule);
      WeekYear(a, NextDate(a, rule));
    }
  }

  lemma Floored(tod: nat)
    ensures (tod - tod % MINUTE) % MINUTE == 0
  {}

  lemma NextPrintable(t: Moment, rule: Rule, now: Moment)
    requires IsMoment(t) && 1000 <= t.date.y && UpTo(t, now) && InClock(now)
    ensures Printable(NextTime(t, rule))
  {
    NextYear(t.date, rule);
    Floored(t.tod);
  }

  lemma DoneSays(r: Reader, line: Text, date: Text)
    requires L.OneLine(line) && L.IsStamp(date) && IsReminder(Meaning(r, line))
    requires Meaning(r, line).stamp.At?
    ensures L.Read(line).mark == L.BLANK
    ensures Agree(Meaning(r, L.Done(line, date)), MarkDone(Meaning(r, line)))
  {
    L.DoneRead(line, date);
  }

  lemma MovedRule(lower: Code -> Text, line: Text, stamp: Text)
    requires Lowers(lower) && L.OneLine(line) && L.Read(line).Reading? && L.Read(line).stamp.Some?
    requires IsTime(stamp) && EndsInDigit(L.Read(line).stamp.value)
    ensures RuleRead(lower, Body(L.Moved(line, stamp))) == RuleRead(lower, Body(line))
  {
    var before, behind := MovedAround(line, stamp);
    StampInWhole(line);
    L.CodesAre(line[L.StampAt(line)..]);
    RuleMoved(lower, before, L.Read(line).stamp.value, stamp, behind);
  }

  lemma MovedMeans(r: Reader, line: Text, stamp: Text, t: Moment)
    requires ReaderOk(r) && L.OneLine(line) && Meaning(r, line).Task? && Meaning(r, line).stamp.At?
    requires IsTime(stamp) && Parse(r, stamp) == Some(t)
    ensures Meaning(r, L.Moved(line, stamp)) == Meaning(r, line).(stamp := At(t))
  {
    L.MovedRead(line, stamp);
    MovedRule(r.lower, line, stamp);
  }

  lemma RescheduledIs(r: Reader, line: Text, rule: Rule)
    requires Meaning(r, line).Task? && Meaning(r, line).stamp.At?
    ensures Rescheduled(r, line, rule) == L.Moved(line, Print(NextTime(Meaning(r, line).stamp.time, rule)))
  {
    StampInWhole(line);
  }

  lemma MovedSays(r: Reader, line: Text, now: Moment)
    requires ReaderOk(r) && L.OneLine(line) && Due(Meaning(r, line), now) && Dated(Meaning(r, line)) && InClock(now)
    ensures var l := Meaning(r, line); Meaning(r, Rescheduled(r, line, l.rule)) == Reschedule(l, l.rule)
  {
    var l := Meaning(r, line);
    NextPrintable(l.stamp.time, l.rule, now);
    RescheduledIs(r, line, l.rule);
    PrintIsTime(NextTime(l.stamp.time, l.rule));
    MovedMeans(r, line, Print(NextTime(l.stamp.time, l.rule)), NextTime(l.stamp.time, l.rule));
  }

  /** After a tick the text says what the tick makes of what it said, and it is still one
      line with its line break. */
  lemma TickSays(r: Reader, line: Text, now: Moment, date: Text)
    requires ReaderOk(r) && L.OneLine(line) && L.IsStamp(date) && Dated(Meaning(r, line)) && InClock(now)
    ensures var after := TextTicked(r, line, now, date);
            && Agree(Meaning(r, after), Ticked(Meaning(r, line), now)) && Dated(Meaning(r, after))
            && L.OneLine(after) && (L.Ended(line) ==> L.Ended(after))
  {
    var l := Meaning(r, line);
    if Due(l, now) {
      if l.rule.Once? {
        DoneSays(r, line, date);
        L.DoneRead(line, date);
      } else {
        MovedSays(r, line, now);
        TickKeepsLine(r, line, now);
        NextYear(l.stamp.time.date, l.rule);
      }
    }
  }

  lemma TickKeepsLine(r: Reader, line: Text, now: Moment)
    requires L.OneLine(line) && Due(Meaning(r, line), now)
    ensures var after := Rescheduled(r, line, Meaning(r, line).rule);
            after != [] && L.OneLine(after) && (L.Ended(line) ==> L.Ended(after))
  {
    var l := Meaning(r, line);
    RescheduledIs(r, line, l.rule);
    PrintIsTime(NextTime(l.stamp.time, l.rule));
    L.MovedRead(line, Print(NextTime(l.stamp.time, l.rule)));
  }

  // -------------------------------------------------------------------- many ticks

  /** A tick: the clock, and the date of the day. */
  datatype Tick = Tick(now: Moment, date: Text)

  predicate TicksOk(ticks: seq<Tick>)
    decreases |ticks|
  {
    ticks == [] || (InClock(ticks[0].now) && L.IsStamp(ticks[0].date) && TicksOk(ticks[1..]))
  }

  function Nows(ticks: seq<Tick>): seq<Moment>
    decreases |ticks|
  {
    if ticks == [] then [] else [ticks[0].now] + Nows(ticks[1..])
  }

  function TextAfter(r: Reader, line: Text, ticks: seq<Tick>): Text
    decreases |ticks|
  {
    if ticks == [] then line else TextAfter(r, TextTicked(r, line, ticks[0].now, ticks[0].date), ticks[1..])
  }

  /** How often the text, read again at each tick, is found due. */
  function TextFires(r: Reader, line: Text, ticks: seq<Tick>): nat
    decreases |ticks|
  {
    if ticks == [] then 0
    else
      (if Due(Meaning(r, line), ticks[0].now) then 1 else 0)
      + TextFires(r, TextTicked(r, line, ticks[0].now, ticks[0].date), ticks[1..])
  }

  lemma AgreeRuns(a: Line, b: Line, nows: seq<Moment>)
    requires LineOk(a) && LineOk(b) && Agree(a, b)
    ensures Fires(a, nows) == Fires(b, nows) && Agree(After(a, nows), After(b, nows))
  {
    if a != b {
      NeverAgain(a, nows);
      NeverAgain(b, nows);
    }
  }

  lemma RunsOn(l: Line, now: Moment, nows: seq<Moment>)
    requires LineOk(l)
    ensures Fires(l, [now] + nows) == (if Due(l, now) then 1 else 0) + Fires(Ticked(l, now), nows)
    ensures After(l, [now] + nows) == After(Ticked(l, now), nows)
  {
    assert ([now] + nows)[1..] == nows;
  }

  lemma AgreeOver(a: Line, b: Line, c: Line)
    requires Agree(a, b) && Agree(b, c)
    ensures Agree(a, c)
  {}

  lemma RunStep(l: Line, said: Line, end: Line, now: Moment, nows: seq<Moment>)
    requires LineOk(l) && LineOk(said) && LineOk(end) && Agree(said, Ticked(l, now)) && Agree(end, After(said, nows))
    ensures Fires(l, [now] + nows) == (if Due(l, now) then 1 else 0) + Fires(said, nows)
    ensures Agree(end, After(l, [now] + nows))
  {
    RunsOn(l, now, nows);
    AgreeRuns(said, Ticked(l, now), nows);
    AgreeOver(end, After(said, nows), After(Ticked(l, now), nows));
  }

  /** Over any run of ticks the text fires as often as the record read off it once, and
      says in the end what becomes of that record: what is proved of records holds of the
      texts. */
  lemma {:induction false} RunSays(r: Reader, line: Text, ticks: seq<Tick>)
    requires ReaderOk(r) && L.OneLine(line) && Dated(Meaning(r, line)) && TicksOk(ticks)
    ensures TextFires(r, line, ticks) == Fires(Meaning(r, line), Nows(ticks))
    ensures Agree(Meaning(r, TextAfter(r, line, ticks)), After(Meaning(r, line), Nows(ticks)))
    ensures L.OneLine(TextAfter(r, line, ticks))
    decreases |ticks|
  {
    if ticks != [] {
      var tick, rest := ticks[0], ticks[1..];
      var next := TextTicked(r, line, tick.now, tick.date);
      TickSays(r, line, tick.now, tick.date);
      RunSays(r, next, rest);
      RunStep(Meaning(r, line), Meaning(r, next), Meaning(r, TextAfter(r, next, rest)), tick.now, Nows(rest));
    }
  }
}
