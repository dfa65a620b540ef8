/** What a reminder line says and what a tick makes of it (_check_reminders and
    _next_occurrence in pawlia/scheduler.py). */
module Reminders {
  import opened Calendar
  import opened Texts

  datatype Mark = Pending | Done | Cancelled

  /** The time after the hourglass: none, one that does not parse, or a moment. */
  datatype Stamp = Missing | Malformed | At(time: Moment)

  /** The recurrence text: none, or whether it speaks of months and of weeks. */
  datatype Rule = Once | Every(months: bool, weeks: bool)

  datatype Line =
    | Other
    | Task(mark: Mark, bell: bool, stamp: Stamp, rule: Rule, ticked: bool, title: Text)

  predicate LineOk(l: Line) {
    l.Task? && l.stamp.At? ==> IsMoment(l.stamp.time)
  }

  /** `replace(year, month)`, on day 28 when the day does not exist. */
  function MonthLater(a: Date): (b: Date)
    requires IsDate(a)
    ensures IsDate(b)
  {
    var m := a.m % 12 + 1;
    var y := if m == 1 then a.y + 1 else a.y;
    if IsDate(Date(y, m, a.d)) then Date(y, m, a.d) else Date(y, m, 28)
  }

  function NextDate(a: Date, rule: Rule): (b: Date)
    requires IsDate(a)
    ensures IsDate(b)
  {
    if rule.Once? || (!rule.months && !rule.weeks) then AddDays(a, 1)
    else if rule.months then MonthLater(a)
    else AddDays(a, 7)
  }

  /** The next time of a recurring reminder, written without its seconds. */
  function NextTime(t: Moment, rule: Rule): (u: Moment)
    requires IsMoment(t)
    ensures IsMoment(u)
  {
    Moment(NextDate(t.date, rule), t.tod - t.tod % MINUTE)
  }

  predicate Due(l: Line, now: Moment) {
    l.Task? && l.bell && l.mark == Pending && l.stamp.At? && UpTo(l.stamp.time, now)
  }

  function MarkDone(l: Line): Line {
    if l.Task? then l.(mark := if l.mark == Pending then Done else l.mark, ticked := true) else l
  }

  function Reschedule(l: Line, rule: Rule): (r: Line)
    requires LineOk(l)
    ensures LineOk(r)
  {
    if l.Task? && l.stamp.At? then l.(stamp := At(NextTime(l.stamp.time, rule))) else l
  }

  /** What one tick does to a line. */
  function Ticked(l: Line, now: Moment): (r: Line)
    requires LineOk(l)
    ensures LineOk(r)
  {
    if !Due(l, now) then l
    else if l.rule.Once? then MarkDone(l)
    else Reschedule(l, l.rule)
  }

  predicate IsReminder(l: Line) {
    l.Task? && l.bell && l.mark == Pending
  }
}
