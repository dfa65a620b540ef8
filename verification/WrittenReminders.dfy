/** Reminders from the text that is written down to the tick that fires
    (_find_workspace_tasks and _check_reminders in pawlia/scheduler.py): a box, a title,
    a bell and a time behind an hourglass. */
module WrittenReminders {
  import Seqs
  import opened Calendar
  import opened Errors
  import opened Texts
  import opened RecurrenceTexts
  import opened ReminderLaws
  import opened Reminders
  import opened ReminderTexts
  import L = ReminderLines

  /** The signs that a title or a recurrence text does not hold. */
  predicate Signed(c: Code) {
    c in {0x1F53A, 0x23EB, 0x1F53C, 0x1F53D, 0x23EC, 0x1F501, 0x23F3, 0x1F6EB, 0x1F4C5, 0x2795, 0x2705, 0x274C, 0x1F514}
  }

  /** Some text of one line without such signs, and without white space at its ends. */
  predicate Words(t: Text) {
    t != [] && NL !in t && !IsSpace(t[0]) && !IsSpace(t[|t| - 1]) && forall c | c in t :: !Signed(c)
  }

  /** "- [ ] ", with another mark in it maybe. */
  function Box(mark: Code): Text {
    [45, 32, 91, mark, 93, 32]
  }

  /** "- [ ] title 🔔 ⏳ time", with another mark in the box maybe, and with or without
      the bell. */
  function Written(mark: Code, title: Text, bell: bool, time: Text): Text {
    Box(mark) + (title + ((if bell then [32, 0x1F514] else []) + ([32, 0x23F3, 32] + time)))
  }

  /** And " 🔁 text" behind it. */
  function Again(text: Text): Text {
    [32, 0x1F501, 32] + text
  }

  // ------------------------------------------------------------------- reading it

  lemma {:induction false} SignsAfter(x: Text, y: Text)
    requires (forall c | c in x :: c !in L.SIGNS) && y != [] && y[0] in L.SIGNS
    ensures L.BeforeSigns(x + y) == x
  {
    if x == [] {
      assert x + y == y;
    } else {
      assert (x + y)[0] == x[0] && (x + y)[1..] == x[1..] + y;
      SignsAfter(x[1..], y);
    }
  }

  /** The title of a line, with the bell, which does not end it. */
  function Headed(title: Text, bell: bool): Text {
    title + if bell then [32, 0x1F514] else []
  }

  lemma HeadedEnds(title: Text, bell: bool)
    requires Words(title)
    ensures var h := Headed(title, bell);
            h != [] && !IsSpace(h[0]) && !IsSpace(h[|h| - 1]) && (bell ==> h[|h| - 1] == 0x1F514)
  {}

  lemma BlankTrimmed(h: Text)
    requires h != [] && !IsSpace(h[0]) && !IsSpace(h[|h| - 1])
    ensures Trim(h + [32]) == h
  {
    var t := h + [32];
    assert TrimLeft(t) == t;
    assert t[..|t| - 1] == h;
    assert TrimRight(t) == TrimRight(h);
    assert TrimRight(h) == h;
  }

  lemma HeadedSigns(title: Text, bell: bool)
    requires Words(title)
    ensures forall c | c in Headed(title, bell) :: c !in L.SIGNS
    ensures !bell ==> 0x1F514 !in Headed(title, bell)
  {
    var h := Headed(title, bell);
    assert !bell ==> h == title;
    assert forall c | c in h :: c in title || c == 32 || c == 0x1F514;
  }

  lemma HeadedPlain(title: Text, bell: bool)
    requires Words(title)
    ensures forall c | c in Headed(title, bell) :: c !in L.SIGNS
    ensures Trim(Headed(title, bell) + [32]) == Headed(title, bell)
    ensures 0x1F514 in Headed(title, bell) <==> bell
  {
    var h := Headed(title, bell);
    HeadedEnds(title, bell);
    BlankTrimmed(h);
    HeadedSigns(title, bell);
  }

  /** What stands between the box and the time. */
  function Front(title: Text, bell: bool): Text {
    Headed(title, bell) + [32, 0x23F3, 32]
  }

  lemma FrontOf(title: Text, bell: bool, time: Text)
    ensures title + ((if bell then [32, 0x1F514] else []) + ([32, 0x23F3, 32] + time)) == Front(title, bell) + time
  {
    var sign, glass := if bell then [32, 0x1F514] else [], [32, 0x23F3, 32];
    Seqs.Assoc(title, sign, glass + time);
    Seqs.Assoc(title + sign, glass, time);
    assert Front(title, bell) == title + sign + glass;
  }

  lemma WrittenParts(mark: Code, title: Text, bell: bool, time: Text, more: Text)
    ensures Written(mark, title, bell, time) + more
            == Box(mark) + (Front(title, bell) + (time + more))
  {
    var box, front := Box(mark), Front(title, bell);
    FrontOf(title, bell, time);
    assert Written(mark, title, bell, time) == box + (front + time);
    Seqs.Assoc(box, front + time, more);
    Seqs.Assoc(front, time, more);
    assert Written(mark, title, bell, time) + more == box + (front + time) + more;
  }

  lemma FrontPieces(title: Text, bell: bool, rest: Text)
    ensures Front(title, bell) + rest == (Headed(title, bell) + [32]) + ([0x23F3, 32] + rest)
  {
    var h := Headed(title, bell);
    assert Front(title, bell) == h + [32] + [0x23F3, 32];
    Seqs.Assoc(h + [32], [0x23F3, 32], rest);
  }

  lemma GlassFirst(rest: Text)
    requires rest != [] && L.IsStampCode(rest[0])
    ensures L.StampAt([0x23F3, 32] + rest) == 2
  {
    var t := [0x23F3, 32] + rest;
    assert t[1..] == [32] + rest && t[1..][1..] == rest;
    assert TrimLeft(rest) == rest && TrimLeft(t[1..]) == rest;
  }

  lemma FrontStamp(title: Text, bell: bool, rest: Text)
    requires Words(title) && rest != [] && L.IsStampCode(rest[0])
    ensures L.StampAt(Front(title, bell) + rest) == |Front(title, bell)|
  {
    var h := Headed(title, bell);
    HeadedPlain(title, bell);
    assert 0x23F3 in L.SIGNS;
    assert forall c | c in h + [32] :: c != L.GLASS;
    FrontPieces(title, bell, rest);
    L.StampBehind(h + [32], [0x23F3, 32] + rest);
    GlassFirst(rest);
  }

  /** More than the time behind the hourglass: a blank and another sign. */
  predicate Follows(more: Text) {
    && (more == [] || (|more| >= 2 && more[0] == 32 && !IsSpace(more[|more| - 1])))
    && 0x1F514 !in more && 0x2705 !in more
  }

  /** The line without its line break, in the parts that are read. */
  lemma LineTrimmed(mark: Code, title: Text, bell: bool, time: Text, more: Text)
    requires L.IsStamp(time) && Follows(more)
    ensures TrimRight(Written(mark, title, bell, time) + more + [NL])
            == Box(mark) + (Front(title, bell) + (time + more))
  {
    var line := Written(mark, title, bell, time) + more;
    WrittenParts(mark, title, bell, time, more);
    assert time[|time| - 1] in time;
    assert line[|line| - 1] == if more == [] then time[|time| - 1] else more[|more| - 1];
    L.TrimBlanks(line, [NL]);
  }

  lemma PartsRead(mark: Code, front: Text, rest: Text)
    requires mark in {32, 120, 88, 45} && rest != [] && L.StampAt(front + rest) == |front|
    ensures L.ReadTask(Box(mark) + (front + rest))
            == L.Reading(mark, L.BELL in front + rest, Some(L.Codes(rest)), L.TICK in front + rest,
                         Trim(L.BeforeSigns(front)))
  {
    var box := Box(mark);
    Seqs.Assoc(box, front, rest);
    var t := box + front + rest;
    assert |t| >= 7 && t[..6] == box;
    assert forall i | 0 <= i < 6 :: t[i] == box[i];
    L.TaskRead(box, front, rest);
  }

  /** A line is read as it was written. */
  lemma WrittenRead(mark: Code, title: Text, bell: bool, time: Text, more: Text)
    requires mark in {32, 120, 88, 45} && Words(title) && L.IsStamp(time) && Follows(more)
    ensures L.Read(Written(mark, title, bell, time) + more + [NL])
            == L.Reading(mark, bell, Some(time), false, Headed(title, bell))
  {
    var front, rest := Front(title, bell), time + more;
    LineTrimmed(mark, title, bell, time, more);
    assert time[0] in time && rest[0] == time[0];
    FrontStamp(title, bell, rest);
    PartsRead(mark, front, rest);
    L.CodesOf(time, more);
    TimeSigns(time, more);
    FrontSigns(title, bell, rest);
  }

  lemma TimeSigns(time: Text, more: Text)
    requires L.IsStamp(time) && Follows(more)
    ensures 0x1F514 !in time + more && 0x2705 !in time + more
  {}

  lemma FrontSigns(title: Text, bell: bool, rest: Text)
    requires Words(title) && 0x1F514 !in rest && 0x2705 !in rest
    ensures L.BELL in Front(title, bell) + rest <==> bell
    ensures L.TICK !in Front(title, bell) + rest
    ensures Trim(L.BeforeSigns(Front(title, bell))) == Headed(title, bell)
  {
    var h := Headed(title, bell);
    HeadedPlain(title, bell);
    assert forall c | c in h :: c !in L.SIGNS && (c == 0x1F514 ==> bell);
    assert L.TICK in L.SIGNS;
    assert forall c | c in h + [32] :: c !in L.SIGNS;
    assert Front(title, bell) == (h + [32]) + [0x23F3, 32];
    SignsAfter(h + [32], [0x23F3, 32]);
    assert bell ==> h[|h| - 1] == 0x1F514;
  }

  // -------------------------------------------------------------------- its rule

  lemma {:induction false} BehindNone(t: Text)
    requires AGAIN !in t
    ensures RecurrenceTexts.Behind(t) == []
  {
    if t != [] {
      BehindNone(t[1..]);
    }
  }

  lemma {:induction false} BehindFirst(x: Text, y: Text)
    requires AGAIN !in x && AgainHere(y)
    ensures RecurrenceTexts.Behind(x + y) == TrimLeft(y[1..])
  {
    if x == [] {
      assert x + y == y;
    } else {
      assert (x + y)[0] == x[0] && (x + y)[1..] == x[1..] + y;
      BehindFirst(x[1..], y);
    }
  }

  lemma {:induction false} NoEnd(t: Text)
    requires forall c | c in t :: c !in ENDS
    ensures UpToEnd(t) == t
  {
    if t != [] {
      assert !EndsHere(t);
      NoEnd(t[1..]);
    }
  }

  lemma BodyIs(mark: Code, title: Text, bell: bool, time: Text, more: Text)
    requires L.IsStamp(time) && Follows(more)
    ensures Body(Written(mark, title, bell, time) + more + [NL]) == Front(title, bell) + (time + more)
  {
    LineTrimmed(mark, title, bell, time, more);
    var box, rest := Box(mark), Front(title, bell) + (time + more);
    assert (box + rest)[6..] == rest;
  }

  lemma FrontCalm(title: Text, bell: bool, time: Text)
    requires Words(title) && L.IsStamp(time)
    ensures AGAIN !in Front(title, bell) + time
  {
    HeadedPlain(title, bell);
    assert AGAIN in L.SIGNS;
    assert forall c | c in time :: L.IsStampCode(c);
  }

  /** Without a repeat sign the reminder is for once. */
  lemma WrittenOnce(lower: Code -> Text, mark: Code, title: Text, bell: bool, time: Text)
    requires Words(title) && L.IsStamp(time)
    ensures RuleRead(lower, Body(Written(mark, title, bell, time) + [] + [NL])) == Once
  {
    FrontCalm(title, bell, time);
    BodyIs(mark, title, bell, time, []);
    assert time + [] == time;
    BehindNone(Front(title, bell) + time);
  }

  lemma AgainBehind(x: Text, text: Text)
    requires AGAIN !in x && Words(text)
    ensures RecurrenceTexts.Behind(x + Again(text)) == text
  {
    var y := [AGAIN, 32] + text;
    assert x + Again(text) == (x + [32]) + y;
    assert y[1..] == [32] + text && ([32] + text)[1..] == text && TrimLeft(text) == text;
    BehindFirst(x + [32], y);
  }

  lemma TextWhole(text: Text)
    requires Words(text)
    ensures Trim(TextFrom(text)) == text
  {
    var rest := text[1..];
    assert forall c | c in rest :: c in text;
    NoEnd(rest);
    assert TextFrom(text) == [text[0]] + rest == text;
    Solid(text);
  }

  lemma Solid(text: Text)
    requires text != [] && !IsSpace(text[0]) && !IsSpace(text[|text| - 1])
    ensures Trim(text) == text
  {}

  /** With one, the text behind it names the rule. */
  lemma WrittenAgain(lower: Code -> Text, mark: Code, title: Text, bell: bool, time: Text, text: Text)
    requires Words(title) && L.IsStamp(time) && Words(text)
    ensures Follows(Again(text))
    ensures RuleRead(lower, Body(Written(mark, title, bell, time) + Again(text) + [NL])) == RuleOf(lower, text)
  {
    assert Again(text)[|Again(text)| - 1] == text[|text| - 1];
    FrontCalm(title, bell, time);
    BodyIs(mark, title, bell, time, Again(text));
    Seqs.Assoc(Front(title, bell), time, Again(text));
    AgainBehind(Front(title, bell) + time, text);
    TextWhole(text);
  }

  // -------------------------------------------------------------------- its ticks

  lemma PrintIsStamp(t: Moment)
    ensures L.IsStamp(Print(t))
  {
    DigitsAre(t.date.y, 4);
    DigitsAre(t.date.m, 2);
    DigitsAre(t.date.d, 2);
    DigitsAre(t.tod / ReminderTexts.HOUR, 2);
    DigitsAre(t.tod / MINUTE % 60, 2);
  }

  lemma StampRead(r: Reader, t: Moment)
    requires ReaderOk(r) && Printable(t)
    ensures ReminderTexts.StampOf(r, Some(Print(t))) == At(t)
  {}

  /** A pending line with a bell, as the record of it. */
  lemma WrittenMeans(r: Reader, title: Text, t: Moment)
    requires ReaderOk(r) && Words(title) && Printable(t)
    ensures Meaning(r, Written(32, title, true, Print(t)) + [] + [NL])
            == Task(Pending, true, At(t), Once, false, Headed(title, true))
  {
    var time := Print(t);
    PrintIsStamp(t);
    WrittenRead(32, title, true, time, []);
    WrittenOnce(r.lower, 32, title, true, time);
    StampRead(r, t);
  }

  lemma WrittenLine(title: Text, time: Text)
    requires Words(title) && L.IsStamp(time)
    ensures L.OneLine(Written(32, title, true, time) + [] + [NL])
  {
    var line := Written(32, title, true, time) + [];
    assert (line + [NL])[..|line|] == line;
    assert forall c | c in time :: L.IsStampCode(c);
  }

  /** Some tick comes at this moment or later. */
  predicate Reached(t: Moment, ticks: seq<Tick>)
    decreases |ticks|
  {
    ticks != [] && (UpTo(t, ticks[0].now) || Reached(t, ticks[1..]))
  }

  lemma {:induction false} ReachedFires(l: Line, t: Moment, ticks: seq<Tick>)
    requires LineOk(l) && l.Task? && l.bell && l.mark == Pending && l.stamp == At(t)
    ensures Reached(t, ticks) <==> exists k | 0 <= k < |Nows(ticks)| :: Due(l, Nows(ticks)[k])
    decreases |ticks|
  {
    if ticks != [] {
      var now, rest := ticks[0].now, Nows(ticks[1..]);
      ReachedFires(l, t, ticks[1..]);
      assert Nows(ticks) == [now] + rest;
      if k :| 0 <= k < |rest| && Due(l, rest[k]) {
        assert Nows(ticks)[k + 1] == rest[k];
      }
      assert Due(l, now) ==> Nows(ticks)[0] == now;
    }
  }

  lemma RecordFires(r: Reader, line: Text, l: Line, t: Moment, ticks: seq<Tick>)
    requires ReaderOk(r) && L.OneLine(line) && Meaning(r, line) == l && Dated(l) && TicksOk(ticks)
    requires l.Task? && l.bell && l.mark == Pending && l.stamp == At(t) && l.rule == Once
    ensures TextFires(r, line, ticks) == if Reached(t, ticks) then 1 else 0
  {
    RunSays(r, line, ticks);
    OneShot(l, Nows(ticks));
    ReachedFires(l, t, ticks);
  }

  /** A reminder that is written down for a moment fires once, and exactly when some tick
      comes at this moment or later. */
  lemma WrittenFires(r: Reader, title: Text, t: Moment, ticks: seq<Tick>)
    requires ReaderOk(r) && Words(title) && Printable(t) && TicksOk(ticks)
    ensures TextFires(r, Written(32, title, true, Print(t)) + [] + [NL], ticks) == if Reached(t, ticks) then 1 else 0
  {
    var time := Print(t);
    WrittenMeans(r, title, t);
    PrintIsStamp(t);
    WrittenLine(title, time);
    var line := Written(32, title, true, time) + [] + [NL];
    RecordFires(r, line, Task(Pending, true, At(t), Once, false, Headed(title, true)), t, ticks);
  }
}
