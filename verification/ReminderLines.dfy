/** The text of a reminder line: what is read off it, and what is read off it again after
    an edit (_TASK_RE, _find_workspace_tasks, _mark_task_done_in_file and
    _reschedule_reminder_in_file in pawlia/scheduler.py). */
module ReminderLines {
  import Seqs
  import opened Texts
  import opened Errors

  const BELL: Code := 0x1F514
  const GLASS: Code := 0x23F3
  const TICK: Code := 0x2705
  const BLANK: Code := 32

  /** The signs that end a title. */
  const SIGNS: set<Code> := {0x1F53A, 0x23EB, 0x1F53C, 0x1F53D, 0x23EC, 0x1F501, GLASS, 0x1F6EB, 0x1F4C5, 0x2795,
                             TICK, 0x274C}

  // ---------------------------------------------------------------------- reading

  /** `- [ ] ` with one of the marks, and something behind it. */
  predicate IsTask(t: Text) {
    && |t| >= 7 && t[0] == 45 && t[1] == BLANK && t[2] == 91 && t[3] in {BLANK, 120, 88, 45} && t[4] == 93
    && t[5] == BLANK
  }

  /** `[\d\-T:]`, with the digits of ASCII. */
  predicate IsStampCode(c: Code) {
    48 <= c <= 58 || c == 45 || c == 84
  }

  function DropCodes(t: Text): (r: Text)
    ensures |r| <= |t|
  {
    if t != [] && IsStampCode(t[0]) then DropCodes(t[1..]) else t
  }

  /** Blanks and a stamp at the start of a text. */
  predicate StampHere(t: Text) {
    t != [] && IsSpace(t[0]) && TrimLeft(t) != [] && IsStampCode(TrimLeft(t)[0])
  }

  /** Where the stamp begins that comes first behind an hourglass and blanks, or the length
      of the text. */
  function StampAt(t: Text): (n: nat)
    ensures n <= |t|
  {
    if t == [] then 0
    else if t[0] == GLASS && StampHere(t[1..]) then |t| - |TrimLeft(t[1..])|
    else StampAt(t[1..]) + 1
  }

  /** The stamp at the start of a text. */
  function Codes(t: Text): Text {
    t[..|t| - |DropCodes(t)|]
  }

  function StampOf(t: Text): Option<Text> {
    if StampAt(t) < |t| then Some(Codes(t[StampAt(t)..])) else None
  }

  /** The text before the first sign. */
  function BeforeSigns(t: Text): Text {
    if t == [] || t[0] in SIGNS then [] else [t[0]] + BeforeSigns(t[1..])
  }

  /** What is read off a line. */
  datatype Reading =
    | Reading(mark: Code, bell: bool, stamp: Option<Text>, ticked: bool, title: Text)
    | NoTask

  function ReadTask(t: Text): Reading {
    if !IsTask(t) then NoTask
    else Reading(t[3], BELL in t[6..], StampOf(t[6..]), TICK in t, Trim(BeforeSigns(t[6..])))
  }

  function Read(line: Text): Reading {
    ReadTask(TrimRight(line))
  }

  // ---------------------------------------------------------------------- editing

  /** `- [ ]` */
  predicate IsBox(t: Text) {
    |t| == 5 && t[0] == 45 && t[1] == BLANK && t[2] == 91 && t[3] == BLANK && t[4] == 93
  }

  /** `line.replace("- [ ]", "- [x]", 1)` */
  function Checked(line: Text): (r: Text)
    ensures |r| == |line|
  {
    if |line| < 5 then line
    else if IsBox(line[..5]) then line[3 := 120]
    else [line[0]] + Checked(line[1..])
  }

  /** What is put behind a line that is done. */
  function Ticked(date: Text): Text {
    [BLANK, TICK, BLANK] + date
  }

  function Done(line: Text, date: Text): Text {
    if TICK in Checked(line) then Checked(line)
    else TrimRight(Checked(line)) + (Ticked(date) + [NL])
  }

  /** The stamp of a line replaced by another. */
  function Moved(line: Text, stamp: Text): Text {
    var n := StampAt(line);
    if n == |line| then line else line[..n] + stamp + DropCodes(line[n..])
  }

  /** One line of a file: a line break, if any, stands at the end. */
  predicate OneLine(line: Text) {
    line == [] || NL !in line[..|line| - 1]
  }

  /** And there is one. */
  predicate Ended(line: Text) {
    OneLine(line) && line != [] && line[|line| - 1] == NL
  }

  /** Stamps and dates are made of such characters. */
  predicate IsStamp(s: Text) {
    s != [] && forall c | c in s :: IsStampCode(c)
  }

  // ------------------------------------------------------------------ small parts

  predicate Blank(t: Text) {
    forall c | c in t :: IsSpace(c)
  }

  lemma {:induction false} TrimmedAway(t: Text)
    ensures Blank(t[|TrimRight(t)|..])
  {
    if t != [] && IsSpace(t[|t| - 1]) {
      var u := t[..|t| - 1];
      TrimmedAway(u);
      assert t[|TrimRight(t)|..] == u[|TrimRight(t)|..] + [t[|t| - 1]];
    }
  }

  /** A line is its text and the blanks behind it. */
  lemma Parted(line: Text) returns (t: Text, blanks: Text)
    ensures t == TrimRight(line) && line == t + blanks && Blank(blanks)
  {
    t, blanks := TrimRight(line), line[|TrimRight(line)|..];
    TrimmedAway(line);
  }

  lemma {:induction false} TrimBlanks(t: Text, blanks: Text)
    requires Blank(blanks) && t != [] && !IsSpace(t[|t| - 1])
    ensures TrimRight(t + blanks) == t
  {
    if blanks == [] {
      assert t + blanks == t;
    } else {
      var n := |blanks| - 1;
      assert blanks[n] in blanks && forall c | c in blanks[..n] :: c in blanks;
      assert (t + blanks)[..|t| + n] == t + blanks[..n];
      TrimBlanks(t, blanks[..n]);
    }
  }

  lemma {:induction false} DropCodesOf(t: Text, y: Text)
    requires y == [] || !IsStampCode(y[0])
    ensures DropCodes(t + y) == DropCodes(t) + y
  {
    if t == [] {
      assert t + y == y;
    } else {
      assert (t + y)[1..] == t[1..] + y;
      DropCodesOf(t[1..], y);
    }
  }

  lemma {:induction false} StampDropped(s: Text)
    requires forall c | c in s :: IsStampCode(c)
    ensures DropCodes(s) == []
  {
    if s != [] {
      assert s[0] in s && forall c | c in s[1..] :: c in s;
      StampDropped(s[1..]);
    }
  }

  lemma CodesOf(s: Text, y: Text)
    requires IsStamp(s) && (y == [] || !IsStampCode(y[0]))
    ensures DropCodes(s + y) == y && Codes(s + y) == s
  {
    DropCodesOf(s, y);
    StampDropped(s);
    assert [] + y == y;
    assert (s + y)[..|s|] == s;
  }

  lemma CodesKept(t: Text, y: Text)
    requires y == [] || !IsStampCode(y[0])
    ensures Codes(t + y) == Codes(t)
  {
    DropCodesOf(t, y);
    var n := |t| - |DropCodes(t)|;
    assert (t + y)[..n] == t[..n];
  }

  lemma {:induction false} DropCodesEnd(t: Text)
    ensures var r := DropCodes(t); t[|t| - |r|..] == r && (r == [] || !IsStampCode(r[0]))
  {
    if t != [] && IsStampCode(t[0]) {
      DropCodesEnd(t[1..]);
      var r := DropCodes(t[1..]);
      assert t[|t| - |r|..] == t[1..][|t| - 1 - |r|..];
    }
  }

  // ------------------------------------------------------------------ finding a stamp

  lemma {:induction false} GlassBefore(t: Text)
    requires StampAt(t) < |t|
    ensures StampAt(t) >= 2 && GLASS in t[..StampAt(t)] && TrimLeft(t) != [] && IsStampCode(t[StampAt(t)])
  {
    if t[0] == GLASS && StampHere(t[1..]) {
      LeftIsEnd(t[1..]);
    } else {
      GlassBefore(t[1..]);
      assert t[..StampAt(t)] == [t[0]] + t[1..][..StampAt(t) - 1];
    }
  }

  lemma {:induction false} LeftIsEnd(t: Text)
    ensures t[|t| - |TrimLeft(t)|..] == TrimLeft(t)
  {
    if t != [] && IsSpace(t[0]) {
      LeftIsEnd(t[1..]);
      assert t[1..][|t| - 1 - |TrimLeft(t)|..] == t[|t| - |TrimLeft(t)|..];
    }
  }

  lemma {:induction false} LeftDrops(t: Text)
    requires t != [] && IsSpace(t[0])
    ensures |TrimLeft(t)| < |t| && IsSpace(t[|t| - |TrimLeft(t)| - 1])
  {
    if |t| > 1 && IsSpace(t[1]) {
      LeftDrops(t[1..]);
    }
  }

  /** The stamp stands behind a blank. */
  lemma {:induction false} SpaceBefore(t: Text)
    requires StampAt(t) < |t|
    ensures StampAt(t) > 0 && IsSpace(t[StampAt(t) - 1])
  {
    if t[0] == GLASS && StampHere(t[1..]) {
      LeftDrops(t[1..]);
    } else {
      SpaceBefore(t[1..]);
    }
  }

  lemma CodesSplit(t: Text)
    ensures Codes(t) + DropCodes(t) == t
  {
    DropCodesEnd(t);
  }

  lemma {:induction false} CodesAre(t: Text)
    ensures forall c | c in Codes(t) :: IsStampCode(c)
  {
    if t != [] && IsStampCode(t[0]) {
      CodesAre(t[1..]);
      assert Codes(t) == [t[0]] + Codes(t[1..]);
    }
  }

  /** More text behind changes nothing. */
  lemma {:induction false} StampStays(t: Text, y: Text)
    requires StampAt(t) < |t|
    ensures StampAt(t + y) == StampAt(t)
  {
    assert (t + y)[1..] == t[1..] + y;
    TrimLeftOf(t[1..], y);
    if !(t[0] == GLASS && StampHere(t[1..])) {
      GlassBefore(t[1..]);
      StampStays(t[1..], y);
    }
  }

  /** Nor does text in front of it without an hourglass. */
  lemma {:induction false} StampBehind(x: Text, y: Text)
    requires GLASS !in x
    ensures StampAt(x + y) == |x| + StampAt(y)
  {
    if x == [] {
      assert x + y == y;
    } else {
      assert x[0] in x && (x + y)[1..] == x[1..] + y;
      StampBehind(x[1..], y);
    }
  }

  /** Another stamp in the same place is found there. */
  lemma NoStampYet(y: Text)
    requires y != [] && IsStampCode(y[0])
    ensures StampAt(y) > 0
  {}

  lemma {:induction false} StampReplaced(x: Text, y: Text, z: Text)
    requires y != [] && z != [] && IsStampCode(y[0]) && IsStampCode(z[0]) && StampAt(x + y) == |x|
    ensures StampAt(x + z) == |x|
  {
    NoStampYet(y);
    assert x == [] ==> x + y == y;
    if x != [] {
      assert (x + y)[1..] == x[1..] + y && (x + z)[1..] == x[1..] + z;
      TrimLeftOf(x[1..], y);
      TrimLeftOf(x[1..], z);
      assert TrimLeft(y) == y && TrimLeft(z) == z;
      if !(x[0] == GLASS && StampHere(x[1..] + y)) {
        StampReplaced(x[1..], y, z);
      }
    }
  }

  // ------------------------------------------------------------------ reading again

  lemma {:induction false} SignsBefore(x: Text, y: Text)
    requires exists c :: c in x && c in SIGNS
    ensures BeforeSigns(x + y) == BeforeSigns(x)
  {
    assert (x + y)[1..] == x[1..] + y;
    if x[0] !in SIGNS {
      SignsBefore(x[1..], y);
    }
  }

  /** The parts of a line that was read: mark, what stands before the stamp, the stamp and
      the rest, and the blanks at the end. */
  predicate Parts(line: Text, head: Text, before: Text, rest: Text, blanks: Text) {
    && line == (head + before + rest) + blanks && TrimRight(line) == head + before + rest && Blank(blanks)
    && |head| == 6 && rest != [] && StampAt(before + rest) == |before| && IsTask(head + before + rest)
  }

  lemma Apart(line: Text) returns (head: Text, before: Text, rest: Text, blanks: Text)
    requires Read(line).Reading? && Read(line).stamp.Some?
    ensures Parts(line, head, before, rest, blanks)
  {
    var t: Text;
    t, blanks := Parted(line);
    var n := StampAt(t[6..]);
    head, before, rest := t[..6], t[6..][..n], t[6..][n..];
    assert before + rest == t[6..];
    assert head + before + rest == head + (before + rest) == t;
  }

  /** What is read off a task of such parts. */
  lemma TaskRead(head: Text, before: Text, rest: Text)
    requires |head| == 6 && rest != [] && StampAt(before + rest) == |before| && IsTask(head + before + rest)
    ensures ReadTask(head + before + rest)
            == Reading(head[3], BELL in before + rest, Some(Codes(rest)), TICK in before + rest,
                       Trim(BeforeSigns(before)))
  {
    var t := head + before + rest;
    assert t == head + (before + rest);
    assert t[6..] == before + rest && t[3] == head[3];
    GlassBefore(before + rest);
    assert (before + rest)[..|before|] == before && (before + rest)[|before|..] == rest;
    assert GLASS in SIGNS;
    SignsBefore(before, rest);
    HeadPlain(t, head, before + rest);
  }

  lemma HeadPlain(t: Text, head: Text, y: Text)
    requires t == head + y && |head| == 6 && IsTask(t)
    ensures GLASS !in head && TICK !in head && NL !in head
    ensures TICK in t <==> TICK in y
  {
    assert forall i | 0 <= i < 6 :: head[i] == t[i];
  }

  lemma FirmEnd(line: Text, head: Text, before: Text, rest: Text, blanks: Text)
    requires Parts(line, head, before, rest, blanks)
    ensures !IsSpace(rest[|rest| - 1])
  {
    var t := head + before + rest;
    assert t[|t| - 1] == rest[|rest| - 1];
  }

  lemma LineJoin(t: Text, blanks: Text)
    requires NL !in t
    ensures OneLine(t + blanks) <==> OneLine(blanks)
    ensures Ended(t + blanks) <==> Ended(blanks)
  {
    if blanks == [] {
      assert t + blanks == t;
    } else {
      assert (t + blanks)[..|t + blanks| - 1] == t + blanks[..|blanks| - 1];
    }
  }

  lemma LineSplit(t: Text, blanks: Text)
    requires OneLine(t + blanks) && t != [] && !IsSpace(t[|t| - 1])
    ensures NL !in t && OneLine(blanks)
  {
    assert IsSpace(NL);
    if blanks == [] {
      assert t + blanks == t;
      assert t == t[..|t| - 1] + [t[|t| - 1]];
    } else {
      assert (t + blanks)[..|t + blanks| - 1] == t + blanks[..|blanks| - 1];
    }
  }

  lemma DoneKept(head: Text, before: Text, rest: Text, blanks: Text)
    requires |head| == 6 && rest != [] && StampAt(before + rest) == |before| && IsTask(head + before + rest)
    requires Blank(blanks) && TICK in (head + before + rest) + blanks
    ensures ReadTask(head + before + rest)
            == Reading(head[3], BELL in before + rest, Some(Codes(rest)), true, Trim(BeforeSigns(before)))
  {
    TaskRead(head, before, rest);
    Seqs.Assoc(head, before, rest);
    HeadPlain(head + before + rest, head, before + rest);
    assert TICK !in blanks;
  }

  lemma DoneEnd(u: Text, date: Text)
    requires NL !in u && IsStamp(date)
    ensures var line := u + (Ticked(date) + [NL]); Ended(line) && TrimRight(line) == u + Ticked(date)
  {
    TickedSigns(date);
    Seqs.Assoc(u, Ticked(date), [NL]);
    TrimBlanks(u + Ticked(date), [NL]);
    LineJoin(u + Ticked(date), [NL]);
    assert |[NL][..0]| == 0;
  }

  /** A task that is done says so, and else what it said; its line ends in one line break. */
  lemma DoneRead(line: Text, date: Text)
    requires OneLine(line) && Read(line).Reading? && Read(line).mark == BLANK && Read(line).stamp.Some?
    requires IsStamp(date)
    ensures OneLine(Done(line, date)) && (Ended(line) || TICK !in line ==> Ended(Done(line, date)))
    ensures Read(Done(line, date)) == Read(line).(mark := 120, ticked := true)
  {
    var head, before, rest, blanks := Apart(line);
    var t, u := head + before + rest, head[3 := 120] + before + rest;
    FirmEnd(line, head, before, rest, blanks);
    LineSplit(t, blanks);
    TaskRead(head, before, rest);
    CheckedParts(head, before, rest, blanks);
    TrimBlanks(u, blanks);
    if TICK in u + blanks {
      DoneKept(head[3 := 120], before, rest, blanks);
      LineJoin(u, blanks);
      LineJoin(t, blanks);
    } else {
      TickIn(line, t, u, blanks);
      TickedSigns(date);
      DoneTicked(head[3 := 120], before, rest, Ticked(date));
      DoneEnd(u, date);
    }
  }

  lemma TickIn(line: Text, t: Text, u: Text, blanks: Text)
    requires line == t + blanks && |u| == |t| > 3 && u == t[3 := 120] && t[3] != TICK
    ensures TICK in line <==> TICK in u + blanks
  {
    assert u + blanks == line[3 := 120];
    if TICK in line {
      var i :| 0 <= i < |line| && line[i] == TICK;
      assert (u + blanks)[i] == TICK;
    }
    if TICK in u + blanks {
      var i :| 0 <= i < |line| && (u + blanks)[i] == TICK;
      assert line[i] == TICK;
    }
  }

  lemma CheckedParts(head: Text, before: Text, rest: Text, blanks: Text)
    requires |head| == 6 && rest != [] && IsTask(head + before + rest) && NL !in head + before + rest
    requires head[3] == BLANK
    ensures var t, u := head + before + rest, head[3 := 120] + before + rest;
            && Checked(t + blanks) == u + blanks && u == t[3 := 120] && IsTask(u) && NL !in u
            && u[|u| - 1] == t[|t| - 1]
  {
    var t, u := head + before + rest, head[3 := 120] + before + rest;
    assert u == t[3 := 120];
    assert forall i | 0 <= i < 5 :: (t + blanks)[..5][i] == t[i];
    assert t[3] == head[3];
    assert forall c | c in u :: c == 120 || c in t;
  }

  lemma TickedSigns(date: Text)
    requires IsStamp(date)
    ensures var more := Ticked(date);
            && TICK in more && BELL !in more && NL !in more && !IsStampCode(more[0]) && !IsSpace(more[|more| - 1])
  {
    assert Ticked(date)[1] == TICK && date[|date| - 1] in date;
  }

  lemma DoneTicked(head: Text, before: Text, rest: Text, more: Text)
    requires |head| == 6 && rest != [] && StampAt(before + rest) == |before| && IsTask(head + before + rest)
    requires TICK in more && BELL !in more && !IsStampCode(more[0])
    ensures ReadTask((head + before + rest) + more)
            == Reading(head[3], BELL in before + rest, Some(Codes(rest)), true, Trim(BeforeSigns(before)))
  {
    Seqs.Assoc(head + before, rest, more);
    Seqs.Assoc(before, rest, more);
    StampStays(before + rest, more);
    CodesKept(rest, more);
    LongerTask(head + before + rest, more);
    TaskRead(head, before, rest + more);
  }

  lemma LongerTask(t: Text, more: Text)
    requires IsTask(t)
    ensures IsTask(t + more)
  {}

  /** The text of a line that is moved, without the blanks behind it. */
  lemma MovedTrim(line: Text, stamp: Text, head: Text, before: Text, rest: Text, blanks: Text)
    requires OneLine(line) && Parts(line, head, before, rest, blanks) && IsStamp(stamp)
    ensures var u := head + before + (stamp + DropCodes(rest));
            && TrimRight(Moved(line, stamp)) == u && Moved(line, stamp) == u + blanks && NL !in u
            && NL !in head + before + rest
  {
    var t := head + before + rest;
    FirmEnd(line, head, before, rest, blanks);
    LineSplit(t, blanks);
    Seqs.Assoc(head, before, rest);
    HeadPlain(t, head, before + rest);
    MovedParts(head, before, rest, blanks, stamp);
    MovedEnd(head + before, rest, stamp);
    TrimBlanks(head + before + (stamp + DropCodes(rest)), blanks);
  }

  /** A task that is moved says the new time, and else what it said; its line ends as before. */
  lemma MovedRead(line: Text, stamp: Text)
    requires OneLine(line) && Read(line).Reading? && Read(line).stamp.Some? && IsStamp(stamp)
    ensures OneLine(Moved(line, stamp)) && (Ended(line) <==> Ended(Moved(line, stamp)))
    ensures Read(Moved(line, stamp)) == Read(line).(stamp := Some(stamp))
  {
    var head, before, rest, blanks := Apart(line);
    TaskRead(head, before, rest);
    MovedTrim(line, stamp, head, before, rest, blanks);
    LineJoin(head + before + rest, blanks);
    LineJoin(head + before + (stamp + DropCodes(rest)), blanks);
    MovedTask(head, before, rest, stamp);
  }

  lemma StampInLine(head: Text, before: Text, rest: Text, blanks: Text)
    requires |head| == 6 && rest != [] && StampAt(before + rest) == |before| && GLASS !in head
    ensures StampAt((head + before) + (rest + blanks)) == |head + before|
  {
    StampStays(before + rest, blanks);
    StampBehind(head, (before + rest) + blanks);
    Seqs.Assoc(before, rest, blanks);
    Seqs.Assoc(head, before, rest + blanks);
  }

  lemma StampOfLine(head: Text, before: Text, rest: Text, blanks: Text)
    requires |head| == 6 && rest != [] && StampAt(before + rest) == |before| && IsTask(head + before + rest)
    requires Blank(blanks)
    ensures var line := (head + before + rest) + blanks;
            StampAt(line) == |head + before| && Codes(line[|head + before|..]) == Codes(rest)
  {
    var a := head + before;
    Seqs.Assoc(head, before, rest);
    HeadPlain(a + rest, head, before + rest);
    StampInLine(head, before, rest, blanks);
    Seqs.Assoc(a, rest, blanks);
    assert (a + (rest + blanks))[|a|..] == rest + blanks;
    assert blanks == [] || blanks[0] in blanks;
    CodesKept(rest, blanks);
  }

  lemma DropInLine(rest: Text, blanks: Text)
    requires Blank(blanks)
    ensures DropCodes(rest + blanks) == DropCodes(rest) + blanks
  {
    assert blanks == [] || blanks[0] in blanks;
    DropCodesOf(rest, blanks);
  }

  lemma MovedParts(head: Text, before: Text, rest: Text, blanks: Text, stamp: Text)
    requires |head| == 6 && rest != [] && StampAt(before + rest) == |before| && GLASS !in head && Blank(blanks)
    ensures Moved((head + before + rest) + blanks, stamp) == (head + before + (stamp + DropCodes(rest))) + blanks
  {
    var a, d := head + before, DropCodes(rest);
    StampInLine(head, before, rest, blanks);
    MovedAt(a, rest + blanks, stamp);
    DropInLine(rest, blanks);
    Seqs.Assoc(a, rest, blanks);
    Seqs.Assoc(a, stamp, d + blanks);
    Seqs.Assoc(stamp, d, blanks);
    Seqs.Assoc(a, stamp + d, blanks);
  }

  lemma MovedAt(a: Text, s: Text, stamp: Text)
    requires StampAt(a + s) == |a| && s != []
    ensures Moved(a + s, stamp) == a + stamp + DropCodes(s)
  {
    assert (a + s)[..|a|] == a && (a + s)[|a|..] == s;
  }

  lemma MovedEnd(a: Text, rest: Text, stamp: Text)
    requires rest != [] && !IsSpace(rest[|rest| - 1]) && IsStamp(stamp) && NL !in a + rest
    ensures var u := a + (stamp + DropCodes(rest)); !IsSpace(u[|u| - 1]) && NL !in u
  {
    var d := DropCodes(rest);
    DropCodesEnd(rest);
    assert stamp[|stamp| - 1] in stamp;
    assert (a + (stamp + d))[|a + (stamp + d)| - 1] == if d == [] then stamp[|stamp| - 1] else rest[|rest| - 1];
    assert forall c | c in d :: c in rest;
  }

  lemma MovedTask(head: Text, before: Text, rest: Text, stamp: Text)
    requires |head| == 6 && rest != [] && StampAt(before + rest) == |before| && IsTask(head + before + rest)
    requires IsStamp(stamp)
    ensures ReadTask(head + before + (stamp + DropCodes(rest)))
            == Reading(head[3], BELL in before + rest, Some(stamp), TICK in before + rest, Trim(BeforeSigns(before)))
  {
    var d := DropCodes(rest);
    GlassBefore(before + rest);
    assert (before + rest)[|before|] == rest[0];
    assert stamp[0] in stamp;
    StampReplaced(before, rest, stamp + d);
    DropCodesEnd(rest);
    CodesOf(stamp, d);
    var t, u := head + before + rest, head + before + (stamp + d);
    assert forall i | 0 <= i < 6 :: u[i] == head[i] == t[i];
    TaskRead(head, before, stamp + d);
    SameSigns(before, rest, stamp, d);
  }

  lemma {:induction false} CodesOnly(t: Text)
    ensures forall c | c in t :: IsStampCode(c) || c in DropCodes(t)
  {
    if t != [] && IsStampCode(t[0]) {
      CodesOnly(t[1..]);
    }
  }

  lemma SameSigns(before: Text, rest: Text, stamp: Text, behind: Text)
    requires behind == DropCodes(rest) && IsStamp(stamp)
    ensures BELL in before + rest <==> BELL in before + (stamp + behind)
    ensures TICK in before + rest <==> TICK in before + (stamp + behind)
  {
    CodesOnly(rest);
    DropCodesEnd(rest);
    assert forall c | c in behind :: c in rest;
  }
}
