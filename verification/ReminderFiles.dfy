/** The reminder lines in the files of a workspace (_check_reminders, _find_workspace_tasks,
    _mark_task_done_in_file and _reschedule_reminder_in_file in pawlia/scheduler.py):
    editing by line numbers that were read beforehand. */
module ReminderFiles {
  import opened Calendar
  import opened Texts
  import opened Reminders
  import opened ReminderTexts
  import L = ReminderLines

  /** A line that was parsed as a pending reminder, and where. */
  datatype Reminder = Reminder(file: nat, line: nat, parsed: Line)

  /** The lines of a file: each ends in its only line break, the last one may lack it. */
  predicate Shaped(f: seq<Text>) {
    && (forall i | 0 <= i < |f| :: f[i] != [] && L.OneLine(f[i]))
    && (forall i | 0 <= i < |f| - 1 :: L.Ended(f[i]))
  }

  predicate AllShaped(files: seq<seq<Text>>) {
    forall f | 0 <= f < |files| :: Shaped(files[f])
  }

  /** What the lines of a file say. */
  function ReadFile(r: Reader, f: seq<Text>): (ls: seq<Line>)
    ensures |ls| == |f|
  {
    if f == [] then [] else ReadFile(r, f[..|f| - 1]) + [Meaning(r, f[|f| - 1])]
  }

  lemma {:induction false} ReadAt(r: Reader, f: seq<Text>, i: nat)
    requires i < |f|
    ensures ReadFile(r, f)[i] == Meaning(r, f[i])
  {
    if i < |f| - 1 {
      ReadAt(r, f[..|f| - 1], i);
    }
  }

  function ReadFiles(r: Reader, files: seq<seq<Text>>): (g: seq<seq<Line>>)
    ensures |g| == |files|
  {
    if files == [] then [] else ReadFiles(r, files[..|files| - 1]) + [ReadFile(r, files[|files| - 1])]
  }

  lemma {:induction false} ReadFilesAt(r: Reader, files: seq<seq<Text>>, f: nat)
    requires f < |files|
    ensures ReadFiles(r, files)[f] == ReadFile(r, files[f])
  {
    if f < |files| - 1 {
      ReadFilesAt(r, files[..|files| - 1], f);
    }
  }

  /** The reminders among the first n lines of a file. */
  function Parsed(file: nat, f: seq<Line>, n: nat): seq<Reminder>
    requires n <= |f|
  {
    if n == 0 then []
    else Parsed(file, f, n - 1) + if IsReminder(f[n - 1]) then [Reminder(file, n - 1, f[n - 1])] else []
  }

  function AllParsed(files: seq<seq<Line>>, n: nat): seq<Reminder>
    requires n <= |files|
  {
    if n == 0 then [] else AllParsed(files, n - 1) + Parsed(n - 1, files[n - 1], |files[n - 1]|)
  }

  /** The titles that are announced, in order. */
  function Announced(reminders: seq<Reminder>, now: Moment): seq<Text> {
    if reminders == [] then []
    else
      var p := reminders[|reminders| - 1].parsed;
      Announced(reminders[..|reminders| - 1], now) + if Due(p, now) then [p.title] else []
  }

  /** What handling a reminder makes of the line it names. */
  function EditOne(r: Reader, line: Text, e: Reminder, now: Moment, date: Text): Text {
    if Due(e.parsed, now) then Edited(r, line, e.parsed.rule, date) else line
  }

  /** One edit: the line is looked up again by its number. */
  function Edit(r: Reader, files: seq<seq<Text>>, e: Reminder, now: Moment, date: Text): (g: seq<seq<Text>>)
    ensures |g| == |files| && forall f | 0 <= f < |files| :: |g[f]| == |files[f]|
  {
    if !Due(e.parsed, now) || e.file >= |files| || e.line >= |files[e.file]| then files
    else files[e.file := files[e.file][e.line := EditOne(r, files[e.file][e.line], e, now, date)]]
  }

  /** The files after these reminders were handled, one edit after the other. */
  function AllEdited(r: Reader, files: seq<seq<Text>>, es: seq<Reminder>, now: Moment, date: Text): (g: seq<seq<Text>>)
    ensures |g| == |files| && forall f | 0 <= f < |files| :: |g[f]| == |files[f]|
  {
    if es == [] then files
    else Edit(r, AllEdited(r, files, es[..|es| - 1], now, date), es[|es| - 1], now, date)
  }

  class Scheduler {
    const reader: Reader
    var files: seq<seq<Text>>
    var notices: seq<Text>

    ghost predicate Valid()
      reads this
    {
      AllShaped(files)
    }

    constructor (r: Reader, start: seq<seq<Text>>)
      requires AllShaped(start)
      ensures Valid() && reader == r && files == start && notices == []
    {
      reader, files, notices := r, start, [];
    }

    /** Collect the pending reminders of a file. */
    method CollectFile(f: nat) returns (found: seq<Reminder>)
      requires f < |files|
      ensures found == Parsed(f, ReadFile(reader, files[f]), |files[f]|)
    {
      found := [];
      var lines := files[f];
      ghost var said := ReadFile(reader, lines);
      for i := 0 to |lines|
        invariant found == Parsed(f, said, i)
      {
        var l := Meaning(reader, lines[i]);
        ReadAt(reader, lines, i);
        if IsReminder(l) {
          found := found + [Reminder(f, i, l)];
        }
      }
    }

    /** Collect the pending reminders of all files. */
    method Collect() returns (reminders: seq<Reminder>)
      ensures reminders == AllParsed(ReadFiles(reader, files), |files|)
    {
      reminders := [];
      ghost var said := ReadFiles(reader, files);
      for f := 0 to |files|
        invariant reminders == AllParsed(said, f)
      {
        ReadFilesAt(reader, files, f);
        var found := CollectFile(f);
        reminders := reminders + found;
      }
    }

    /** Edit one line of one file. */
    method EditLine(e: Reminder, now: Moment, date: Text)
      requires Due(e.parsed, now)
      modifies `files
      ensures files == Edit(reader, old(files), e, now, date)
    {
      if e.file < |files| && e.line < |files[e.file]| {
        var line := Edited(reader, files[e.file][e.line], e.parsed.rule, date);
        files := files[e.file := files[e.file][e.line := line]];
      }
    }

    /** Announce and edit, reminder by reminder. */
    method Handle(reminders: seq<Reminder>, now: Moment, date: Text)
      modifies this
      ensures files == AllEdited(reader, old(files), reminders, now, date)
      ensures notices == old(notices) + Announced(reminders, now)
    {
      for k := 0 to |reminders|
        invariant files == AllEdited(reader, old(files), reminders[..k], now, date)
        invariant notices == old(notices) + Announced(reminders[..k], now)
      {
        assert reminders[..k + 1][..k] == reminders[..k];
        var e := reminders[k];
        if Due(e.parsed, now) {
          notices := notices + [e.parsed.title];
          EditLine(e, now, date);
        }
      }
      assert reminders[..|reminders|] == reminders;
    }

    /** One tick. The lines that fired are changed as told, every other line of every
        file is as it was, and so is the number of lines: the line numbers read before
        the edits stay right. */
    method Tick(now: Moment, date: Text)
      requires Valid() && L.IsStamp(date)
      modifies this
      ensures Valid()
      ensures |files| == |old(files)|
      ensures forall f | 0 <= f < |files| :: |files[f]| == |old(files)[f]|
      ensures forall f, i | 0 <= f < |files| && 0 <= i < |files[f]| ::
                files[f][i] == TextTicked(reader, old(files)[f][i], now, date)
      ensures notices == old(notices) + Announced(AllParsed(ReadFiles(reader, old(files)), |old(files)|), now)
    {
      var reminders := Collect();
      Handle(reminders, now, date);
      forall f, i | 0 <= f < |files| && 0 <= i < |files[f]|
        ensures files[f][i] == TextTicked(reader, old(files)[f][i], now, date)
      {
        TickedLine(reader, old(files), now, date, f, i);
      }
      TickShaped(reader, old(files), files, now, date);
    }
  }

  // ---------------------------------------------------------- one edit, one line

  /** The reminders that name a line. */
  function Naming(es: seq<Reminder>, f: nat, i: nat): seq<Reminder> {
    if es == [] then []
    else
      var e := es[|es| - 1];
      Naming(es[..|es| - 1], f, i) + if e.file == f && e.line == i then [e] else []
  }

  lemma {:induction false} NamingJoin(x: seq<Reminder>, y: seq<Reminder>, f: nat, i: nat)
    ensures Naming(x + y, f, i) == Naming(x, f, i) + Naming(y, f, i)
  {
    if y == [] {
      assert x + y == x;
    } else {
      var n := |y| - 1;
      assert (x + y)[..|x| + n] == x + y[..n];
      NamingJoin(x, y[..n], f, i);
    }
  }

  lemma NamingOne(e: Reminder, f: nat, i: nat)
    ensures Naming([e], f, i) == if e.file == f && e.line == i then [e] else []
  {
    assert [e][..0] == [];
  }

  lemma ParsedStep(file: nat, g: seq<Line>, n: nat, f: nat, i: nat)
    requires 0 < n <= |g|
    ensures Naming(Parsed(file, g, n), f, i)
            == Naming(Parsed(file, g, n - 1), f, i)
               + if file == f && n - 1 == i && IsReminder(g[i]) then [Reminder(f, i, g[i])] else []
  {
    var before, l := Parsed(file, g, n - 1), g[n - 1];
    var more := if IsReminder(l) then [Reminder(file, n - 1, l)] else [];
    NamingJoin(before, more, f, i);
    NamingOne(Reminder(file, n - 1, l), f, i);
  }

  /** Of the reminders of a file, at most one names a line: the one read off it. */
  lemma {:induction false} ParsedNaming(file: nat, g: seq<Line>, n: nat, f: nat, i: nat)
    requires n <= |g|
    ensures Naming(Parsed(file, g, n), f, i)
            == if f == file && i < n && IsReminder(g[i]) then [Reminder(f, i, g[i])] else []
  {
    if n > 0 {
      ParsedNaming(file, g, n - 1, f, i);
      ParsedStep(file, g, n, f, i);
    }
  }

  lemma AllParsedStep(files: seq<seq<Line>>, n: nat, f: nat, i: nat)
    requires 0 < n <= |files|
    ensures Naming(AllParsed(files, n), f, i)
            == Naming(AllParsed(files, n - 1), f, i) + Naming(Parsed(n - 1, files[n - 1], |files[n - 1]|), f, i)
  {
    NamingJoin(AllParsed(files, n - 1), Parsed(n - 1, files[n - 1], |files[n - 1]|), f, i);
  }

  /** The reminder that was read off a line, if it is one. */
  function ReadOff(files: seq<seq<Line>>, f: nat, i: nat): seq<Reminder>
    requires f < |files| && i < |files[f]|
  {
    if IsReminder(files[f][i]) then [Reminder(f, i, files[f][i])] else []
  }

  /** What names a line among the reminders of the first n files. */
  function Expected(files: seq<seq<Line>>, n: nat, f: nat, i: nat): seq<Reminder>
    requires f < |files| && i < |files[f]|
  {
    if n == 0 then [] else Expected(files, n - 1, f, i) + if f == n - 1 then ReadOff(files, f, i) else []
  }

  lemma {:induction false} ExpectedOnce(files: seq<seq<Line>>, n: nat, f: nat, i: nat)
    requires f < |files| && i < |files[f]|
    ensures Expected(files, n, f, i) == if f < n then ReadOff(files, f, i) else []
  {
    if n > 0 {
      ExpectedOnce(files, n - 1, f, i);
    }
  }

  lemma FileNaming(files: seq<seq<Line>>, k: nat, f: nat, i: nat)
    requires k < |files| && f < |files| && i < |files[f]|
    ensures Naming(Parsed(k, files[k], |files[k]|), f, i) == if f == k then ReadOff(files, f, i) else []
  {
    ParsedNaming(k, files[k], |files[k]|, f, i);
  }

  lemma {:induction false} AllParsedNaming(files: seq<seq<Line>>, n: nat, f: nat, i: nat)
    requires n <= |files| && f < |files| && i < |files[f]|
    ensures Naming(AllParsed(files, n), f, i) == Expected(files, n, f, i)
  {
    if n > 0 {
      var before, here := Expected(files, n - 1, f, i), if f == n - 1 then ReadOff(files, f, i) else [];
      AllParsedNaming(files, n - 1, f, i);
      AllParsedStep(files, n, f, i);
      FileNaming(files, n - 1, f, i);
      assert Naming(AllParsed(files, n), f, i) == before + here;
    }
  }

  /** The line after these reminders, which name it, were handled. */
  function LineAfter(r: Reader, line: Text, es: seq<Reminder>, now: Moment, date: Text): Text {
    if es == [] then line
    else EditOne(r, LineAfter(r, line, es[..|es| - 1], now, date), es[|es| - 1], now, date)
  }

  lemma LinePush(r: Reader, line: Text, es: seq<Reminder>, e: Reminder, now: Moment, date: Text)
    ensures LineAfter(r, line, es + [e], now, date) == EditOne(r, LineAfter(r, line, es, now, date), e, now, date)
  {
    assert (es + [e])[..|es|] == es;
  }

  lemma EditAt(r: Reader, files: seq<seq<Text>>, e: Reminder, now: Moment, date: Text, f: nat, i: nat)
    requires f < |files| && i < |files[f]|
    ensures Edit(r, files, e, now, date)[f][i]
            == if e.file == f && e.line == i then EditOne(r, files[f][i], e, now, date) else files[f][i]
  {}

  /** An edit changes the line that its reminder names, and no other. */
  lemma {:induction false} EditedLine(
      r: Reader, files: seq<seq<Text>>, es: seq<Reminder>, now: Moment, date: Text, f: nat, i: nat)
    requires f < |files| && i < |files[f]|
    ensures AllEdited(r, files, es, now, date)[f][i] == LineAfter(r, files[f][i], Naming(es, f, i), now, date)
  {
    if es != [] {
      var init, e := es[..|es| - 1], es[|es| - 1];
      EditedLine(r, files, init, now, date, f, i);
      EditAt(r, AllEdited(r, files, init, now, date), e, now, date, f, i);
      LinePush(r, files[f][i], Naming(init, f, i), e, now, date);
      assert Naming(init, f, i) + [] == Naming(init, f, i);
    }
  }

  lemma EditsTick(r: Reader, line: Text, l: Line, f: nat, i: nat, now: Moment, date: Text)
    requires l == Meaning(r, line)
    ensures LineAfter(r, line, if IsReminder(l) then [Reminder(f, i, l)] else [], now, date)
            == TextTicked(r, line, now, date)
  {
    LinePush(r, line, [], Reminder(f, i, l), now, date);
    assert [] + [Reminder(f, i, l)] == [Reminder(f, i, l)];
  }

  /** Editing by line numbers read beforehand comes to ticking each line by itself. */
  lemma TickedLine(r: Reader, files: seq<seq<Text>>, now: Moment, date: Text, f: nat, i: nat)
    requires f < |files| && i < |files[f]|
    ensures AllEdited(r, files, AllParsed(ReadFiles(r, files), |files|), now, date)[f][i]
            == TextTicked(r, files[f][i], now, date)
  {
    var said := ReadFiles(r, files);
    ReadFilesAt(r, files, f);
    ReadAt(r, files[f], i);
    EditedLine(r, files, AllParsed(said, |files|), now, date, f, i);
    AllParsedNaming(said, |files|, f, i);
    ExpectedOnce(said, |files|, f, i);
    EditsTick(r, files[f][i], said[f][i], f, i, now, date);
  }

  // ------------------------------------------------------------- lines stay lines

  lemma LineKept(r: Reader, line: Text, now: Moment, date: Text)
    requires L.OneLine(line) && L.IsStamp(date)
    ensures var after := TextTicked(r, line, now, date);
            L.OneLine(after) && (L.Ended(line) ==> L.Ended(after)) && (line != [] ==> after != [])
  {
    if Due(Meaning(r, line), now) {
      if Meaning(r, line).rule.Once? {
        L.DoneRead(line, date);
      } else {
        TickKeepsLine(r, line, now);
      }
    }
  }

  lemma TickShaped(r: Reader, files: seq<seq<Text>>, after: seq<seq<Text>>, now: Moment, date: Text)
    requires AllShaped(files) && L.IsStamp(date) && |after| == |files|
    requires forall f | 0 <= f < |files| :: |after[f]| == |files[f]|
    requires forall f, i | 0 <= f < |files| && 0 <= i < |files[f]| ::
               after[f][i] == TextTicked(r, files[f][i], now, date)
    ensures AllShaped(after)
  {
    forall f, i | 0 <= f < |after| && 0 <= i < |after[f]|
      ensures after[f][i] != [] && L.OneLine(after[f][i]) && (i < |after[f]| - 1 ==> L.Ended(after[f][i]))
    {
      LineKept(r, files[f][i], now, date);
    }
  }

  // ------------------------------------------------------------ reading a file again

  /** The text of a file. */
  function Contents(lines: seq<Text>): Text {
    if lines == [] then [] else lines[0] + Contents(lines[1..])
  }

  /** The first line of a text, with its line break. */
  function Head(t: Text): (h: Text)
    ensures h <= t && (t != [] ==> h != [])
  {
    if t == [] then [] else if t[0] == NL then [NL] else [t[0]] + Head(t[1..])
  }

  /** `f.readlines()` */
  function Lines(t: Text): seq<Text> {
    if t == [] then [] else [Head(t)] + Lines(t[|Head(t)|..])
  }

  lemma {:induction false} HeadIs(line: Text, rest: Text)
    requires line != [] && L.OneLine(line) && (L.Ended(line) || rest == [])
    ensures Head(line + rest) == line
  {
    assert (line + rest)[1..] == line[1..] + rest;
    if |line| > 1 {
      assert line[0] == line[..|line| - 1][0] && line[..|line| - 1][1..] == line[1..][..|line| - 2];
      HeadIs(line[1..], rest);
    } else if line[0] != NL {
      assert line + rest == line;
    }
  }

  /** The lines of a file that is written are read again as they are: no edit makes two
      lines of one or one of two. */
  lemma {:induction false} ReadAgain(f: seq<Text>)
    requires Shaped(f)
    ensures Lines(Contents(f)) == f
  {
    if f != [] {
      var rest := Contents(f[1..]);
      assert |f| == 1 ==> rest == [];
      HeadIs(f[0], rest);
      assert (f[0] + rest)[|f[0]|..] == rest;
      ReadAgain(f[1..]);
    }
  }
}
