/** The daily log: the main history and thread sections in one text
    (MemoryManager in pawlia/memory.py). */
module DayLog {
  import opened Texts

  /** The marker texts of the current and the old section format. */
  datatype Marks = Marks(opener: Text, closer: Text, oldHead: Text, oldOpener: Text, oldCloser: Text)

  const HASHES: Text := [35, 35, 32]
  const SPACE: Code := 32
  const HASH: Code := 35
  const DASHES: Text := [32, 45, 45, 62]
  const THREAD: Text := [84, 104, 114, 101, 97, 100]

  const PAWLIA := Marks(Lit("<!-- pawlia-thread: "), Lit("<!-- /pawlia-thread -->"), Lit("## Thread "),
                        Lit("<!-- PAWLIA_THREAD_SECTION -->"), Lit("<!-- /PAWLIA_THREAD_SECTION -->"))

  function DropNewlines(t: Text): (r: Text)
    ensures |r| <= |t|
    ensures r == [] || r[0] != NL
  {
    if t != [] && t[0] == NL then DropNewlines(t[1..]) else t
  }

  // ----------------------------------------------------------------- matching

  /** The first occurrence of p: the text before and after it. */
  datatype Split = Split(before: Text, after: Text) | Nowhere

  function Find(t: Text, p: Text): (r: Split)
    ensures r.Split? ==> t == r.before + p + r.after
  {
    if p <= t then
      assert t == [] + p + t[|p|..];
      Split([], t[|p|..])
    else if t == [] then Nowhere
    else
      match Find(t[1..], p)
      case Nowhere => Nowhere
      case Split(before, after) =>
        assert t == [t[0]] + t[1..];
        Split([t[0]] + before, after)
  }

  /** Any thread, or the thread of one id. */
  datatype Want = Any | One(id: Text)

  /** The rest of an opener line, after the opener, names the thread wanted. */
  predicate Names(line: Text, want: Want) {
    && |line| >= |DASHES| && line[|line| - |DASHES|..] == DASHES
    && match want
       case Any => |line| > |DASHES|
       case One(id) => line[..|line| - |DASHES|] == id
  }

  /** A section found at the start of a text: heading line, body, rest. */
  datatype Match = Match(heading: Text, body: Text, after: Text) | NoMatch

  /** The text goes on with an opener line for the thread wanted. */
  predicate Opens(m: Marks, v: Text, want: Want) {
    && m.opener <= v
    && var line := FirstLine(v[|m.opener|..]);
       |m.opener| + |line| < |v| && Names(line, want)
  }

  /** A section of the current format that starts right here. */
  function NewSection(m: Marks, u: Text, want: Want): Match {
    var heading := FirstLine(u);
    if HASHES <= u && |heading| > |HASHES| && |heading| < |u| && Opens(m, u[|heading| + 1..], want) then
      Ending(heading, AfterOpener(m, u[|heading| + 1..]), m.closer)
    else NoMatch
  }

  /** A section of the old format that starts right here: the heading names it. */
  function OldSection(m: Marks, u: Text, want: Want): Match {
    var heading := FirstLine(u);
    if m.oldHead <= u && |heading| > |m.oldHead| && |heading| < |u| && m.oldOpener <= u[|heading| + 1..]
       && (want.One? ==> heading == m.oldHead + want.id)
    then Ending(heading, u[|heading| + 1..][|m.oldOpener|..], m.oldCloser)
    else NoMatch
  }

  /** The text behind an opener line. */
  function AfterOpener(m: Marks, v: Text): (r: Text)
    requires m.opener <= v && |m.opener| + |FirstLine(v[|m.opener|..])| < |v|
    ensures |r| < |v|
  {
    v[|m.opener|..][|FirstLine(v[|m.opener|..])| + 1..]
  }

  /** The body runs up to the first closer. */
  function Ending(heading: Text, v: Text, closer: Text): Match {
    match Find(v, closer)
    case Nowhere => NoMatch
    case Split(body, after) => Match(heading, body, after)
  }

  /** A section at the start of a text, after any line breaks. */
  function MatchAt(m: Marks, legacy: bool, t: Text, want: Want): Match {
    var u := DropNewlines(t);
    if legacy then OldSection(m, u, want) else NewSection(m, u, want)
  }

  /** The leftmost section of a text: what comes before it, and the section. */
  datatype Found = Found(before: Text, heading: Text, body: Text, after: Text) | Absent

  function Prepend(x: Text, f: Found): Found {
    if f.Found? then f.(before := x + f.before) else Absent
  }

  function Search(m: Marks, legacy: bool, t: Text, want: Want): Found {
    match MatchAt(m, legacy, t, want)
    case Match(heading, body, after) => Found([], heading, body, after)
    case NoMatch => if t == [] then Absent else Prepend([t[0]], Search(m, legacy, t[1..], want))
  }

  lemma MatchShrinks(m: Marks, legacy: bool, t: Text, want: Want)
    requires m.closer != [] && m.oldCloser != []
    ensures var f := MatchAt(m, legacy, t, want); f.Match? ==> |f.after| < |t|
  {}

  lemma {:induction false} SearchShrinks(m: Marks, legacy: bool, t: Text, want: Want)
    requires m.closer != [] && m.oldCloser != []
    ensures var f := Search(m, legacy, t, want); f.Found? ==> |f.after| < |t|
  {
    MatchShrinks(m, legacy, t, want);
    if t != [] {
      SearchShrinks(m, legacy, t[1..], want);
    }
  }

  /** The text without its sections, `pattern.sub("", text)`. */
  function Without(m: Marks, legacy: bool, t: Text): Text
    requires m.closer != [] && m.oldCloser != []
    decreases |t|
  {
    SearchShrinks(m, legacy, t, Any);
    match Search(m, legacy, t, Any)
    case Absent => t
    case Found(before, _, _, after) => before + Without(m, legacy, after)
  }

  // --------------------------------------------------------------- operations

  function MainHistory(m: Marks, t: Text): Text
    requires m.closer != [] && m.oldCloser != []
  {
    TrimRight(Without(m, true, Without(m, false, t)))
  }

  function ThreadHistory(m: Marks, t: Text, id: Text): Text {
    match Search(m, false, t, One(id))
    case Found(_, _, body, _) => Trim(body)
    case Absent =>
      match Search(m, true, t, One(id))
      case Found(_, _, body, _) => Trim(body)
      case Absent => []
  }

  function OrThread(title: Text): Text {
    if title == [] then THREAD else title
  }

  function Rendered(m: Marks, id: Text, body: Text, title: Text): Text {
    HASHES + OrThread(Trim(title)) + [NL] + m.opener + id + DASHES + [NL] + Trim(body) + [NL] + m.closer
  }

  function Extended(body: Text, block: Text): Text {
    if body != [] then body + [NL] + block else block
  }

  function Title(heading: Text): Text {
    Trim(DropHashes(heading))
  }

  function DropHashes(t: Text): Text {
    if t != [] && t[0] == HASH then DropHashes(t[1..]) else t
  }

  /** Put a new section in the place of an old one. */
  function Replaced(before: Text, section: Text, after: Text): Text {
    var rest := DropNewlines(after);
    TrimRight(TrimRight(before) + [NL, NL] + section + (if Trim(rest) != [] then [NL, NL] + rest else [NL])) + [NL]
  }

  /** Add a block to a thread; `titleOf` reads a title off an old-format body. */
  function Upsert(m: Marks, titleOf: Text -> Text, t: Text, id: Text, block: Text, title: Text): Text {
    match Search(m, false, t, One(id))
    case Found(before, heading, body, after) =>
      Replaced(before, Rendered(m, id, Extended(Trim(body), Trim(block)), Title(heading)), after)
    case Absent =>
      match Search(m, true, t, One(id))
      case Found(before, _, body, after) =>
        var used := if title != [] then title else OrThread(titleOf(Trim(body)));
        Replaced(before, Rendered(m, id, Extended(Trim(body), Trim(block)), used), after)
      case Absent =>
        var section := Rendered(m, id, Trim(block), title);
        if Trim(t) != [] then TrimRight(t) + [NL, NL] + section + [NL] else section + [NL]
  }

  /** A line break and the heading of a section, in either format. */
  predicate Heads(m: Marks, t: Text) {
    && t != [] && t[0] == NL
    && var line := FirstLine(t[1..]);
       && 1 + |line| < |t|
       && var v := t[|line| + 2..];
          || (HASHES <= line && |line| > |HASHES| && m.opener <= v)
          || (m.oldHead <= line && |line| > |m.oldHead| && m.oldOpener <= v)
  }

  /** The text before and from the first such place. */
  function FirstHead(m: Marks, t: Text): Split {
    if Heads(m, t) then Split([], t)
    else if t == [] then Nowhere
    else
      match FirstHead(m, t[1..])
      case Nowhere => Nowhere
      case Split(before, after) => Split([t[0]] + before, after)
  }

  /** Add an entry to the main history, before the first section. */
  function AppendMain(m: Marks, t: Text, entry: Text): Text {
    match FirstHead(m, t)
    case Split(before, after) =>
      var kept := TrimRight(before);
      (if kept != [] then kept + [NL] else []) + Trim(entry) + [NL, NL] + DropNewlines(after)
    case Nowhere =>
      (if Trim(t) != [] then TrimRight(t) + [NL] else []) + Trim(entry) + [NL]
  }
}
