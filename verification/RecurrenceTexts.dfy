/** The recurrence text of a reminder line and the rule it names (_find_workspace_tasks
    and _next_occurrence in pawlia/scheduler.py): the rule does not depend on the digits
    of a time. */
module RecurrenceTexts {
  import Seqs
  import opened Texts
  import opened Errors
  import opened Reminders
  import opened ReminderLines

  const AGAIN: Code := 0x1F501

  /** The signs that end a recurrence text, after a blank. */
  const ENDS: set<Code> := {GLASS, 0x1F6EB, 0x1F4C5, 0x2795, TICK, 0x274C, 0x1F53A, 0x23EB, 0x1F53C, 0x1F53D, 0x23EC}

  // ---------------------------------------------------------------------- reading

  predicate AgainHere(t: Text) {
    |t| > 1 && t[0] == AGAIN && IsSpace(t[1]) && TrimLeft(t[1..]) != []
  }

  /** What follows the first repeat sign and its blanks, or nothing. */
  function Behind(t: Text): (r: Text)
    ensures |r| <= |t|
  {
    if t == [] then [] else if AgainHere(t) then TrimLeft(t[1..]) else Behind(t[1..])
  }

  predicate EndsHere(t: Text) {
    |t| > 1 && IsSpace(t[0]) && t[1] in ENDS
  }

  function UpToEnd(t: Text): (r: Text)
    ensures r <= t
  {
    if t == [] || EndsHere(t) then [] else [t[0]] + UpToEnd(t[1..])
  }

  /** At least one character, up to a blank and a sign. */
  function TextFrom(u: Text): Text {
    if u == [] then [] else [u[0]] + UpToEnd(u[1..])
  }

  /** The recurrence text of a line. */
  function Recurrence(t: Text): Option<Text> {
    var u := Behind(t);
    if u == [] then None else Some(Trim(TextFrom(u)))
  }

  // --------------------------------------------------------------------- the rule

  function Lower(lower: Code -> Text, t: Text): Text {
    if t == [] then [] else Lower(lower, t[..|t| - 1]) + lower(t[|t| - 1])
  }

  predicate StandsAt(t: Text, w: Text, i: nat) {
    i + |w| <= |t| && t[i..i + |w|] == w
  }

  predicate Contains(t: Text, w: Text) {
    exists i | 0 <= i <= |t| :: StandsAt(t, w, i)
  }

  predicate ContainsSome(t: Text, words: seq<Text>) {
    words != [] && (Contains(t, words[0]) || ContainsSome(t, words[1..]))
  }

  const MONTHS := [Lit("month")]
  const PHRASES := [Lit("weekly"), Lit("freq=weekly"), Lit("byday="), Lit("every week")]
  const DAYS := [Lit("mon"), Lit("tue"), Lit("wed"), Lit("thu"), Lit("fri"), Lit("sat"), Lit("sun")]
  const WEEKS := PHRASES + DAYS

  function RuleOf(lower: Code -> Text, t: Text): Rule {
    var low := Trim(Lower(lower, t));
    Every(ContainsSome(low, MONTHS), ContainsSome(low, WEEKS))
  }

  function RuleRead(lower: Code -> Text, t: Text): Rule {
    match Recurrence(t)
    case None => Once
    case Some(r) => RuleOf(lower, r)
  }

  // ------------------------------------------------------------------ keywords in a text

  /** The lower-case characters of a time. */
  predicate IsLowStamp(c: Code) {
    48 <= c <= 58 || c == 45 || c == 116
  }

  predicate Foreign(w: Text) {
    exists c :: c in w && !IsLowStamp(c)
  }

  /** A keyword: not made of such characters alone, a `t` at most of them, and then no
      blank; no blanks at its ends. */
  predicate IsWord(w: Text) {
    && w != [] && !IsSpace(w[0]) && !IsSpace(w[|w| - 1]) && Foreign(w)
    && (forall c | c in w && IsLowStamp(c) :: c == 116)
    && (116 !in w || forall c | c in w :: !IsSpace(c))
  }

  lemma StandsChar(t: Text, w: Text, i: nat, k: nat)
    requires StandsAt(t, w, i) && i <= k < i + |w|
    ensures t[k] in w && t[k] == w[k - i]
  {
    assert t[i..i + |w|][k - i] == t[k];
  }

  lemma StandsBoth(t: Text, w: Text, i: nat, k: nat)
    requires StandsAt(t, w, i) && i < k < i + |w|
    ensures t[k - 1] in w && t[k] in w
  {
    StandsChar(t, w, i, k - 1);
    StandsChar(t, w, i, k);
  }

  lemma StandsIn(x: Text, t: Text, y: Text, w: Text, i: nat)
    ensures |x| <= i && i + |w| <= |x + t| ==> (StandsAt(x + t + y, w, i) <==> StandsAt(t, w, i - |x|))
  {
    if |x| <= i && i + |w| <= |x + t| {
      assert (x + t + y)[i..i + |w|] == t[i - |x|..i - |x| + |w|];
    }
  }

  lemma StandsFront(x: Text, y: Text, w: Text, i: nat)
    requires i + |w| <= |x|
    ensures StandsAt(x + y, w, i) <==> StandsAt(x, w, i)
  {
    assert (x + y)[i..i + |w|] == x[i..i + |w|];
  }

  lemma StandsBack(x: Text, y: Text, w: Text, i: nat)
    requires |x| <= i && StandsAt(x + y, w, i)
    ensures Contains(y, w)
  {
    assert (x + y)[i..i + |w|] == y[i - |x|..i - |x| + |w|];
    assert StandsAt(y, w, i - |x|);
  }

  lemma ContainsPart(x: Text, t: Text, y: Text, w: Text)
    requires Contains(t, w)
    ensures Contains(x + t + y, w)
  {
    var i :| 0 <= i <= |t| && StandsAt(t, w, i);
    StandsIn(x, t, y, w, |x| + i);
  }

  lemma InsideTime(a: Text, s: Text, b: Text, w: Text, i: nat)
    requires StandsAt(a + s + b, w, i) && |a| <= i && i + |w| <= |a + s| && forall c | c in s :: IsLowStamp(c)
    ensures !Foreign(w)
  {
    StandsIn(a, s, b, w, i);
    assert forall c | c in w :: c in s;
  }

  /** No keyword stands across an end of a time that follows a blank and ends in a digit. */
  lemma NotAcross(w: Text, a: Text, s: Text, b: Text, i: nat)
    requires IsWord(w) && s != [] && (forall c | c in s :: IsLowStamp(c)) && s[|s| - 1] != 116
    requires (a == [] || IsSpace(a[|a| - 1])) && StandsAt(a + s + b, w, i)
    ensures i + |w| <= |a| || |a + s| <= i
  {
    var t, last := a + s + b, |a + s| - 1;
    assert s[0] in s && s[|s| - 1] in s && t[last] == s[|s| - 1];
    assert t[|a|] == s[0] && (a != [] ==> t[|a| - 1] == a[|a| - 1]);
    if i <= last < i + |w| {
      StandsChar(t, w, i, last);
    } else if i < |a| < i + |w| {
      StandsBoth(t, w, i, |a|);
    } else if |a| <= i < |a + s| {
      InsideTime(a, s, b, w, i);
    }
  }

  lemma ContainsEither(w: Text, a: Text, s: Text, b: Text)
    requires IsWord(w) && s != [] && (forall c | c in s :: IsLowStamp(c)) && s[|s| - 1] != 116
    requires (a == [] || IsSpace(a[|a| - 1])) && Contains(a + s + b, w)
    ensures Contains(a, w) || Contains(b, w)
  {
    var i :| 0 <= i <= |a + s + b| && StandsAt(a + s + b, w, i);
    NotAcross(w, a, s, b, i);
    if i + |w| <= |a| {
      StandsFront(a + s, b, w, i);
      StandsFront(a, s, w, i);
    } else {
      StandsBack(a + s, b, w, i);
    }
  }

  lemma ContainsApart(w: Text, a: Text, s: Text, b: Text)
    requires IsWord(w) && s != [] && (forall c | c in s :: IsLowStamp(c)) && s[|s| - 1] != 116
    requires a == [] || IsSpace(a[|a| - 1])
    ensures Contains(a + s + b, w) <==> Contains(a, w) || Contains(b, w)
  {
    if Contains(a, w) {
      ContainsPart([], a, s + b, w);
      assert [] + a + (s + b) == a + s + b;
    }
    if Contains(b, w) {
      ContainsPart(a + s, b, [], w);
      assert (a + s) + b + [] == a + s + b;
    }
    if Contains(a + s + b, w) {
      ContainsEither(w, a, s, b);
    }
  }

  lemma ContainsInner(w: Text, x: Text, t: Text, y: Text)
    requires IsWord(w) && Blank(x) && Blank(y)
    ensures Contains(x + t + y, w) <==> Contains(t, w)
  {
    if Contains(t, w) {
      ContainsPart(x, t, y, w);
    }
    if Contains(x + t + y, w) {
      var i :| 0 <= i <= |x + t + y| && StandsAt(x + t + y, w, i);
      assert i < |x| ==> x[i] in x;
      assert i + |w| > |x + t| ==> y[i + |w| - 1 - |x + t|] in y;
      StandsChar(x + t + y, w, i, i);
      StandsChar(x + t + y, w, i, i + |w| - 1);
      StandsIn(x, t, y, w, i);
    }
  }

  predicate AreWords(words: seq<Text>) {
    forall w | w in words :: IsWord(w)
  }

  lemma {:induction false} SomeApart(words: seq<Text>, a: Text, s: Text, b: Text)
    requires AreWords(words) && s != [] && (forall c | c in s :: IsLowStamp(c)) && s[|s| - 1] != 116
    requires a == [] || IsSpace(a[|a| - 1])
    ensures ContainsSome(a + s + b, words) <==> ContainsSome(a, words) || ContainsSome(b, words)
  {
    if words != [] {
      assert words[0] in words && forall w | w in words[1..] :: w in words;
      ContainsApart(words[0], a, s, b);
      SomeApart(words[1..], a, s, b);
    }
  }

  lemma {:induction false} SomeInner(words: seq<Text>, x: Text, t: Text, y: Text)
    requires AreWords(words) && Blank(x) && Blank(y)
    ensures ContainsSome(x + t + y, words) <==> ContainsSome(t, words)
  {
    if words != [] {
      assert words[0] in words && forall w | w in words[1..] :: w in words;
      ContainsInner(words[0], x, t, y);
      SomeInner(words[1..], x, t, y);
    }
  }

  lemma WordAt(w: Text, k: nat)
    requires k < |w| && !IsLowStamp(w[k]) && !IsSpace(w[0]) && !IsSpace(w[|w| - 1])
    requires forall i | 0 <= i < |w| && IsLowStamp(w[i]) :: w[i] == 116
    requires (forall i | 0 <= i < |w| :: w[i] != 116) || (forall i | 0 <= i < |w| :: !IsSpace(w[i]))
    ensures IsWord(w)
  {
    assert w[k] in w;
  }

  lemma MonthOk()
    ensures AreWords(MONTHS)
  {
    WordAt(Lit("month"), 0);
  }

  lemma CadencesOk()
    ensures AreWords([Lit("weekly"), Lit("freq=weekly")])
  {
    WordAt(Lit("weekly"), 0);
    WordAt(Lit("freq=weekly"), 0);
  }

  lemma PhrasesOk()
    ensures AreWords([Lit("byday="), Lit("every week")])
  {
    WordAt(Lit("byday="), 0);
    WordAt(Lit("every week"), 0);
  }

  lemma DaysOk()
    ensures AreWords([Lit("mon"), Lit("tue"), Lit("wed")])
  {
    WordAt(Lit("mon"), 0);
    WordAt(Lit("tue"), 1);
    WordAt(Lit("wed"), 0);
  }

  lemma WeekendOk()
    ensures AreWords([Lit("thu"), Lit("fri")]) && AreWords([Lit("sat"), Lit("sun")])
  {
    WordAt(Lit("thu"), 1);
    WordAt(Lit("fri"), 0);
    WordAt(Lit("sat"), 0);
    WordAt(Lit("sun"), 0);
  }

  lemma WordsOk()
    ensures AreWords(MONTHS) && AreWords(WEEKS)
  {
    MonthOk();
    CadencesOk();
    PhrasesOk();
    DaysOk();
    WeekendOk();
    assert PHRASES == [Lit("weekly"), Lit("freq=weekly")] + [Lit("byday="), Lit("every week")];
    assert DAYS == [Lit("mon"), Lit("tue"), Lit("wed")] + [Lit("thu"), Lit("fri")] + [Lit("sat"), Lit("sun")];
  }

  // ---------------------------------------------------------------------- lower case

  /** Lower case leaves digits, their separators and blanks alone. */
  ghost predicate Lowers(lower: Code -> Text) {
    && (forall c | (IsStampCode(c) && c != 84) || IsSpace(c) :: lower(c) == [c])
    && lower(84) == [116]
  }

  lemma {:induction false} LowerJoin(lower: Code -> Text, x: Text, y: Text)
    ensures Lower(lower, x + y) == Lower(lower, x) + Lower(lower, y)
  {
    if y == [] {
      assert x + y == x;
    } else {
      assert (x + y)[..|x + y| - 1] == x + y[..|y| - 1];
      LowerJoin(lower, x, y[..|y| - 1]);
    }
  }

  lemma {:induction false} LowerBlank(lower: Code -> Text, t: Text)
    requires Lowers(lower) && Blank(t)
    ensures Lower(lower, t) == t
  {
    if t != [] {
      var n := |t| - 1;
      assert t[n] in t && forall c | c in t[..n] :: c in t;
      LowerBlank(lower, t[..n]);
      assert IsSpace(t[n]) && lower(t[n]) == [t[n]];
      assert t == t[..n] + [t[n]];
    }
  }

  lemma {:induction false} LowerStamp(lower: Code -> Text, s: Text)
    requires Lowers(lower) && forall c | c in s :: IsStampCode(c)
    ensures var l := Lower(lower, s); |l| == |s| && forall c | c in l :: IsLowStamp(c)
    ensures s != [] && s[|s| - 1] != 84 ==> Lower(lower, s)[|s| - 1] == s[|s| - 1]
  {
    if s != [] {
      var n := |s| - 1;
      assert s[n] in s && forall c | c in s[..n] :: c in s;
      LowerStamp(lower, s[..n]);
      assert lower(s[n]) == if s[n] == 84 then [116] else [s[n]];
    }
  }

  /** The rule of a text without the cut at its ends. */
  function Bare(lower: Code -> Text, t: Text): Rule {
    Every(ContainsSome(Lower(lower, t), MONTHS), ContainsSome(Lower(lower, t), WEEKS))
  }

  lemma LeftPart(t: Text) returns (x: Text)
    ensures Blank(x) && t == x + TrimLeft(t)
  {
    x := t[..|t| - |TrimLeft(t)|];
    LeftIsEnd(t);
    LeftBlank(t);
  }

  lemma {:induction false} LeftBlank(t: Text)
    ensures Blank(t[..|t| - |TrimLeft(t)|])
  {
    if t != [] && IsSpace(t[0]) {
      LeftBlank(t[1..]);
      assert t[..|t| - |TrimLeft(t)|] == [t[0]] + t[1..][..|t| - 1 - |TrimLeft(t)|];
    }
  }

  lemma BothParts(t: Text) returns (x: Text, y: Text)
    ensures Blank(x) && Blank(y) && t == x + Trim(t) + y
  {
    x := LeftPart(t);
    var m;
    m, y := Parted(TrimLeft(t));
    assert x + (m + y) == x + m + y;
  }

  /** Cutting blanks off, before or after lowering, does not matter to the rule. */
  lemma RuleBare(lower: Code -> Text, t: Text)
    requires Lowers(lower)
    ensures RuleOf(lower, Trim(t)) == Bare(lower, t)
  {
    var x, y := BothParts(t);
    var low := Lower(lower, Trim(t));
    LowerJoin(lower, x + Trim(t), y);
    LowerJoin(lower, x, Trim(t));
    LowerBlank(lower, x);
    LowerBlank(lower, y);
    var p, q := BothParts(low);
    WordsOk();
    SomeInner(MONTHS, x, low, y);
    SomeInner(WEEKS, x, low, y);
    SomeInner(MONTHS, p, Trim(low), q);
    SomeInner(WEEKS, p, Trim(low), q);
  }

  /** A time that ends in a digit. */
  predicate IsTime(s: Text) {
    IsStamp(s) && s[|s| - 1] != 84
  }

  /** The rule does not depend on a time that follows a blank. */
  lemma BareTime(lower: Code -> Text, a: Text, s: Text, z: Text, b: Text)
    requires Lowers(lower) && IsTime(s) && IsTime(z) && (a == [] || IsSpace(a[|a| - 1]))
    ensures Bare(lower, a + s + b) == Bare(lower, a + z + b)
  {
    BareApart(lower, a, s, b);
    BareApart(lower, a, z, b);
  }

  lemma LowerEnd(lower: Code -> Text, a: Text)
    requires Lowers(lower) && a != [] && IsSpace(a[|a| - 1])
    ensures var l := Lower(lower, a); l != [] && IsSpace(l[|l| - 1])
  {}

  lemma BareApart(lower: Code -> Text, a: Text, s: Text, b: Text)
    requires Lowers(lower) && IsTime(s) && (a == [] || IsSpace(a[|a| - 1]))
    ensures var x, y := Lower(lower, a), Lower(lower, b);
            Bare(lower, a + s + b) == Every(ContainsSome(x, MONTHS) || ContainsSome(y, MONTHS),
                                            ContainsSome(x, WEEKS) || ContainsSome(y, WEEKS))
  {
    LowerJoin(lower, a + s, b);
    LowerJoin(lower, a, s);
    LowerStamp(lower, s);
    if a != [] {
      LowerEnd(lower, a);
    }
    WordsOk();
    SomeApart(MONTHS, Lower(lower, a), Lower(lower, s), Lower(lower, b));
    SomeApart(WEEKS, Lower(lower, a), Lower(lower, s), Lower(lower, b));
    assert s[|s| - 1] in s;
  }

  // ---------------------------------------------------------------- moving the time

  lemma UpToFirst(c: Code, t: Text)
    ensures UpToEnd([c] + t) == if t != [] && IsSpace(c) && t[0] in ENDS then [] else [c] + UpToEnd(t)
  {
    assert ([c] + t)[1..] == t;
  }

  lemma Front(c: Code, x: Text, s: Text, b: Text)
    ensures ([c] + x) + s + b == [c] + (x + s + b)
  {}

  lemma {:induction false} UpToPast(x: Text, s: Text, b: Text)
    requires IsStamp(s)
    ensures UpToEnd(x + s + b) == if UpToEnd(x) == x then x + s + UpToEnd(b) else UpToEnd(x)
  {
    if x == [] {
      assert x + s == s;
      StampPast(s, b);
    } else {
      var c, r := x[0], x[1..];
      assert x == [c] + r && s[0] in s;
      UpToPast(r, s, b);
      UpToFirst(c, r);
      UpToFirst(c, r + s + b);
      Front(c, r, s, b);
      Front(c, r, s, UpToEnd(b));
    }
  }

  lemma {:induction false} StampPast(s: Text, b: Text)
    requires forall c | c in s :: IsStampCode(c)
    ensures UpToEnd(s + b) == s + UpToEnd(b)
  {
    if s == [] {
      assert s + b == b;
    } else {
      assert (s + b)[1..] == s[1..] + b;
      assert s[0] in s && forall c | c in s[1..] :: c in s;
      StampPast(s[1..], b);
    }
  }

  /** The recurrence text does not end within this text. */
  predicate Open(x: Text) {
    x == [] || UpToEnd(x[1..]) == x[1..]
  }

  lemma FromFirst(c: Code, t: Text)
    ensures TextFrom([c] + t) == [c] + UpToEnd(t)
  {
    assert ([c] + t)[1..] == t;
  }

  lemma TextOfTime(c: Code, s: Text, b: Text)
    requires forall d | d in s :: IsStampCode(d)
    ensures TextFrom([c] + s + b) == [c] + s + UpToEnd(b)
  {
    StampPast(s, b);
    FromFirst(c, s + b);
    Seqs.Assoc([c], s, b);
    Seqs.Assoc([c], s, UpToEnd(b));
  }

  lemma TextOfMore(c: Code, x: Text, s: Text, b: Text)
    requires IsStamp(s)
    ensures TextFrom(([c] + x) + s + b) == if UpToEnd(x) == x then ([c] + x) + s + UpToEnd(b) else [c] + UpToEnd(x)
  {
    UpToPast(x, s, b);
    FromFirst(c, x + s + b);
    Front(c, x, s, b);
    Front(c, x, s, UpToEnd(b));
  }

  lemma TextPast(x: Text, s: Text, b: Text)
    requires IsStamp(s)
    ensures TextFrom(x + s + b) == if Open(x) then x + s + UpToEnd(b) else TextFrom(x)
  {
    if x == [] {
      assert x + s == s && s == [s[0]] + s[1..];
      assert forall c | c in s[1..] :: c in s;
      TextOfTime(s[0], s[1..], b);
    } else {
      assert x == [x[0]] + x[1..];
      TextOfMore(x[0], x[1..], s, b);
    }
  }

  /** What follows a repeat sign in this text, if there is one. */
  function BehindIn(x: Text): Option<Text> {
    if x == [] then None
    else if |x| > 1 && x[0] == AGAIN && IsSpace(x[1]) then Some(TrimLeft(x[1..]))
    else BehindIn(x[1..])
  }

  predicate BlankEnd(x: Text) {
    x == [] || IsSpace(x[|x| - 1])
  }

  lemma {:induction false} BehindInEnd(x: Text)
    requires BlankEnd(x) && BehindIn(x).Some?
    ensures BlankEnd(BehindIn(x).value)
  {
    if |x| > 1 && x[0] == AGAIN && IsSpace(x[1]) {
      LeftIsEnd(x[1..]);
    } else {
      BehindInEnd(x[1..]);
    }
  }

  lemma {:induction false} BehindStamp(s: Text, b: Text)
    requires forall c | c in s :: IsStampCode(c)
    ensures Behind(s + b) == Behind(b)
  {
    if s == [] {
      assert s + b == b;
    } else {
      assert (s + b)[1..] == s[1..] + b;
      assert s[0] in s && forall c | c in s[1..] :: c in s;
      BehindStamp(s[1..], b);
    }
  }

  lemma {:induction false} BehindPast(x: Text, s: Text, b: Text)
    requires BlankEnd(x) && IsStamp(s)
    ensures Behind(x + s + b)
            == match BehindIn(x)
               case None => Behind(b)
               case Some(y) => y + s + b
  {
    if x == [] {
      assert x + s + b == s + b;
      BehindStamp(s, b);
    } else {
      assert (x + s + b)[1..] == x[1..] + (s + b) == x[1..] + s + b;
      TrimLeftOf(x[1..], s + b);
      assert s[0] in s && (s + b)[0] == s[0];
      assert TrimLeft(x[1..]) + (s + b) == TrimLeft(x[1..]) + s + b;
      if !(|x| > 1 && x[0] == AGAIN && IsSpace(x[1])) {
        BehindPast(x[1..], s, b);
      }
    }
  }

  /** A line that gives another time in the same place names the same rule. */
  lemma RuleMoved(lower: Code -> Text, x: Text, s: Text, z: Text, b: Text)
    requires Lowers(lower) && IsTime(s) && IsTime(z) && BlankEnd(x)
    ensures RuleRead(lower, x + s + b) == RuleRead(lower, x + z + b)
  {
    BehindPast(x, s, b);
    BehindPast(x, z, b);
    if BehindIn(x).Some? {
      var y := BehindIn(x).value;
      BehindInEnd(x);
      TextPast(y, s, b);
      TextPast(y, z, b);
      RuleBare(lower, TextFrom(y + s + b));
      RuleBare(lower, TextFrom(y + z + b));
      if Open(y) {
        BareTime(lower, y, s, z, UpToEnd(b));
      }
    }
  }
}
